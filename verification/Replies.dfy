/** What a client is given, in every interleaved run. */
module Replies {
  import opened Prelude
  import opened GatewayState
  import opened Protocol
  import opened Runs
  import CacheCoherence
  import Cache = ResponseCache

  // A lookup of the request's own found this response.
  ghost predicate HitAt(h: seq<Event>, r: nat, value: Cache.Response, i: nat) {
    i < |h| && h[i].who == r && h[i].action.LookUp? && h[i].action.hit == Some(value)
  }

  // An exchange of the request's own ended in this answer.
  ghost predicate AnsweredAt(h: seq<Event>, r: nat, x: Exchange, j: nat) {
    j < |h| && h[j].who == r && h[j].action.Exchanged? && h[j].action.exchange == x && x.Answer?
  }

  // What upstream sent, whole and with the same ending; or, of an error, what fits the limit.
  ghost predicate PassesOn(x: Exchange, value: Cache.Response, fails: bool)
    requires x.Answer?
  {
    && value.status == x.status && value.header == x.header
    && if 200 <= x.status < 300 then value.body == x.body && fails == x.broken
       else !fails && value.body == if |x.body| <= 1024 * 1024 then x.body else x.body[..1024 * 1024]
  }

  ghost predicate PassedOnAt(h: seq<Event>, r: nat, value: Cache.Response, fails: bool, x: Exchange, j: nat) {
    AnsweredAt(h, r, x, j) && PassesOn(x, value, fails)
  }

  /** A reply is what the cache gave, or what upstream answered, to this very request. */
  ghost predicate Comes(h: seq<Event>, r: nat, value: Cache.Response, fails: bool) {
    || (!fails && exists i :: HitAt(h, r, value, i))
    || exists x, j :: PassedOnAt(h, r, value, fails, x, j)
  }

  ghost predicate Accounted(h: seq<Event>, r: nat, s: Session) {
    && (s.at in {Consulted, Replaying} && s.hit.Some? ==> exists i :: HitAt(h, r, s.hit.value, i))
    && (s.at.Done? && s.result.Reply? ==> Comes(h, r, s.result.response, s.result.fails))
  }

  lemma ComesStill(h: seq<Event>, e: Event, r: nat, value: Cache.Response, fails: bool)
    requires Comes(h, r, value, fails)
    ensures Comes(h + [e], r, value, fails)
  {
    if x, j :| PassedOnAt(h, r, value, fails, x, j) {
      assert PassedOnAt(h + [e], r, value, fails, x, j);
    } else {
      var i :| HitAt(h, r, value, i);
      assert HitAt(h + [e], r, value, i);
    }
  }

  lemma AccountedStill(h: seq<Event>, e: Event, r: nat, s: Session)
    requires Accounted(h, r, s)
    ensures Accounted(h + [e], r, s)
  {
    if s.at.Done? && s.result.Reply? {
      ComesStill(h, e, r, s.result.response, s.result.fails);
    } else if s.at in {Consulted, Replaying} && s.hit.Some? {
      var i :| HitAt(h, r, s.hit.value, i);
      assert HitAt(h + [e], r, s.hit.value, i);
    }
  }

  // The last step: a reply is the hit, or the answer heard.
  lemma FinishIsAccounted(g: Setup, h: seq<Event>, r: nat, s: Session, a: Action)
    requires a.Finish? && a.result.Reply? && Advance(g, s, a).Some?
    requires CacheCoherence.Vetted(g, s) && CacheCoherence.Witnessed(h, r, s) && Accounted(h, r, s)
    ensures Comes(h, r, a.result.response, a.result.fails)
  {
    if !s.at.Replaying? {
      var j :| CacheCoherence.HeardAt(h, r, s, j);
      assert PassedOnAt(h, r, a.result.response, a.result.fails, s.exchange, j);
    }
  }

  // The other steps reply nothing, and come to a hit by a lookup only.
  lemma OtherStepsReplyNothing(g: Setup, s: Session, a: Action)
    requires !a.Finish? && Advance(g, s, a).Some?
    ensures var t := Advance(g, s, a).value;
      && !t.at.Done?
      && (t.at in {Consulted, Replaying} && t.hit.Some? ==>
            (a.LookUp? && t.hit == a.hit) || (s.at in {Consulted, Replaying} && t.hit == s.hit))
  {
  }

  lemma StepKeepsAccounted(g: Setup, h: seq<Event>, r: nat, s: Session, a: Action)
    requires Advance(g, s, a).Some?
    requires CacheCoherence.Vetted(g, s) && CacheCoherence.Witnessed(h, r, s) && Accounted(h, r, s)
    ensures Accounted(h + [Event(r, a)], r, Advance(g, s, a).value)
  {
    var t, more := Advance(g, s, a).value, h + [Event(r, a)];
    AccountedStill(h, Event(r, a), r, s);
    if a.Finish? {
      if a.result.Reply? {
        FinishIsAccounted(g, h, r, s, a);
        ComesStill(h, Event(r, a), r, a.result.response, a.result.fails);
      }
    } else {
      OtherStepsReplyNothing(g, s, a);
      if a.LookUp? && a.hit.Some? {
        assert HitAt(more, r, a.hit.value, |h|);
      }
    }
  }

  /** In every run every reply is accounted for: it is a hit's value; or the whole answer of one of the
      request's own exchanges, failing where upstream failed; or the first mebibyte of an error. */
  lemma {:induction false} RepliesAreAccounted(g: Setup, w: World, h: seq<Event>, r: nat)
    requires Opening(w) && r in w.sessions && Run(g, w, h).Some?
    ensures r in Run(g, w, h).value.sessions && Accounted(h, r, Run(g, w, h).value.sessions[r])
  {
    if h != [] {
      var front, e := h[..|h| - 1], h[|h| - 1];
      RepliesAreAccounted(g, w, front, r);
      CacheCoherence.RequestsAreVetted(g, w, front, r);
      assert h == front + [e];
      var s := Run(g, w, front).value.sessions[r];
      if e.who == r {
        StepKeepsAccounted(g, front, r, s, e.action);
      } else {
        AccountedStill(front, e, r, s);
      }
    }
  }

  // Whoever reads the reply reads what upstream sent: the same status, headers and bytes, failing if upstream
  // failed.
  ghost predicate Truthful(x: Exchange, value: Cache.Response, fails: bool)
    requires x.Answer?
  {
    value.status == x.status && value.header == x.header && value.body == x.body && fails == x.broken
  }

  /** What is passed on is what upstream sent, except that the body of an error is cut at a mebibyte, and that
      of a broken error ends as if complete. */
  lemma TruthfulExceptForErrors(x: Exchange, value: Cache.Response, fails: bool)
    requires x.Answer? && PassesOn(x, value, fails)
    ensures Truthful(x, value, fails) <==> 200 <= x.status < 300 || (|x.body| <= 1024 * 1024 && !x.broken)
  {
    if |x.body| > 1024 * 1024 {
      assert |x.body[..1024 * 1024]| < |x.body|;
    }
  }
}
