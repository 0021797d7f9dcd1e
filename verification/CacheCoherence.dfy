/** Every cached response is an accepted upstream answer to the identical request, in every
    interleaved run; and a hit replays it. */
module CacheCoherence {
  import opened Prelude
  import opened GatewayState
  import opened Protocol
  import opened SessionFacts
  import opened Runs
  import opened KeyFraming
  import Breaker = CircuitBreaker
  import Cache = ResponseCache
  import Body = Completions
  import Text

  // An exchange whose answer may be cached: a complete success the probe accepts, or one too long for
  // the probe.
  ghost predicate Worthy(g: Setup, sent: Identity, x: Exchange) {
    && x.Answer? && 200 <= x.status < 300 && !x.broken && |x.body| <= g.cfg.cache.maxBodyBytes
    && (|x.body| > 8 * 1024 * 1024 || Body.Worthwhile(g.codec, x.body, sent.body))
  }

  // The whole answer: status, headers and body.
  ghost predicate Holds(value: Cache.Response, x: Exchange) {
    x.Answer? && value.status == x.status && value.header == x.header && value.body == x.body
  }

  // What was sent for request q to candidate c, and may be answered from the cache: caching is enabled, and
  // q is a non-streaming chat completion without tools, to an allowed kind of provider.
  ghost predicate Eligible(g: Setup, q: Request, c: Breaker.Candidate, sent: Identity) {
    && sent == SentFor(g, q, c, sent.body)
    && g.cfg.cache.enabled && !q.stream && q.path == "/v1/chat/completions"
    && AllowedKind(g, c.provider) && Body.WithoutTools(g.codec, sent.body)
  }

  // One of the kinds allowed, spaces and capitals aside, is the provider's.
  ghost predicate AllowedKind(g: Setup, provider: string) {
    var configured := if provider in g.cfg.providers then g.cfg.providers[provider].kind else "";
    var kind := if Text.TrimSpace(configured) == "" then "openai" else Text.Lower(Text.TrimSpace(configured));
    exists allowed :: allowed in g.cfg.cache.providerKinds && Text.Lower(Text.TrimSpace(allowed)) == kind
  }

  lemma CacheableIsEligible(g: Setup, q: Request, c: Breaker.Candidate, sent: Identity)
    requires sent == SentFor(g, q, c, sent.body)
    ensures Cacheable(g, q, c, sent.body) <==> Eligible(g, q, c, sent)
  {
    Body.CacheIsForRequestsWithoutTools(g.codec, sent.body);
    AllowedKindIs(g, c.provider);
  }

  lemma AllowedKindIs(g: Setup, provider: string)
    ensures CachesKind(g.cfg.cache, KindOf(g, provider)) <==> AllowedKind(g, provider)
  {
    var configured := if provider in g.cfg.providers then g.cfg.providers[provider].kind else "";
    LowerTwice(Text.TrimSpace(configured));
    LowerTwice("openai");
    assert Text.Lower("openai") == "openai";
  }

  lemma LowerTwice(s: string)
    ensures Text.Lower(Text.Lower(s)) == Text.Lower(s)
    ensures Text.Lower(s) == "" <==> s == ""
  {
  }

  // Event i stored this entry, and it holds what event j, of the same request, received from upstream.
  ghost predicate StoredAt(g: Setup, h: seq<Event>, i: nat, key: string, entry: Cache.Entry) {
    && i < |h| && h[i].action.Store? && h[i].action.stored
    && h[i].action.key == key && h[i].action.value == entry.value
    && h[i].action.ttl == g.cfg.cache.ttl
    && entry.expiresAt == h[i].action.now + h[i].action.ttl
  }

  ghost predicate ReceivedAt(g: Setup, h: seq<Event>, j: nat, who: nat, key: string, value: Cache.Response) {
    && j < |h| && h[j].who == who && h[j].action.Exchanged?
    && KeyFor(g, h[j].action.sent) == key
    && Worthy(g, h[j].action.sent, h[j].action.exchange)
    && Holds(value, h[j].action.exchange)
  }

  // The request behind it began at event b, and was sent to candidate c.
  ghost predicate SentAt(g: Setup, h: seq<Event>, j: nat, b: nat, c: Breaker.Candidate) {
    && j < |h| && h[j].action.Exchanged?
    && b < |h| && h[b].who == h[j].who && h[b].action.Begin?
    && Eligible(g, h[b].action.request, c, h[j].action.sent)
  }

  ghost predicate Source(g: Setup, h: seq<Event>, key: string, entry: Cache.Entry, i: nat, j: nat, b: nat,
                         c: Breaker.Candidate) {
    && j < i && StoredAt(g, h, i, key, entry) && ReceivedAt(g, h, j, h[i].who, key, entry.value)
    && SentAt(g, h, j, b, c)
  }

  ghost predicate HasSource(g: Setup, h: seq<Event>, key: string, entry: Cache.Entry) {
    exists i: nat, j: nat, b: nat, c: Breaker.Candidate :: Source(g, h, key, entry, i, j, b, c)
  }

  // ---- one request ----

  ghost predicate Vetted(g: Setup, s: Session) {
    && (InVisit(s.at) ==>
          && s.visit.sent == SentFor(g, s.request, s.visit.candidate, s.visit.sent.body)
          && PatchFor(g, s.request, s.visit.candidate) == Some(s.visit.sent.body))
    && (InVisit(s.at) ==> (s.visit.cacheable <==> Cacheable(g, s.request, s.visit.candidate, s.visit.sent.body)))
    && (s.at in {Pleased, Stored, Delivering} ==> s.exchange.Answer? && Judgement(g, s).Accepted?)
  }

  lemma AdvanceKeepsVetted(g: Setup, s: Session, a: Action)
    requires Vetted(g, s) && Advance(g, s, a).Some?
    ensures Vetted(g, Advance(g, s, a).value)
  {
    if !a.Enter? && !a.Praise? {
      VisitStays(g, s, a);
    }
  }

  lemma VisitStays(g: Setup, s: Session, a: Action)
    requires !a.Enter? && !a.Praise? && Advance(g, s, a).Some?
    ensures var t := Advance(g, s, a).value;
      && (InVisit(t.at) ==> InVisit(s.at) && t.visit == s.visit && t.request == s.request)
      && (t.at in {Pleased, Stored, Delivering} ==>
            s.at in {Pleased, Stored, Delivering} && t.exchange == s.exchange)
  {
  }

  // The event in which the request began.
  ghost predicate BegunAt(h: seq<Event>, r: nat, s: Session, b: nat) {
    b < |h| && h[b] == Event(r, Begin(s.request, s.start))
  }

  ghost predicate Begun(h: seq<Event>, r: nat, s: Session) {
    !s.at.Fresh? ==> exists b :: BegunAt(h, r, s, b)
  }

  lemma StepKeepsBegun(g: Setup, h: seq<Event>, r: nat, s: Session, a: Action)
    requires Begun(h, r, s) && Advance(g, s, a).Some?
    ensures Begun(h + [Event(r, a)], r, Advance(g, s, a).value)
  {
    var t, more := Advance(g, s, a).value, h + [Event(r, a)];
    if a.Begin? {
      assert BegunAt(more, r, t, |h|);
    } else {
      SameRequest(g, s, a);
      var b :| BegunAt(h, r, s, b);
      assert BegunAt(more, r, t, b);
    }
  }

  lemma SameRequest(g: Setup, s: Session, a: Action)
    requires Advance(g, s, a).Some? && !a.Begin?
    ensures !s.at.Fresh? && Advance(g, s, a).value.request == s.request && Advance(g, s, a).value.start == s.start
  {
  }

  predicate Hearing(p: Point) { p in {Answered, Noted, Cooled, Pleased, Stored, Delivering} }

  ghost predicate HeardAt(h: seq<Event>, r: nat, s: Session, j: nat) {
    j < |h| && h[j] == Event(r, Exchanged(s.visit.sent, s.key, s.exchange))
  }

  ghost predicate Heard(h: seq<Event>, r: nat, s: Session) {
    Hearing(s.at) ==> exists j :: HeardAt(h, r, s, j)
  }

  lemma StepKeepsHeard(g: Setup, h: seq<Event>, r: nat, s: Session, a: Action)
    requires Heard(h, r, s) && Advance(g, s, a).Some?
    ensures Heard(h + [Event(r, a)], r, Advance(g, s, a).value)
  {
    var t, more := Advance(g, s, a).value, h + [Event(r, a)];
    if a.Exchanged? {
      assert HeardAt(more, r, t, |h|);
    } else if Hearing(t.at) {
      var j :| HeardAt(h, r, s, j);
      assert HeardAt(more, r, t, j);
    }
  }

  lemma {:induction false} RequestsAreVetted(g: Setup, w: World, h: seq<Event>, r: nat)
    requires Opening(w) && r in w.sessions && Run(g, w, h).Some?
    ensures r in Run(g, w, h).value.sessions
    ensures Vetted(g, Run(g, w, h).value.sessions[r]) && Witnessed(h, r, Run(g, w, h).value.sessions[r])
  {
    if h != [] {
      var before, e, front := Run(g, w, h[..|h| - 1]).value, h[|h| - 1], h[..|h| - 1];
      RequestsAreVetted(g, w, front, r);
      assert h == front + [e];
      var s := before.sessions[r];
      if e.who == r {
        AdvanceKeepsVetted(g, s, e.action);
        StepKeepsHeard(g, front, r, s, e.action);
        StepKeepsBegun(g, front, r, s, e.action);
      } else {
        WitnessedStill(front, r, s, e);
      }
    }
  }

  // The events a request has behind it.
  ghost predicate Witnessed(h: seq<Event>, r: nat, s: Session) { Heard(h, r, s) && Begun(h, r, s) }

  lemma WitnessedStill(h: seq<Event>, r: nat, s: Session, e: Event)
    requires Witnessed(h, r, s)
    ensures Witnessed(h + [e], r, s)
  {
    if Hearing(s.at) {
      var j :| HeardAt(h, r, s, j);
      assert HeardAt(h + [e], r, s, j);
    }
    if !s.at.Fresh? {
      var b :| BegunAt(h, r, s, b);
      assert BegunAt(h + [e], r, s, b);
    }
  }

  // ---- the cache ----

  lemma SourceRemains(g: Setup, h: seq<Event>, e: Event, key: string, entry: Cache.Entry)
    requires HasSource(g, h, key, entry)
    ensures HasSource(g, h + [e], key, entry)
  {
    var i: nat, j: nat, b: nat, c: Breaker.Candidate :| Source(g, h, key, entry, i, j, b, c);
    assert Source(g, h + [e], key, entry, i, j, b, c);
  }

  lemma StoreHasSource(g: Setup, h: seq<Event>, r: nat, s: Session, a: Action)
    requires Vetted(g, s) && Witnessed(h, r, s) && a.Store? && a.stored && Advance(g, s, a).Some?
    ensures HasSource(g, h + [Event(r, a)], a.key, Cache.Fresh(a.value, a.now + a.ttl))
  {
    var more, entry := h + [Event(r, a)], Cache.Fresh(a.value, a.now + a.ttl);
    StoresTheAnswer(g, s, a);
    var j: nat :| HeardAt(h, r, s, j);
    var b: nat :| BegunAt(h, r, s, b);
    assert ReceivedAt(g, more, j, r, a.key, a.value);
    assert SentAt(g, more, j, b, s.visit.candidate);
    assert StoredAt(g, more, |h|, a.key, entry);
    assert Source(g, more, a.key, entry, |h|, j, b, s.visit.candidate);
  }

  lemma StoresTheAnswer(g: Setup, s: Session, a: Action)
    requires Vetted(g, s) && a.Store? && Advance(g, s, a).Some?
    ensures Hearing(s.at) && InVisit(s.at) && !s.at.Fresh?
    ensures a.key == KeyFor(g, s.visit.sent) && a.ttl == g.cfg.cache.ttl
    ensures Worthy(g, s.visit.sent, s.exchange) && Holds(a.value, s.exchange)
    ensures Eligible(g, s.request, s.visit.candidate, s.visit.sent)
  {
    CacheableIsEligible(g, s.request, s.visit.candidate, s.visit.sent);
    Body.JudgementIsRight(g.codec, s.exchange.body, s.visit.sent.body);
  }

  // An action keeps entries, drops entries, or stores one.
  lemma EntriesAfter(g: Setup, m: Shared, a: Action, key: string)
    requires Apply(g, m, a).Some? && key in Apply(g, m, a).value.cache
    ensures var entry := Apply(g, m, a).value.cache[key];
      || (key in m.cache && entry == m.cache[key])
      || (a.Store? && a.stored && a.key == key && entry == Cache.Fresh(a.value, a.now + a.ttl))
  {
    if a.Store? {
      StoredOrKept(g, m, a, key);
    } else {
      OnlyDropped(g, m, a, key);
    }
  }

  lemma StoredOrKept(g: Setup, m: Shared, a: Action, key: string)
    requires a.Store? && Apply(g, m, a).Some? && key in Apply(g, m, a).value.cache
    ensures var entry := Apply(g, m, a).value.cache[key];
      || (key in m.cache && entry == m.cache[key])
      || (a.stored && a.key == key && entry == Cache.Fresh(a.value, a.now + a.ttl))
  {
    if a.stored {
      Cache.AfterSetHas(m.cache, a.key, a.value, a.ttl, a.now, a.victims, key);
    }
  }

  lemma OnlyDropped(g: Setup, m: Shared, a: Action, key: string)
    requires !a.Store? && Apply(g, m, a).Some? && key in Apply(g, m, a).value.cache
    ensures key in m.cache && Apply(g, m, a).value.cache[key] == m.cache[key]
  {
    if !a.LookUp? && !a.Prune? {
      CacheUntouched(g, m, a);
    }
  }

  lemma CacheUntouched(g: Setup, m: Shared, a: Action)
    requires !a.Store? && !a.LookUp? && !a.Prune? && Apply(g, m, a).Some?
    ensures Apply(g, m, a).value.cache == m.cache
  {
  }

  lemma StepIsCoherent(g: Setup, h: seq<Event>, m: Shared, s: Session, r: nat, a: Action, key: string)
    requires Apply(g, m, a).Some? && Advance(g, s, a).Some? && key in Apply(g, m, a).value.cache
    requires Vetted(g, s) && Witnessed(h, r, s)
    requires key in m.cache ==> HasSource(g, h, key, m.cache[key])
    ensures HasSource(g, h + [Event(r, a)], key, Apply(g, m, a).value.cache[key])
  {
    EntriesAfter(g, m, a, key);
    var entry := Apply(g, m, a).value.cache[key];
    if key in m.cache && entry == m.cache[key] {
      SourceRemains(g, h, Event(r, a), key, entry);
    } else {
      StoreHasSource(g, h, r, s, a);
    }
  }

  /** In every reachable state each stored entry has a source: it holds, whole, the answer upstream gave
      to a request with exactly its key, accepted and cacheable, and expires one lifetime after it was
      stored. */
  lemma {:induction false} CacheIsCoherent(g: Setup, w: World, h: seq<Event>, key: string)
    requires Opening(w) && w.shared.cache == map[] && AllFollowed(w, h) && Run(g, w, h).Some?
    requires key in Run(g, w, h).value.shared.cache
    ensures HasSource(g, h, key, Run(g, w, h).value.shared.cache[key])
  {
    var front, e := h[..|h| - 1], h[|h| - 1];
    assert h == front + [e];
    var before, after := Run(g, w, front).value, Run(g, w, h).value;
    if key in before.shared.cache {
      CacheIsCoherent(g, w, front, key);
    }
    LastStepIsCoherent(g, w, front, e, before, after, key);
  }

  lemma LastStepIsCoherent(g: Setup, w: World, h: seq<Event>, e: Event, before: World, after: World, key: string)
    requires Opening(w) && e.who in w.sessions
    requires Run(g, w, h) == Some(before) && Step(g, before, e) == Some(after)
    requires key in before.shared.cache ==> HasSource(g, h, key, before.shared.cache[key])
    requires key in after.shared.cache
    ensures HasSource(g, h + [e], key, after.shared.cache[key])
  {
    RequestsAreVetted(g, w, h, e.who);
    StepIsCoherent(g, h, before.shared, before.sessions[e.who], e.who, e.action, key);
  }

  // ---- hits ----

  // Two different preimages with one digest.
  ghost predicate Collide(g: Setup, a: Identity, b: Identity) {
    Preimage(Parts(a)) != Preimage(Parts(b)) && KeyFor(g, a) == KeyFor(g, b)
  }

  // Event j brought this answer from upstream, to a request begun at event b and sent to candidate c that may
  // be answered from the cache; event i stored it less than a lifetime before `now`; and it answers the
  // request `id`, unless two preimages share a digest.
  ghost predicate Replays(g: Setup, h: seq<Event>, id: Identity, value: Cache.Response, now: Time, i: nat, j: nat,
                          b: nat, c: Breaker.Candidate) {
    && j < i < |h| && h[j].who == h[i].who
    && h[i].action.Store? && now < h[i].action.now + g.cfg.cache.ttl
    && SentAt(g, h, j, b, c) && Worthy(g, h[j].action.sent, h[j].action.exchange)
    && Holds(value, h[j].action.exchange)
    && (h[j].action.sent == id || Collide(g, h[j].action.sent, id))
  }

  ghost predicate Replayed(g: Setup, h: seq<Event>, id: Identity, value: Cache.Response, now: Time) {
    exists i: nat, j: nat, b: nat, c: Breaker.Candidate :: Replays(g, h, id, value, now, i, j, b, c)
  }

  lemma SameParts(a: Identity, b: Identity)
    requires Parts(a) == Parts(b)
    ensures a == b
  {
    assert a.provider == Parts(a)[0] && a.model == Parts(a)[1] && a.verb == Parts(a)[2]
      && a.path == Parts(a)[3] && a.query == Parts(a)[4] && a.body == Parts(a)[5];
  }

  lemma SameOrCollide(g: Setup, a: Identity, b: Identity)
    requires Short(Parts(a)) && Short(Parts(b)) && KeyFor(g, a) == KeyFor(g, b)
    ensures a == b || Collide(g, a, b)
  {
    if Preimage(Parts(a)) == Preimage(Parts(b)) {
      FramingIsInjective(Parts(a), Parts(b));
      SameParts(a, b);
    }
  }

  ghost predicate ShortRequests(h: seq<Event>) {
    forall j :: 0 <= j < |h| && h[j].action.Exchanged? ==> Short(Parts(h[j].action.sent))
  }

  lemma SourceIsReplayed(g: Setup, h: seq<Event>, id: Identity, entry: Cache.Entry, now: Time)
    requires HasSource(g, h, KeyFor(g, id), entry) && Cache.Live(entry, now)
    requires Short(Parts(id)) && ShortRequests(h)
    ensures Replayed(g, h, id, entry.value, now)
  {
    var i: nat, j: nat, b: nat, c: Breaker.Candidate :| Source(g, h, KeyFor(g, id), entry, i, j, b, c);
    SameOrCollide(g, h[j].action.sent, id);
    assert Replays(g, h, id, entry.value, now, i, j, b, c);
  }

  /** A hit is the whole answer upstream gave, less than one lifetime before, to the identical request:
      same provider, model, method, path, query and patched body. The only other possibility is two
      preimages with the same digest. */
  lemma HitReplaysTheSameRequest(g: Setup, w: World, h: seq<Event>, id: Identity, now: Time, value: Cache.Response)
    requires Opening(w) && w.shared.cache == map[] && AllFollowed(w, h) && Run(g, w, h).Some?
    requires Cache.Hit(Run(g, w, h).value.shared.cache, KeyFor(g, id), now) == Some(value)
    requires Short(Parts(id)) && ShortRequests(h)
    ensures Replayed(g, h, id, value, now)
  {
    CacheIsCoherent(g, w, h, KeyFor(g, id));
    SourceIsReplayed(g, h, id, Run(g, w, h).value.shared.cache[KeyFor(g, id)], now);
  }

  // ---- what the storing client got ----

  // On its way to deliver this response, or done delivering it.
  ghost predicate Delivers(s: Session, value: Cache.Response) {
    || (s.at in {Stored, Delivering} && s.exchange.Answer? && Received(s.exchange) == value)
    || (s.at.Done? && s.result.Reply? && s.result.response == value)
  }

  lemma AdvanceKeepsDelivering(g: Setup, s: Session, a: Action, value: Cache.Response)
    requires Advance(g, s, a).Some?
    ensures a.Store? ==> Delivers(Advance(g, s, a).value, a.value)
    ensures Delivers(s, value) ==> Delivers(Advance(g, s, a).value, value)
  {
  }

  lemma {:induction false} StorerDelivers(g: Setup, w: World, h: seq<Event>, i: nat)
    requires Opening(w) && AllFollowed(w, h) && Run(g, w, h).Some?
    requires i < |h| && h[i].action.Store?
    ensures h[i].who in Run(g, w, h).value.sessions
    ensures Delivers(Run(g, w, h).value.sessions[h[i].who], h[i].action.value)
  {
    var front, e := h[..|h| - 1], h[|h| - 1];
    SameRequests(g, w, front);
    AdvanceKeepsDelivering(g, Run(g, w, front).value.sessions[e.who], e.action, h[i].action.value);
    if i < |h| - 1 {
      assert front[i] == h[i];
      StorerDelivers(g, w, front, i);
    }
  }

  /** What was stored is byte for byte what the request that stored it delivered to its own client. */
  lemma StoredIsDelivered(g: Setup, w: World, h: seq<Event>, i: nat)
    requires Opening(w) && AllFollowed(w, h) && Run(g, w, h).Some?
    requires i < |h| && h[i].action.Store?
    ensures h[i].who in Run(g, w, h).value.sessions
    ensures var s := Run(g, w, h).value.sessions[h[i].who];
      s.at.Done? ==> s.result.Reply? && s.result.response == h[i].action.value
  {
    StorerDelivers(g, w, h, i);
  }
}
