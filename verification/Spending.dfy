/** What a request can spend on its candidates: an upper bound that takes each visit at its worst. */
module Spending {
  import opened Prelude
  import opened Config
  import opened GatewayState
  import opened Protocol
  import opened SessionFacts
  import opened Runs
  import opened KeySafety
  import Pool = CredentialPool
  import Breaker = CircuitBreaker

  // The longest one attempt on candidate c can take.
  function Whole(g: Setup, c: Breaker.Candidate): Duration {
    EffectiveTimeout(ModelNamed(g.cfg, c.alias).attemptTimeout, g.cfg.requestTimeout)
  }

  // The first n candidates' keys, each taking its whole timeout.
  function Spend(g: Setup, pools: map<string, Pool.State>, candidates: seq<Breaker.Candidate>, n: nat): (r: nat)
    requires n <= |candidates| && g.cfg.requestTimeout > 0
  {
    if n == 0 then 0
    else Spend(g, pools, candidates, n - 1) + PoolSize(pools, candidates[n - 1].provider) * Whole(g, candidates[n - 1])
  }

  /** No candidate with two keys or more comes so late, or has keys so slow, that its last key ends
      past the budget. */
  ghost predicate Fits(g: Setup, pools: map<string, Pool.State>, candidates: seq<Breaker.Candidate>)
    requires g.cfg.requestTimeout > 0
  {
    forall i :: 0 <= i < |candidates| ==> FitsAt(g, pools, candidates, i)
  }

  ghost predicate FitsAt(g: Setup, pools: map<string, Pool.State>, candidates: seq<Breaker.Candidate>, i: nat)
    requires g.cfg.requestTimeout > 0 && i < |candidates|
  {
    PoolSize(pools, candidates[i].provider) <= 1 || Spend(g, pools, candidates, i + 1) <= g.cfg.requestTimeout
  }

  lemma {:induction false} SpendStays(g: Setup, p: map<string, Pool.State>, q: map<string, Pool.State>,
                                      candidates: seq<Breaker.Candidate>, n: nat)
    requires n <= |candidates| && g.cfg.requestTimeout > 0 && Restricts(p, q)
    ensures Spend(g, p, candidates, n) == Spend(g, q, candidates, n)
  {
    if n > 0 {
      SpendStays(g, p, q, candidates, n - 1);
    }
  }

  lemma FitsStays(g: Setup, p: map<string, Pool.State>, q: map<string, Pool.State>, candidates: seq<Breaker.Candidate>)
    requires g.cfg.requestTimeout > 0 && Restricts(p, q)
    ensures Fits(g, p, candidates) <==> Fits(g, q, candidates)
  {
    forall i | 0 <= i < |candidates| ensures FitsAt(g, p, candidates, i) <==> FitsAt(g, q, candidates, i) {
      SpendStays(g, p, q, candidates, i + 1);
    }
  }

  // The visit under way is to the candidate just come to, begun within what the ones before could spend.
  ghost predicate Visiting(g: Setup, pools: map<string, Pool.State>, s: Session)
    requires g.cfg.requestTimeout > 0
  {
    && 0 < s.ci <= |s.candidates| && s.visit.candidate == s.candidates[s.ci - 1]
    && s.visit.limit == PoolSize(pools, s.visit.candidate.provider)
    && s.visit.timeout <= Whole(g, s.visit.candidate)
    && s.entered <= s.start + s.enteredOverhead + Spend(g, pools, s.candidates, s.ci - 1)
  }

  // At any point the clock is within what the candidates so far can spend; and within the deadline
  // when the route fits.
  ghost predicate WithinSpend(g: Setup, pools: map<string, Pool.State>, s: Session)
    requires g.cfg.requestTimeout > 0
  {
    && s.ci <= |s.candidates|
    && s.clock <= s.start + s.overhead + Spend(g, pools, s.candidates, s.ci)
    && (!s.at.Fresh? && Fits(g, pools, s.candidates) ==> s.clock <= s.deadline + s.overhead)
  }

  ghost predicate Frugal(g: Setup, pools: map<string, Pool.State>, s: Session)
    requires g.cfg.requestTimeout > 0
  {
    && (s.at in {Fresh, Started} ==> s.ci == 0)
    && (InVisit(s.at) ==> Visiting(g, pools, s))
    && WithinSpend(g, pools, s)
  }

  lemma VisitWithinSpend(g: Setup, pools: map<string, Pool.State>, s: Session)
    requires g.cfg.requestTimeout > 0 && Visiting(g, pools, s) && WithinVisit(s) && s.calls <= s.visit.limit
    requires s.deadline == s.start + g.cfg.requestTimeout
    ensures WithinSpend(g, pools, s)
  {
    TimesMore(s.calls, s.visit.limit, s.visit.timeout);
    TimesMore(s.visit.timeout, Whole(g, s.visit.candidate), s.visit.limit);
    if s.visit.limit <= 1 {
      TimesMore(s.calls, 1, s.visit.timeout);
    } else if Fits(g, pools, s.candidates) {
      assert FitsAt(g, pools, s.candidates, s.ci - 1);
    }
  }

  lemma EnterKeepsFrugal(g: Setup, m: Shared, s: Session, a: Action)
    requires g.cfg.requestTimeout > 0 && a.Enter? && Apply(g, m, a).Some? && Advance(g, s, a).Some?
    requires Frugal(g, m.pools, s) && OnTime(g, s)
    ensures Frugal(g, m.pools, Advance(g, s, a).value)
  {
    TimesMore(0, a.visit.limit, Whole(g, a.visit.candidate));
  }

  lemma SkipKeepsFrugal(g: Setup, m: Shared, s: Session, a: Action)
    requires g.cfg.requestTimeout > 0 && a.Skip? && Advance(g, s, a).Some?
    requires Frugal(g, m.pools, s)
    ensures Frugal(g, m.pools, Advance(g, s, a).value)
  {
    TimesMore(0, PoolSize(m.pools, s.candidates[s.ci].provider), Whole(g, s.candidates[s.ci]));
  }

  lemma OpeningKeepsFrugal(g: Setup, m: Shared, s: Session, a: Action)
    requires g.cfg.requestTimeout > 0 && (a.Begin? || a.Select?) && Advance(g, s, a).Some?
    requires Frugal(g, m.pools, s) && OnTime(g, s) && (s.at.Fresh? ==> s == FRESH)
    ensures Frugal(g, m.pools, Advance(g, s, a).value)
  {
  }

  // Any other step leaves the place in the route, and the clock but for waiting and attempts.
  lemma OtherwiseInPlace(g: Setup, s: Session, a: Action)
    requires !a.Begin? && !a.Select? && !a.Enter? && !a.Skip? && Advance(g, s, a).Some?
    ensures var t := Advance(g, s, a).value;
      && t.candidates == s.candidates && t.ci == s.ci && t.start == s.start && t.deadline == s.deadline
      && t.visit == s.visit && t.entered == s.entered && t.enteredOverhead == s.enteredOverhead
      && !s.at.Fresh? && !t.at.Fresh? && !t.at.Started? == !s.at.Started?
      && (InVisit(t.at) ==> InVisit(s.at)) && (a.Exchanged? ==> InVisit(t.at))
      && (!a.Exchanged? ==> t.clock - t.overhead == s.clock - s.overhead)
  {
  }

  lemma AdvanceKeepsFrugal(g: Setup, m: Shared, s: Session, a: Action)
    requires g.cfg.requestTimeout > 0 && Apply(g, m, a).Some? && Advance(g, s, a).Some?
    requires Frugal(g, m.pools, s) && Sound(g, s) && !Advance(g, s, a).value.request.stream
    ensures Frugal(g, m.pools, Advance(g, s, a).value)
  {
    AdvanceKeepsSound(g, s, a);
    if a.Begin? || a.Select? {
      OpeningKeepsFrugal(g, m, s, a);
    } else if a.Enter? {
      EnterKeepsFrugal(g, m, s, a);
    } else if a.Skip? {
      SkipKeepsFrugal(g, m, s, a);
    } else {
      OtherwiseFrugal(g, m, s, a);
    }
  }

  lemma OtherwiseFrugal(g: Setup, m: Shared, s: Session, a: Action)
    requires g.cfg.requestTimeout > 0 && !a.Begin? && !a.Select? && !a.Enter? && !a.Skip? && Advance(g, s, a).Some?
    requires Frugal(g, m.pools, s) && Sound(g, Advance(g, s, a).value) && !Advance(g, s, a).value.request.stream
    ensures Frugal(g, m.pools, Advance(g, s, a).value)
  {
    OtherwiseInPlace(g, s, a);
    if a.Exchanged? {
      VisitWithinSpend(g, m.pools, Advance(g, s, a).value);
    }
  }

  lemma FrugalStays(g: Setup, p: map<string, Pool.State>, q: map<string, Pool.State>, s: Session)
    requires g.cfg.requestTimeout > 0 && Frugal(g, p, s) && Restricts(p, q)
    ensures Frugal(g, q, s)
  {
    SpendStays(g, p, q, s.candidates, s.ci);
    FitsStays(g, p, q, s.candidates);
    if InVisit(s.at) {
      SpendStays(g, p, q, s.candidates, s.ci - 1);
    }
  }

  /** In every interleaving a non-streaming request spends at most the whole timeouts of the keys of
      the candidates it has come to, and keeps to its deadline if its route fits, held-up time aside. */
  lemma {:induction false} RequestsAreFrugal(g: Setup, w: World, h: seq<Event>, r: nat)
    requires g.cfg.requestTimeout > 0 && Opening(w) && r in w.sessions && Run(g, w, h).Some?
    ensures r in Run(g, w, h).value.sessions
    ensures var v := Run(g, w, h).value; !v.sessions[r].request.stream ==> Frugal(g, v.shared.pools, v.sessions[r])
  {
    if h != [] {
      var before, after, e := Run(g, w, h[..|h| - 1]).value, Run(g, w, h).value, h[|h| - 1];
      SameRequests(g, w, h[..|h| - 1]);
      RequestsAreFrugal(g, w, h[..|h| - 1], r);
      RequestsAreSound(g, w, h[..|h| - 1], r);
      if !after.sessions[r].request.stream {
        OneStepIsFrugal(g, before, after, e, r);
      }
    }
  }

  lemma OneStepIsFrugal(g: Setup, before: World, after: World, e: Event, r: nat)
    requires g.cfg.requestTimeout > 0 && Step(g, before, e) == Some(after) && r in before.sessions
    requires Sound(g, before.sessions[r]) && !after.sessions[r].request.stream
    requires !before.sessions[r].request.stream ==> Frugal(g, before.shared.pools, before.sessions[r])
    ensures Frugal(g, after.shared.pools, after.sessions[r])
  {
    ActionsRestrict(g, before.shared, e.action);
    if e.who == r {
      RequestStays(g, before.sessions[r], e.action);
      AdvanceKeepsFrugal(g, before.shared, before.sessions[r], e.action);
    }
    FrugalStays(g, before.shared.pools, after.shared.pools, after.sessions[r]);
  }

  lemma RequestStays(g: Setup, s: Session, a: Action)
    requires Advance(g, s, a).Some? && Sound(g, s)
    ensures !Advance(g, s, a).value.request.stream ==> !s.request.stream
  {
  }
}
