/** README.md says request_timeout is the total budget of a request. Each attempt's timeout is settled
    once per candidate, before its keys are tried, so the promise holds only of some routes: exactly of
    those that fit. */
module BudgetPromise {
  import opened Prelude
  import opened GatewayState
  import opened SessionFacts
  import opened Runs
  import opened KeySafety
  import opened Spending
  import opened OverrunRuns
  import Pool = CredentialPool
  import Breaker = CircuitBreaker

  /** However upstream answers, and whatever others do: every non-streaming request routed among these
      candidates, and never held up, is within its budget at every point of its run. */
  ghost predicate KeepsBudget(g: Setup, w: World, r: nat, candidates: seq<Breaker.Candidate>) {
    forall h :: RunsWithin(g, w, r, candidates, h)
  }

  ghost predicate RunsWithin(g: Setup, w: World, r: nat, candidates: seq<Breaker.Candidate>, h: seq<Event>) {
    Run(g, w, h).Some? && r in Run(g, w, h).value.sessions ==>
      var s := Run(g, w, h).value.sessions[r];
      s.candidates == candidates && candidates != [] && !s.request.stream && s.overhead == 0 ==> s.clock <= s.deadline
  }

  /** A route that fits keeps the budget, whatever its pools have been through. */
  lemma RoutesThatFitKeepTheBudget(g: Setup, w: World, r: nat, candidates: seq<Breaker.Candidate>)
    requires g.cfg.requestTimeout > 0 && Opening(w) && r in w.sessions
    requires Fits(g, w.shared.pools, candidates)
    ensures KeepsBudget(g, w, r, candidates)
  {
    forall h ensures RunsWithin(g, w, r, candidates, h) {
      if Run(g, w, h).Some? {
        RequestsAreFrugal(g, w, h, r);
        RequestsAreSound(g, w, h, r);
        RunsRestrict(g, w, h);
        FitsStays(g, w.shared.pools, Run(g, w, h).value.shared.pools, candidates);
      }
    }
  }

  // A runtime whose keys are all usable and whose cache is empty, and the request it is about to route.
  ghost predicate Ready(g: Setup, w: World, r: nat, q: Request, candidates: seq<Breaker.Candidate>, start: Time) {
    && g.cfg.requestTimeout > 0 && Opening(w) && r in w.sessions && w.shared.cache == map[]
    && candidates == Found(g, w.shared.health, q.model, start) && Routable(g, w, q, candidates)
    && (forall p :: p in w.shared.pools ==> UsableBut(w.shared.pools[p], start, {}))
  }

  /** A request that comes to a pool of K keys can spend K whole attempt timeouts on it, without being
      held up at all. */
  lemma EveryKeyCanTakeItsTimeout(g: Setup, w: World, r: nat, q: Request, candidates: seq<Breaker.Candidate>,
                                  start: Time, ci: nat)
    returns (h: seq<Event>)
    requires Ready(g, w, r, q, candidates, start) && ci < |candidates|
    ensures Running(g, w, h, r)
    ensures Routed(g, Now(g, w, h, r), q, candidates, start,
      start + PoolSize(w.shared.pools, candidates[ci].provider) * Whole(g, candidates[ci]))
  {
    h := ReachAtOnce(g, w, r, q, candidates, start, ci);
    h := UseEveryKey(g, w, h, r, q, candidates, start, start, ci, w.shared.pools.Keys);
  }

  // No candidate's attempt timeout is shorter than the request's.
  ghost predicate NoShortTimeouts(g: Setup, candidates: seq<Breaker.Candidate>) {
    forall i :: 0 <= i < |candidates| ==> Whole(g, candidates[i]) == g.cfg.requestTimeout
  }

  // A share of what is left is more than is left.
  lemma ShareOverruns(k: nat, whole: nat, spent: nat, budget: nat)
    requires 0 < whole <= budget && k > 1 && spent + k * whole > budget
    ensures var now := Min(spent, budget - 1); now + k * Min(whole, budget - now) > budget
  {
    var now := Min(spent, budget - 1);
    TimesMore(2, k, Min(whole, budget - now));
  }

  // Candidate i's keys alone can outlast the budget.
  ghost predicate Overlong(g: Setup, pools: map<string, Pool.State>, candidates: seq<Breaker.Candidate>, i: nat)
    requires i < |candidates|
  {
    var k := PoolSize(pools, candidates[i].provider);
    k > 1 && k * Whole(g, candidates[i]) > g.cfg.requestTimeout
  }

  /** No candidate with several keys, whose attempts fit the budget together but each end before a key's
      cooldown does, is followed by another candidate of its provider. */
  ghost predicate KeysRecover(g: Setup, pools: map<string, Pool.State>, candidates: seq<Breaker.Candidate>) {
    forall i :: 0 <= i < |candidates| ==> Spared(g, pools, candidates, i) || Overlong(g, pools, candidates, i)
  }

  // Candidate i has several keys and, come to as late as is sure, outlasts the budget with them.
  ghost predicate Overshoots(g: Setup, pools: map<string, Pool.State>, candidates: seq<Breaker.Candidate>, i: nat)
    requires i < |candidates| && g.cfg.requestTimeout > 0
  {
    var k := PoolSize(pools, candidates[i].provider);
    k > 1 && Sure(g, pools, candidates, i) + k * Whole(g, candidates[i]) > g.cfg.requestTimeout
  }

  lemma LateOverrun(g: Setup, w: World, r: nat, q: Request, candidates: seq<Breaker.Candidate>, start: Time, i: nat)
    returns (h: seq<Event>)
    requires Ready(g, w, r, q, candidates, start) && !q.stream
    requires i < |candidates| && Overshoots(g, w.shared.pools, candidates, i)
    ensures Overrun(g, w, r, q, candidates, start, h)
  {
    var now := TooLate(g, w, candidates, i);
    h := ReachLate(g, w, r, q, candidates, start, i);
    assert candidates[i].provider in ProvidersFrom(candidates, i);
    h := UseEveryKey(g, w, h, r, q, candidates, start, start + now, i, ProvidersFrom(candidates, i));
  }

  // Candidate i, come to as late as is sure, has keys enough to overrun.
  lemma TooLate(g: Setup, w: World, candidates: seq<Breaker.Candidate>, i: nat) returns (now: nat)
    requires g.cfg.requestTimeout > 0 && i < |candidates| && Overshoots(g, w.shared.pools, candidates, i)
    ensures now == Latest(g, w, candidates, i) < g.cfg.requestTimeout
    ensures now + PoolSize(w.shared.pools, candidates[i].provider)
                  * Min(Whole(g, candidates[i]), g.cfg.requestTimeout - now) > g.cfg.requestTimeout
  {
    var c, budget := candidates[i], g.cfg.requestTimeout;
    now := Latest(g, w, candidates, i);
    ShareOverruns(PoolSize(w.shared.pools, c.provider), Whole(g, c), Sure(g, w.shared.pools, candidates, i), budget);
  }

  // A run of the request, alone and never held up, that is past its deadline.
  ghost predicate Overrun(g: Setup, w: World, r: nat, q: Request, candidates: seq<Breaker.Candidate>, start: Time,
                          h: seq<Event>) {
    && Running(g, w, h, r) && candidates != []
    && Routed(g, Now(g, w, h, r), q, candidates, start, Now(g, w, h, r).clock)
    && Now(g, w, h, r).clock > Now(g, w, h, r).deadline
  }

  /** Whether or not its keys recover, a route on which a candidate overshoots breaks the budget. */
  lemma RoutesThatOvershootBreakTheBudget(g: Setup, w: World, r: nat, q: Request, candidates: seq<Breaker.Candidate>,
                                          start: Time, i: nat)
    requires Ready(g, w, r, q, candidates, start) && !q.stream
    requires i < |candidates| && Overshoots(g, w.shared.pools, candidates, i)
    ensures !KeepsBudget(g, w, r, candidates)
  {
    var h := LateOverrun(g, w, r, q, candidates, start, i);
    assert !RunsWithin(g, w, r, candidates, h);
  }

  lemma {:induction false} AllSure(g: Setup, pools: map<string, Pool.State>, candidates: seq<Breaker.Candidate>, n: nat)
    requires n <= |candidates| && g.cfg.requestTimeout > 0
    requires forall i :: 0 <= i < n ==> Spared(g, pools, candidates, i)
    ensures Sure(g, pools, candidates, n) == Spend(g, pools, candidates, n)
  {
    if n > 0 {
      AllSure(g, pools, candidates, n - 1);
    }
  }

  // When keys recover, a route that does not fit overshoots.
  lemma MisfitsOvershoot(g: Setup, pools: map<string, Pool.State>, candidates: seq<Breaker.Candidate>) returns (i: nat)
    requires g.cfg.requestTimeout > 0 && KeysRecover(g, pools, candidates) && !Fits(g, pools, candidates)
    ensures i < |candidates| && Overshoots(g, pools, candidates, i)
  {
    if k :| 0 <= k < |candidates| && Overlong(g, pools, candidates, k) {
      i := k;
    } else {
      i :| 0 <= i < |candidates| && !FitsAt(g, pools, candidates, i);
      AllSure(g, pools, candidates, i);
    }
  }

  /** The budget is kept, whatever upstream and the other requests do, if and only if the route fits: for
      every route whose keys recover, as they do when it has no provider twice, or no second key, or no
      attempt timeout under ten seconds. */
  lemma BudgetIsKeptIffRouteFits(g: Setup, w: World, r: nat, q: Request, candidates: seq<Breaker.Candidate>,
                                 start: Time)
    requires Ready(g, w, r, q, candidates, start) && !q.stream && KeysRecover(g, w.shared.pools, candidates)
    ensures KeepsBudget(g, w, r, candidates) <==> Fits(g, w.shared.pools, candidates)
  {
    if Fits(g, w.shared.pools, candidates) {
      RoutesThatFitKeepTheBudget(g, w, r, candidates);
    } else {
      var i := MisfitsOvershoot(g, w.shared.pools, candidates);
      RoutesThatOvershootBreakTheBudget(g, w, r, q, candidates, start, i);
    }
  }

  ghost predicate PoolsWithin(pools: map<string, Pool.State>, candidates: seq<Breaker.Candidate>, most: nat) {
    forall i :: 0 <= i < |candidates| ==> PoolSize(pools, candidates[i].provider) <= most
  }

  /** Without short attempt timeouts that is: if and only if no candidate's pool holds a second key. */
  lemma BudgetIsKeptIffOneKey(g: Setup, w: World, r: nat, q: Request, candidates: seq<Breaker.Candidate>, start: Time)
    requires Ready(g, w, r, q, candidates, start) && !q.stream && NoShortTimeouts(g, candidates)
    ensures KeepsBudget(g, w, r, candidates) <==> PoolsWithin(w.shared.pools, candidates, 1)
  {
    forall i | 0 <= i < |candidates|
      ensures FitsAt(g, w.shared.pools, candidates, i) <==> PoolSize(w.shared.pools, candidates[i].provider) <= 1
      ensures Spared(g, w.shared.pools, candidates, i) || Overlong(g, w.shared.pools, candidates, i)
    {
      if PoolSize(w.shared.pools, candidates[i].provider) > 1 {
        TimesMore(2, PoolSize(w.shared.pools, candidates[i].provider), g.cfg.requestTimeout);
      }
    }
    BudgetIsKeptIffRouteFits(g, w, r, q, candidates, start);
  }
}
