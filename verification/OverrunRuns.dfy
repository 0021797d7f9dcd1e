/** Runs in which upstream takes its time: how a request can be made to overrun. */
module OverrunRuns {
  import opened Prelude
  import opened Config
  import opened GatewayState
  import opened Protocol
  import opened SessionFacts
  import opened Runs
  import opened KeySafety
  import opened Spending
  import Pool = CredentialPool
  import Breaker = CircuitBreaker

  // A server error whose body trickles in for this long.
  function Trickle(took: nat): Exchange { Answer(took, 500, map[], [], false, 0) }

  // A capacity error that takes this long.
  function Busy(took: nat): Exchange { Answer(took, 503, map[], [], false, 0) }

  // An error status, and nothing broken.
  predicate Declined(x: Exchange) { x.Answer? && !Successful(x.status) && !x.broken }

  // What the runs below are made of: no waiting, no stores, and upstream always declines.
  predicate Plain(a: Action) { !a.Wait? && !a.Store? && (a.Exchanged? ==> Declined(a.exchange)) }

  ghost predicate Alone(h: seq<Event>, r: nat) {
    h == [] || (Alone(h[..|h| - 1], r) && h[|h| - 1].who == r && Plain(h[|h| - 1].action))
  }

  lemma Extend(g: Setup, w: World, h: seq<Event>, r: nat, a: Action) returns (more: seq<Event>)
    requires Running(g, w, h, r) && Plain(a)
    requires Apply(g, SharedNow(g, w, h), a).Some? && Advance(g, Now(g, w, h, r), a).Some?
    ensures more == h + [Event(r, a)] && Running(g, w, more, r)
    ensures SharedNow(g, w, more) == Apply(g, SharedNow(g, w, h), a).value
    ensures Now(g, w, more, r) == Advance(g, Now(g, w, h, r), a).value
  {
    more := h + [Event(r, a)];
    assert more[..|h|] == h;
  }

  // Request r after the run h, and the pools it finds.
  ghost function Now(g: Setup, w: World, h: seq<Event>, r: nat): Session
    requires Run(g, w, h).Some? && r in Run(g, w, h).value.sessions
  {
    Run(g, w, h).value.sessions[r]
  }

  ghost function SharedNow(g: Setup, w: World, h: seq<Event>): Shared
    requires Run(g, w, h).Some?
  {
    Run(g, w, h).value.shared
  }

  ghost predicate Running(g: Setup, w: World, h: seq<Event>, r: nat) {
    Run(g, w, h).Some? && r in Run(g, w, h).value.sessions && Alone(h, r)
  }

  // The same pools and the same cache.
  ghost predicate Quietly(m: Shared, n: Shared) { n.pools == m.pools && n.cache == m.cache }

  // The same but for key k of pool p, cooled.
  ghost predicate CoolsOne(m: Shared, n: Shared, p: string, k: nat, until: Time) {
    p in m.pools && n.pools == m.pools[p := Pool.Cooled(m.pools[p], k, until)] && n.cache == m.cache
  }

  ghost predicate SomeUsable(p: Pool.State, now: Time) {
    exists k :: 0 <= k < |p.keys| && Pool.Usable(p.keys[k], now)
  }

  lemma DrawSucceeds(p: Pool.State, now: Time) returns (k: nat)
    requires SomeUsable(p, now)
    ensures Pool.Drawn(p, now) == Some(k) && k < |p.keys|
  {
    var j :| 0 <= j < |p.keys| && Pool.Usable(p.keys[j], now);
    var u := Pool.Usability(p.keys, now);
    Pool.NearestIsNearest(u, Residue(p.cursor, |u|), 0, j);
    k := Pool.Drawn(p, now).value;
  }

  lemma DrawAKey(g: Setup, w: World, h: seq<Event>, r: nat) returns (more: seq<Event>, k: nat)
    requires Running(g, w, h, r)
    requires var s, m := Now(g, w, h, r), SharedNow(g, w, h); var p := s.visit.candidate.provider;
      s.at.Trying? && s.draws < s.visit.limit && p in m.pools && SomeUsable(m.pools[p], s.clock)
    ensures Running(g, w, more, r)
    ensures var s, m := Now(g, w, h, r), SharedNow(g, w, h); var p := s.visit.candidate.provider;
      && k < |m.pools[p].keys|
      && Now(g, w, more, r) == s.(at := Drawn, key := k, draws := s.draws + 1)
      && SharedNow(g, w, more) == OnPool(m, p, Pool.AfterDraw(m.pools[p]))
  {
    var s, m := Now(g, w, h, r), SharedNow(g, w, h);
    var p := s.visit.candidate.provider;
    k := DrawSucceeds(m.pools[p], s.clock);
    more := Extend(g, w, h, r, Draw(p, s.clock, Some(k)));
  }

  lemma GetAnswer(g: Setup, w: World, h: seq<Event>, r: nat, x: Exchange) returns (more: seq<Event>)
    requires Running(g, w, h, r) && Declined(x)
    requires Now(g, w, h, r).at.Drawn? && InTime(Now(g, w, h, r), x)
    ensures Running(g, w, more, r)
    ensures var s, t := Now(g, w, h, r), Now(g, w, more, r);
      t == s.(at := Answered, exchange := x, calls := s.calls + 1, clock := s.clock + x.took, open := true,
             ledger := t.ledger)
    ensures Quietly(SharedNow(g, w, h), SharedNow(g, w, more))
  {
    var s := Now(g, w, h, r);
    more := Extend(g, w, h, r, CountAttempt);
    more := Extend(g, w, more, r, Exchanged(s.visit.sent, s.key, x));
  }

  lemma RecordError(g: Setup, w: World, h: seq<Event>, r: nat) returns (more: seq<Event>)
    requires Running(g, w, h, r)
    requires var s := Now(g, w, h, r); s.at.Answered? && s.open && Judgement(g, s).Rejected?
    ensures Running(g, w, more, r)
    ensures var s, t := Now(g, w, h, r), Now(g, w, more, r);
      t == s.(at := Noted, open := false, ledger := t.ledger)
    ensures Quietly(SharedNow(g, w, h), SharedNow(g, w, more))
  {
    more := CloseNow(g, w, h, r);
    more := RecordNow(g, w, more, r);
  }

  lemma CloseNow(g: Setup, w: World, h: seq<Event>, r: nat) returns (more: seq<Event>)
    requires Running(g, w, h, r)
    requires var s := Now(g, w, h, r); s.at.Answered? && s.open && Judgement(g, s).Rejected?
    ensures Running(g, w, more, r) && SharedNow(g, w, more) == SharedNow(g, w, h)
    ensures Now(g, w, more, r) == Now(g, w, h, r).(open := false)
  {
    more := Extend(g, w, h, r, Close);
  }

  lemma RecordNow(g: Setup, w: World, h: seq<Event>, r: nat) returns (more: seq<Event>)
    requires Running(g, w, h, r)
    requires var s := Now(g, w, h, r); s.at.Answered? && !s.open && Judgement(g, s).Rejected?
    ensures Running(g, w, more, r)
    ensures var s, t := Now(g, w, h, r), Now(g, w, more, r); t == s.(at := Noted, ledger := t.ledger)
    ensures Quietly(SharedNow(g, w, h), SharedNow(g, w, more))
  {
    var s := Now(g, w, h, r);
    var (status, success, timeout, reason) := Recorded(Judgement(g, s), s.exchange);
    more := Extend(g, w, h, r, Record(s.visit.candidate.alias, s.exchange.took, status, success, timeout, reason));
  }

  lemma Verdicts(g: Setup, q: Request, v: Visit, took: nat)
    ensures var trickled, busy := VerdictOn(g, q, v, Trickle(took)), VerdictOn(g, q, v, Busy(took));
      && trickled.Rejected? && trickled.decision.action.RetryKey? && CoolsFor(trickled) == Some(KEY_COOLDOWN)
      && busy.Rejected? && busy.decision.action.FallbackModel? && CoolsFor(busy).None?
      && Blames(busy, Busy(took)) == Some(("provider capacity", 0))
  {
  }

  // An attempt that ends in this error, up to the point where it is recorded.
  lemma FailFor(g: Setup, w: World, h: seq<Event>, r: nat, x: Exchange) returns (more: seq<Event>)
    requires Running(g, w, h, r) && Declined(x)
    requires Now(g, w, h, r).at.Drawn? && InTime(Now(g, w, h, r), x)
    ensures Running(g, w, more, r)
    ensures var s, t := Now(g, w, h, r), Now(g, w, more, r);
      t == s.(at := Noted, exchange := x, calls := s.calls + 1, clock := s.clock + x.took, open := false,
              ledger := t.ledger)
    ensures Quietly(SharedNow(g, w, h), SharedNow(g, w, more))
  {
    more := GetAnswer(g, w, h, r, x);
    more := RecordError(g, w, more, r);
  }

  // An attempt that takes this long and then moves on to the next key.
  lemma TrickleOn(g: Setup, w: World, h: seq<Event>, r: nat, took: nat, p: string, k: nat, until: Time)
    returns (more: seq<Event>)
    requires Running(g, w, h, r) && p in SharedNow(g, w, h).pools
    requires var s := Now(g, w, h, r);
      && s.at.Drawn? && took <= s.visit.timeout && s.visit.candidate.provider == p && s.key == k
      && until == s.clock + took + KEY_COOLDOWN
    ensures Running(g, w, more, r)
    ensures CoolsOne(SharedNow(g, w, h), SharedNow(g, w, more), p, k, until)
    ensures var s, t := Now(g, w, h, r), Now(g, w, more, r);
      t == s.(at := Trying, clock := s.clock + took, calls := s.calls + 1, exchange := t.exchange, open := false,
              ledger := t.ledger, cooled := t.cooled)
  {
    var noted := FailFor(g, w, h, r, Trickle(took));
    more := CoolAfter(g, w, noted, r, took, p, k, until);
    QuietThenCool(SharedNow(g, w, h), SharedNow(g, w, noted), SharedNow(g, w, more), p, k, until);
  }

  lemma QuietThenCool(m: Shared, quiet: Shared, n: Shared, p: string, k: nat, until: Time)
    requires Quietly(m, quiet) && CoolsOne(quiet, n, p, k, until)
    ensures CoolsOne(m, n, p, k, until)
  {
  }

  lemma CoolAfter(g: Setup, w: World, h: seq<Event>, r: nat, took: nat, p: string, k: nat, until: Time)
    returns (more: seq<Event>)
    requires Running(g, w, h, r)
    requires var s := Now(g, w, h, r);
      && s.at.Noted? && s.exchange == Trickle(took) && s.key == k && s.clock + KEY_COOLDOWN == until
      && s.visit.candidate.provider == p && p in SharedNow(g, w, h).pools
    ensures Running(g, w, more, r)
    ensures var s, t := Now(g, w, h, r), Now(g, w, more, r); t == s.(at := Trying, cooled := t.cooled)
    ensures CoolsOne(SharedNow(g, w, h), SharedNow(g, w, more), p, k, until)
  {
    var s := Now(g, w, h, r);
    Verdicts(g, s.request, s.visit, took);
    more := CoolNow(g, w, h, r, until);
  }

  lemma CoolNow(g: Setup, w: World, h: seq<Event>, r: nat, until: Time) returns (more: seq<Event>)
    requires Running(g, w, h, r)
    requires var s := Now(g, w, h, r);
      && s.at.Noted? && until == s.clock + KEY_COOLDOWN
      && Judgement(g, s).Rejected? && Judgement(g, s).decision.action.RetryKey?
      && CoolsFor(Judgement(g, s)) == Some(KEY_COOLDOWN)
      && s.visit.candidate.provider in SharedNow(g, w, h).pools
    ensures Running(g, w, more, r)
    ensures var s, t, m := Now(g, w, h, r), Now(g, w, more, r), SharedNow(g, w, h); var p := s.visit.candidate.provider;
      && t == s.(at := Trying, cooled := t.cooled)
      && CoolsOne(m, SharedNow(g, w, more), p, s.key, until)
  {
    var s := Now(g, w, h, r);
    more := Extend(g, w, h, r, Cool(s.visit.candidate.provider, s.key, until));
  }

  // An attempt that fails for want of capacity, after this long, and leaves the candidate and its keys.
  lemma BusyAndLeave(g: Setup, w: World, h: seq<Event>, r: nat, took: nat) returns (more: seq<Event>)
    requires Running(g, w, h, r)
    requires var s := Now(g, w, h, r); s.at.Drawn? && took <= s.visit.timeout
    ensures Running(g, w, more, r)
    ensures var s, t := Now(g, w, h, r), Now(g, w, more, r);
      t == s.(at := Between, calls := s.calls + 1, events := s.events + 1, exchange := Busy(took), open := false,
             clock := s.clock + took, ledger := t.ledger)
    ensures Quietly(SharedNow(g, w, h), SharedNow(g, w, more))
  {
    var s := Now(g, w, h, r);
    Verdicts(g, s.request, s.visit, took);
    more := FailFor(g, w, h, r, Busy(took));
    more := BlameNow(g, w, more, r, "provider capacity");
    more := LeaveNow(g, w, more, r);
  }

  lemma BlameNow(g: Setup, w: World, h: seq<Event>, r: nat, reason: string) returns (more: seq<Event>)
    requires Running(g, w, h, r)
    requires var s := Now(g, w, h, r);
      && s.at.Noted? && CoolsFor(Judgement(g, s)).None?
      && Blames(Judgement(g, s), s.exchange) == Some((reason, 0))
    ensures Running(g, w, more, r)
    ensures Now(g, w, more, r) == Now(g, w, h, r).(at := Leaving, events := Now(g, w, h, r).events + 1)
    ensures Quietly(SharedNow(g, w, h), SharedNow(g, w, more))
  {
    var s := Now(g, w, h, r);
    more := Extend(g, w, h, r, Blame(s.visit.candidate.alias, reason, s.clock, 0));
  }

  lemma LeaveNow(g: Setup, w: World, h: seq<Event>, r: nat) returns (more: seq<Event>)
    requires Running(g, w, h, r) && MayLeave(g, Now(g, w, h, r))
    ensures Running(g, w, more, r)
    ensures Now(g, w, more, r) == Now(g, w, h, r).(at := Between) && SharedNow(g, w, more) == SharedNow(g, w, h)
  {
    more := Extend(g, w, h, r, Leave);
  }

  // ---- any number of attempts, of any lengths ----

  function Below(n: nat): (r: set<nat>)
    ensures |r| == n && forall k: nat :: k in r <==> k < n
  {
    if n == 0 then {} else Below(n - 1) + {n - 1}
  }

  ghost predicate UsableBut(p: Pool.State, now: Time, gone: set<nat>) {
    forall k: nat :: k < |p.keys| && k !in gone ==> Pool.Usable(p.keys[k], now)
  }

  // No key is disabled, or cooled for longer than `time`.
  ghost predicate CoolBy(p: Pool.State, time: Time) {
    forall k: nat :: k < |p.keys| ==> !p.keys[k].disabled && p.keys[k].until <= time
  }

  lemma OneIsLeft(p: Pool.State, now: Time, gone: set<nat>)
    requires UsableBut(p, now, gone) && |gone| < |p.keys|
    ensures SomeUsable(p, now)
  {
    if forall k: nat :: k < |p.keys| ==> k in gone {
      SubsetIsSmaller(Below(|p.keys|), gone);
    }
  }

  // j attempts into a visit, which took d together; `gone` are the keys they used.
  ghost predicate Trickled(g: Setup, w: World, h: seq<Event>, more: seq<Event>, r: nat, j: nat, d: nat,
                           gone: set<nat>) {
    && Running(g, w, h, r) && Running(g, w, more, r)
    && TrickledSession(Now(g, w, h, r), Now(g, w, more, r), j, d)
    && TrickledPools(SharedNow(g, w, h), SharedNow(g, w, more), Now(g, w, more, r), j, gone)
  }

  ghost predicate TrickledSession(s: Session, t: Session, j: nat, d: nat) {
    t == s.(draws := j, key := t.key, calls := t.calls, exchange := t.exchange, open := false, ledger := t.ledger,
            cooled := t.cooled, clock := s.clock + d)
  }

  // Only the visited pool has changed, and only the keys gone may be unusable.
  ghost predicate OnlyPool(m: Shared, n: Shared, p: string) {
    && p in m.pools && p in n.pools && |n.pools[p].keys| == |m.pools[p].keys|
    && n.cache == m.cache && n.pools == m.pools[p := n.pools[p]]
  }

  ghost predicate TrickledPools(m: Shared, n: Shared, t: Session, j: nat, gone: set<nat>) {
    var p := t.visit.candidate.provider;
    && p in m.pools && p in n.pools && |n.pools[p].keys| == t.visit.limit
    && |gone| <= j && UsableBut(n.pools[p], t.clock, gone) && CoolBy(n.pools[p], t.clock + KEY_COOLDOWN)
    && n.cache == m.cache && n.pools == m.pools[p := n.pools[p]]
  }

  // What the last of j attempts takes of d: as much as it can.
  lemma LastShare(j: nat, timeout: nat, d: nat) returns (took: nat)
    requires 0 < j && d <= j * timeout
    ensures took <= d && took <= timeout && d - took <= (j - 1) * timeout
  {
    OneMoreCall(j - 1, timeout);
    TimesMore(0, j - 1, timeout);
    took := Min(d, timeout);
  }

  // At the top of a key loop with no key drawn and every key of pool p usable.
  ghost predicate CanTrickle(g: Setup, w: World, h: seq<Event>, r: nat, p: string, limit: nat, timeout: nat) {
    && Running(g, w, h, r) && AtTheTop(Now(g, w, h, r), p, limit, timeout)
    && PoolIsUsable(SharedNow(g, w, h), p, limit, Now(g, w, h, r).clock)
  }

  ghost predicate AtTheTop(s: Session, p: string, limit: nat, timeout: nat) {
    && s.at.Trying? && s.draws == 0 && !s.open && s.visit.candidate.provider == p
    && s.visit.limit == limit && s.visit.timeout == timeout > 0
  }

  ghost predicate PoolIsUsable(m: Shared, p: string, limit: nat, now: Time) {
    p in m.pools && |m.pools[p].keys| == limit && UsableBut(m.pools[p], now, {})
  }

  lemma NoneTrickled(g: Setup, w: World, h: seq<Event>, r: nat, p: string, limit: nat, timeout: nat)
    requires CanTrickle(g, w, h, r, p, limit, timeout)
    ensures Trickled(g, w, h, h, r, 0, 0, {})
  {
    var m := SharedNow(g, w, h);
    assert m.pools[p := m.pools[p]] == m.pools;
  }

  lemma OneMoreTrickle(g: Setup, w: World, h: seq<Event>, before: seq<Event>, r: nat, j: nat, d: nat,
                       gone: set<nat>, took: nat, p: string, limit: nat, timeout: nat)
    returns (more: seq<Event>, without: set<nat>)
    requires 0 < j && took <= d && Trickled(g, w, h, before, r, j - 1, d - took, gone)
    requires CanTrickle(g, w, h, r, p, limit, timeout) && j <= limit && took <= timeout
    ensures Trickled(g, w, h, more, r, j, d, without)
  {
    var b := Now(g, w, before, r);
    OneIsLeft(SharedNow(g, w, before).pools[p], b.clock, gone);
    var drawn, k := DrawAKey(g, w, before, r);
    more := TrickleOn(g, w, drawn, r, took, p, k, b.clock + took + KEY_COOLDOWN);
    without := gone + {k};
  }

  // j attempts can take any time together, up to j whole timeouts.
  lemma {:induction false} Trickles(g: Setup, w: World, h: seq<Event>, r: nat, j: nat, d: nat, p: string, limit: nat,
                                    timeout: nat)
    returns (more: seq<Event>, gone: set<nat>)
    requires CanTrickle(g, w, h, r, p, limit, timeout) && j <= limit && d <= j * timeout
    ensures Trickled(g, w, h, more, r, j, d, gone)
    decreases j
  {
    if j == 0 {
      NoneTrickled(g, w, h, r, p, limit, timeout);
      more, gone := h, {};
    } else {
      var took := LastShare(j, timeout, d);
      var before, used := Trickles(g, w, h, r, j - 1, d - took, p, limit, timeout);
      more, gone := OneMoreTrickle(g, w, h, before, r, j, d, used, took, p, limit, timeout);
    }
  }

  // ---- reaching a candidate ----

  ghost predicate PoolsStand(g: Setup, w: World, m: Shared, now: Time, clean: set<string>) {
    && m.cache == map[] && m.pools.Keys == w.shared.pools.Keys
    && (forall p :: p in m.pools ==> |m.pools[p].keys| == |w.shared.pools[p].keys|)
    && (forall p :: p in m.pools && p in clean ==> UsableBut(m.pools[p], now, {}))
  }

  // Routed among these candidates since `start` without being held up, and now about to try candidate ci.
  ghost predicate Routed(g: Setup, s: Session, q: Request, candidates: seq<Breaker.Candidate>, start: Time, now: Time) {
    && s.candidates == candidates && s.request == q && !s.open
    && s.start == start && s.clock == now && s.overhead == 0 && s.deadline == start + g.cfg.requestTimeout
  }

  // At the top of the loop for candidate ci, nothing cached and every key of the pools in `clean` usable.
  ghost predicate ReadyAt(g: Setup, w: World, h: seq<Event>, r: nat, q: Request, candidates: seq<Breaker.Candidate>,
                          start: Time, now: Time, ci: nat, clean: set<string>) {
    && Running(g, w, h, r) && Routed(g, Now(g, w, h, r), q, candidates, start, now)
    && Now(g, w, h, r).at.Between? && Now(g, w, h, r).ci == ci
    && PoolsStand(g, w, SharedNow(g, w, h), now, clean)
  }

  // At the top of candidate ci's key loop.
  ghost predicate EnteredAt(g: Setup, w: World, h: seq<Event>, r: nat, q: Request, candidates: seq<Breaker.Candidate>,
                            start: Time, now: Time, ci: nat, clean: set<string>) {
    && Running(g, w, h, r) && ci < |candidates| && Routed(g, Now(g, w, h, r), q, candidates, start, now)
    && Now(g, w, h, r).at.Trying? && Now(g, w, h, r).ci == ci + 1 && Now(g, w, h, r).draws == 0
    && Now(g, w, h, r).visit.candidate == candidates[ci]
    && Now(g, w, h, r).visit.limit == PoolSize(w.shared.pools, candidates[ci].provider)
    && Now(g, w, h, r).visit.timeout ==
         EffectiveTimeout(ModelNamed(g.cfg, candidates[ci].alias).attemptTimeout, start + g.cfg.requestTimeout - now)
    && PoolsStand(g, w, SharedNow(g, w, h), now, clean)
  }

  ghost predicate Routable(g: Setup, w: World, q: Request, candidates: seq<Breaker.Candidate>) {
    forall i :: 0 <= i < |candidates| ==>
      && candidates[i].provider in w.shared.pools && candidates[i].provider in g.cfg.providers
      && PatchFor(g, q, candidates[i]).Some?
  }

  lemma Charge(g: Setup, w: World, h: seq<Event>, r: nat) returns (more: seq<Event>)
    requires Running(g, w, h, r)
    requires var s := Now(g, w, h, r); s.at.Between? && s.ci < |s.candidates|
    ensures Running(g, w, more, r) && AtCandidate(Now(g, w, more, r))
    ensures var s, t := Now(g, w, h, r), Now(g, w, more, r); t == s.(at := t.at, ledger := t.ledger)
    ensures Quietly(SharedNow(g, w, h), SharedNow(g, w, more))
  {
    var s := Now(g, w, h, r);
    if s.ci == 0 {
      more := h;
    } else {
      more := Extend(g, w, h, r, CountFallback);
      more := ChargeModel(g, w, more, r);
    }
  }

  lemma ChargeModel(g: Setup, w: World, h: seq<Event>, r: nat) returns (more: seq<Event>)
    requires Running(g, w, h, r)
    requires var s := Now(g, w, h, r); s.at.Charged? && 0 < s.ci < |s.candidates|
    ensures Running(g, w, more, r)
    ensures var s, t := Now(g, w, h, r), Now(g, w, more, r); t == s.(at := Arrived, ledger := t.ledger)
    ensures Quietly(SharedNow(g, w, h), SharedNow(g, w, more))
  {
    var s := Now(g, w, h, r);
    more := Extend(g, w, h, r, ModelFallback(s.candidates[s.ci - 1].alias, "route_fallback"));
  }

  lemma EnterNow(g: Setup, w: World, h: seq<Event>, r: nat) returns (more: seq<Event>)
    requires Running(g, w, h, r)
    requires var s, m := Now(g, w, h, r), SharedNow(g, w, h);
      && AtCandidate(s) && s.clock < s.deadline && PatchFor(g, s.request, s.candidates[s.ci]).Some?
      && s.candidates[s.ci].provider in m.pools && s.candidates[s.ci].provider in g.cfg.providers
    ensures Running(g, w, more, r)
    ensures var s, t, m := Now(g, w, h, r), Now(g, w, more, r), SharedNow(g, w, h);
      && t == s.(at := if t.visit.cacheable then Consulting else Trying, visit := t.visit, entered := t.entered,
                 enteredOverhead := t.enteredOverhead, draws := 0, calls := 0, events := 0, ci := s.ci + 1,
                 allowance := t.allowance, widest := t.widest)
      && t.visit.candidate == s.candidates[s.ci]
      && t.visit.limit == |m.pools[s.candidates[s.ci].provider].keys|
      && t.visit.timeout ==
           EffectiveTimeout(ModelNamed(g.cfg, s.candidates[s.ci].alias).attemptTimeout, s.deadline - s.clock)
      && SharedNow(g, w, more) == m
  {
    var s, m := Now(g, w, h, r), SharedNow(g, w, h);
    var c := s.candidates[s.ci];
    var limit, patched := |m.pools[c.provider].keys|, PatchFor(g, s.request, c).value;
    more := Extend(g, w, h, r, Enter(VisitTo(g, s.request, c, limit, s.deadline - s.clock, patched), s.clock));
  }

  lemma MissTheCache(g: Setup, w: World, h: seq<Event>, r: nat) returns (more: seq<Event>)
    requires Running(g, w, h, r) && Now(g, w, h, r).at.Consulting? && SharedNow(g, w, h).cache == map[]
    ensures Running(g, w, more, r)
    ensures var s, t := Now(g, w, h, r), Now(g, w, more, r); t == s.(at := Trying, hit := None, ledger := t.ledger)
    ensures Quietly(SharedNow(g, w, h), SharedNow(g, w, more))
  {
    var s := Now(g, w, h, r);
    more := Extend(g, w, h, r, LookUp(KeyFor(g, s.visit.sent), s.clock, None));
    more := Extend(g, w, more, r, CountMiss);
  }

  lemma Arrive(g: Setup, w: World, h: seq<Event>, r: nat, q: Request, candidates: seq<Breaker.Candidate>,
               start: Time, now: Time, ci: nat, clean: set<string>)
    returns (more: seq<Event>)
    requires now < start + g.cfg.requestTimeout && Routable(g, w, q, candidates)
    requires ReadyAt(g, w, h, r, q, candidates, start, now, ci, clean) && ci < |candidates|
    ensures EnteredAt(g, w, more, r, q, candidates, start, now, ci, clean)
  {
    more := Charge(g, w, h, r);
    more := EnterNow(g, w, more, r);
    if Now(g, w, more, r).at.Consulting? {
      more := MissTheCache(g, w, more, r);
    }
  }

  // Whether a stay of d leaves a visit's keys as usable as it found them: it takes one attempt, which need
  // not cool its key, or its last attempt outlasts what cools the others.
  predicate Brief(timeout: Duration, d: nat) { d <= timeout || KEY_COOLDOWN <= timeout }

  // Past candidate ci in any time its keys allow, leaving every key usable.
  lemma PassBy(g: Setup, w: World, h: seq<Event>, r: nat, q: Request, candidates: seq<Breaker.Candidate>,
               start: Time, now: Time, ci: nat, clean: set<string>, d: nat)
    returns (more: seq<Event>)
    requires EnteredAt(g, w, h, r, q, candidates, start, now, ci, clean)
    requires candidates[ci].provider in w.shared.pools && candidates[ci].provider in clean
    requires var v := Now(g, w, h, r).visit; v.timeout > 0 && d <= v.limit * v.timeout && Brief(v.timeout, d)
    ensures ReadyAt(g, w, more, r, q, candidates, start, now + d, ci + 1, clean)
  {
    var v := Now(g, w, h, r).visit;
    var j, first, last := Divide(v.limit, v.timeout, d);
    if v.limit == 0 {
      more := LeaveNow(g, w, h, r);
    } else {
      more := PassByIn(g, w, h, r, q, candidates, start, now, ci, clean, j, first, last);
    }
  }

  lemma PassByIn(g: Setup, w: World, h: seq<Event>, r: nat, q: Request, candidates: seq<Breaker.Candidate>,
                 start: Time, now: Time, ci: nat, clean: set<string>, j: nat, first: nat, last: nat)
    returns (more: seq<Event>)
    requires EnteredAt(g, w, h, r, q, candidates, start, now, ci, clean)
    requires candidates[ci].provider in w.shared.pools && candidates[ci].provider in clean
    requires var v := Now(g, w, h, r).visit;
      && 0 < v.timeout && j < v.limit && first <= j * v.timeout && last <= v.timeout
      && (j == 0 || KEY_COOLDOWN <= last)
    ensures ReadyAt(g, w, more, r, q, candidates, start, now + first + last, ci + 1, clean)
  {
    var p := candidates[ci].provider;
    var v := Now(g, w, h, r).visit;
    more := StayFor(g, w, h, r, j, first, last, p, v.limit, v.timeout);
    PoolsStillStand(g, w, SharedNow(g, w, h), SharedNow(g, w, more), now, now + first + last, clean, clean, p);
  }

  // A brief stay, as one attempt or as all of them with a whole timeout at the end.
  lemma Divide(limit: nat, timeout: nat, d: nat) returns (j: nat, first: nat, last: nat)
    requires d <= limit * timeout && Brief(timeout, d)
    ensures if limit == 0 then d == 0 else j < limit && first <= j * timeout && last <= timeout && first + last == d
    ensures j == 0 || KEY_COOLDOWN <= last
  {
    if d <= timeout {
      j, first, last := 0, 0, d;
    } else {
      OneMoreCall(limit - 1, timeout);
      j, first, last := limit - 1, d - timeout, timeout;
    }
  }

  // When only pool p changes: its keys are all usable again, or it is clean no longer.
  lemma PoolsStillStand(g: Setup, w: World, m: Shared, n: Shared, now: Time, later: Time, clean: set<string>,
                        still: set<string>, p: string)
    requires PoolsStand(g, w, m, now, clean) && OnlyPool(m, n, p) && now <= later && still <= clean
    requires p in still ==> UsableBut(n.pools[p], later, {})
    ensures PoolsStand(g, w, n, later, still)
  {
  }

  // j attempts that take `first` together and bar their keys, and one more that leaves with its key usable.
  lemma StayFor(g: Setup, w: World, h: seq<Event>, r: nat, j: nat, first: nat, last: nat, p: string, limit: nat,
                timeout: nat)
    returns (more: seq<Event>)
    requires CanTrickle(g, w, h, r, p, limit, timeout)
    requires j < limit && first <= j * timeout && last <= timeout
    ensures Running(g, w, more, r)
    ensures var s, t := Now(g, w, h, r), Now(g, w, more, r);
      t == s.(at := Between, draws := j + 1, key := t.key, calls := t.calls, events := t.events, exchange := t.exchange,
              ledger := t.ledger, cooled := t.cooled, clock := s.clock + first + last)
    ensures OnlyPool(SharedNow(g, w, h), SharedNow(g, w, more), p)
    ensures j == 0 || KEY_COOLDOWN <= last ==>
      UsableBut(SharedNow(g, w, more).pools[p], Now(g, w, h, r).clock + first + last, {})
  {
    var burnt, gone := Trickles(g, w, h, r, j, first, p, limit, timeout);
    OneIsLeft(SharedNow(g, w, burnt).pools[p], Now(g, w, burnt, r).clock, gone);
    var drawn, k := DrawAKey(g, w, burnt, r);
    more := BusyAndLeave(g, w, drawn, r, last);
    if j == 0 || KEY_COOLDOWN <= last {
      UsableAgain(SharedNow(g, w, burnt).pools[p], Now(g, w, burnt, r).clock, gone, last);
    }
  }

  // The keys gone are usable again once their cooldowns are over; and a draw changes no key.
  lemma UsableAgain(p: Pool.State, now: Time, gone: set<nat>, last: nat)
    requires UsableBut(p, now, gone) && CoolBy(p, now + KEY_COOLDOWN)
    requires gone == {} || KEY_COOLDOWN <= last
    ensures UsableBut(Pool.AfterDraw(p), now + last, {})
  {
  }

  // Past candidate ci in any time its keys allow, using every one of them.
  lemma BurnBy(g: Setup, w: World, h: seq<Event>, r: nat, q: Request, candidates: seq<Breaker.Candidate>,
               start: Time, now: Time, ci: nat, clean: set<string>, d: nat)
    returns (more: seq<Event>)
    requires EnteredAt(g, w, h, r, q, candidates, start, now, ci, clean)
    requires candidates[ci].provider in w.shared.pools && candidates[ci].provider in clean
    requires var v := Now(g, w, h, r).visit; v.timeout > 0 && d <= v.limit * v.timeout
    ensures ReadyAt(g, w, more, r, q, candidates, start, now + d, ci + 1, clean - {candidates[ci].provider})
  {
    var p := candidates[ci].provider;
    var v := Now(g, w, h, r).visit;
    var burnt, gone := Trickles(g, w, h, r, v.limit, d, p, v.limit, v.timeout);
    more := LeaveNow(g, w, burnt, r);
    PoolsStillStand(g, w, SharedNow(g, w, h), SharedNow(g, w, more), now, now + d, clean, clean - {p}, p);
  }

  lemma BeginNow(g: Setup, w: World, r: nat, q: Request, start: Time) returns (h: seq<Event>)
    requires Opening(w) && r in w.sessions
    ensures Running(g, w, h, r) && SharedNow(g, w, h) == w.shared
    ensures Now(g, w, h, r) == FRESH.(at := Started, request := q, start := start, clock := start,
                                      deadline := start + g.cfg.requestTimeout)
  {
    assert Run(g, w, []) == Some(w);
    h := Extend(g, w, [], r, Begin(q, start));
  }

  lemma SelectNow(g: Setup, w: World, h: seq<Event>, r: nat, found: seq<Breaker.Candidate>) returns (more: seq<Event>)
    requires Running(g, w, h, r) && Now(g, w, h, r).at.Started?
    requires found == Found(g, SharedNow(g, w, h).health, Now(g, w, h, r).request.model, Now(g, w, h, r).clock)
    ensures Running(g, w, more, r) && SharedNow(g, w, more) == SharedNow(g, w, h)
    ensures Now(g, w, more, r) == Now(g, w, h, r).(at := Between, candidates := found, ci := 0)
  {
    var s := Now(g, w, h, r);
    more := Extend(g, w, h, r, Select(s.request.model, s.clock, found));
  }

  lemma StartRequest(g: Setup, w: World, r: nat, q: Request, candidates: seq<Breaker.Candidate>, start: Time,
                     clean: set<string>)
    returns (h: seq<Event>)
    requires Opening(w) && r in w.sessions && w.shared.cache == map[]
    requires candidates == Found(g, w.shared.health, q.model, start)
    requires forall p :: p in w.shared.pools ==> UsableBut(w.shared.pools[p], start, {})
    ensures ReadyAt(g, w, h, r, q, candidates, start, start, 0, clean)
  {
    h := BeginNow(g, w, r, q, start);
    h := SelectNow(g, w, h, r, candidates);
  }

  lemma NextAtOnce(g: Setup, w: World, h: seq<Event>, r: nat, q: Request, candidates: seq<Breaker.Candidate>,
                   start: Time, ci: nat)
    returns (more: seq<Event>)
    requires g.cfg.requestTimeout > 0 && Routable(g, w, q, candidates) && ci < |candidates|
    requires ReadyAt(g, w, h, r, q, candidates, start, start, ci, w.shared.pools.Keys)
    ensures ReadyAt(g, w, more, r, q, candidates, start, start, ci + 1, w.shared.pools.Keys)
  {
    TimeoutLeft(ModelNamed(g.cfg, candidates[ci].alias).attemptTimeout, g.cfg.requestTimeout, g.cfg.requestTimeout);
    var entered := Arrive(g, w, h, r, q, candidates, start, start, ci, w.shared.pools.Keys);
    TimesMore(0, Now(g, w, entered, r).visit.limit, Now(g, w, entered, r).visit.timeout);
    more := PassBy(g, w, entered, r, q, candidates, start, start, ci, w.shared.pools.Keys, 0);
  }

  // Candidate ci at once, with every key still usable.
  lemma {:induction false} ReachAtOnce(g: Setup, w: World, r: nat, q: Request, candidates: seq<Breaker.Candidate>,
                                       start: Time, ci: nat)
    returns (h: seq<Event>)
    requires g.cfg.requestTimeout > 0 && Opening(w) && r in w.sessions && w.shared.cache == map[]
    requires candidates == Found(g, w.shared.health, q.model, start) && Routable(g, w, q, candidates)
    requires ci <= |candidates|
    requires forall p :: p in w.shared.pools ==> UsableBut(w.shared.pools[p], start, {})
    ensures ReadyAt(g, w, h, r, q, candidates, start, start, ci, w.shared.pools.Keys)
  {
    if ci == 0 {
      h := StartRequest(g, w, r, q, candidates, start, w.shared.pools.Keys);
    } else {
      h := ReachAtOnce(g, w, r, q, candidates, start, ci - 1);
      h := NextAtOnce(g, w, h, r, q, candidates, start, ci - 1);
    }
  }

  // However long candidate i's keys are at work, the candidates after it can find theirs usable: it has one
  // key at most, its attempts can outlast a key's cooldown, or none of them has its provider.
  ghost predicate Spared(g: Setup, pools: map<string, Pool.State>, candidates: seq<Breaker.Candidate>, i: nat)
    requires i < |candidates|
  {
    || PoolSize(pools, candidates[i].provider) <= 1
    || KEY_COOLDOWN <= Whole(g, candidates[i])
    || forall j :: i < j < |candidates| ==> candidates[j].provider != candidates[i].provider
  }

  // The whole timeouts candidate i can take and leave the later candidates' keys usable: those of all its
  // keys if they are spared, and else one, which need not bar its key.
  ghost function SureKeys(g: Setup, pools: map<string, Pool.State>, candidates: seq<Breaker.Candidate>,
                          i: nat): (k: nat)
    requires i < |candidates|
    ensures k <= PoolSize(pools, candidates[i].provider)
  {
    if Spared(g, pools, candidates, i) then PoolSize(pools, candidates[i].provider) else 1
  }

  // What the first n candidates can surely take together.
  ghost function Sure(g: Setup, pools: map<string, Pool.State>, candidates: seq<Breaker.Candidate>, n: nat): nat
    requires n <= |candidates| && g.cfg.requestTimeout > 0
  {
    if n == 0 then 0
    else Sure(g, pools, candidates, n - 1) + SureKeys(g, pools, candidates, n - 1) * Whole(g, candidates[n - 1])
  }

  // How late candidate ci can surely be come to: a nanosecond short of the budget at most.
  ghost function Latest(g: Setup, w: World, candidates: seq<Breaker.Candidate>, ci: nat): nat
    requires ci <= |candidates| && g.cfg.requestTimeout > 0
  {
    Min(Sure(g, w.shared.pools, candidates, ci), g.cfg.requestTimeout - 1)
  }

  function ProvidersFrom(candidates: seq<Breaker.Candidate>, ci: nat): set<string> {
    set j | ci <= j < |candidates| :: candidates[j].provider
  }

  lemma TimeoutLeft(raw: Duration, budget: Duration, left: Duration)
    requires 0 < left <= budget
    ensures EffectiveTimeout(raw, left) == Min(EffectiveTimeout(raw, budget), left) > 0
  {
  }

  // k attempts of what is left can take this share of the time there is.
  lemma ShareFits(k: nat, whole: nat, spent: nat, budget: nat)
    requires 0 < whole <= budget
    ensures var now, next := Min(spent, budget - 1), Min(spent + k * whole, budget - 1);
      now <= next && next - now <= k * Min(whole, budget - now)
  {
    var now := Min(spent, budget - 1);
    TimesMore(0, k, whole);
    if k > 0 {
      TimesMore(1, k, Min(whole, budget - now));
    }
  }

  // On the way: ready for candidate ci as late as can surely be, with its own keys still usable.
  ghost predicate Late(g: Setup, w: World, h: seq<Event>, r: nat, q: Request, candidates: seq<Breaker.Candidate>,
                       start: Time, ci: nat)
    requires ci <= |candidates| && g.cfg.requestTimeout > 0
  {
    ReadyAt(g, w, h, r, q, candidates, start, start + Latest(g, w, candidates, ci), ci, ProvidersFrom(candidates, ci))
  }

  lemma {:induction false} ReachLate(g: Setup, w: World, r: nat, q: Request, candidates: seq<Breaker.Candidate>,
                                     start: Time, ci: nat)
    returns (h: seq<Event>)
    requires g.cfg.requestTimeout > 0 && Opening(w) && r in w.sessions && w.shared.cache == map[]
    requires candidates == Found(g, w.shared.health, q.model, start) && Routable(g, w, q, candidates)
    requires ci <= |candidates|
    requires forall p :: p in w.shared.pools ==> UsableBut(w.shared.pools[p], start, {})
    ensures Late(g, w, h, r, q, candidates, start, ci)
  {
    if ci == 0 {
      h := StartRequest(g, w, r, q, candidates, start, ProvidersFrom(candidates, 0));
    } else {
      h := ReachLate(g, w, r, q, candidates, start, ci - 1);
      h := BurnOn(g, w, h, r, q, candidates, start, ci - 1);
    }
  }

  lemma BurnOn(g: Setup, w: World, h: seq<Event>, r: nat, q: Request, candidates: seq<Breaker.Candidate>,
               start: Time, ci: nat)
    returns (more: seq<Event>)
    requires g.cfg.requestTimeout > 0 && Routable(g, w, q, candidates) && ci < |candidates|
    requires Late(g, w, h, r, q, candidates, start, ci)
    ensures Late(g, w, more, r, q, candidates, start, ci + 1)
  {
    var now, next := Latest(g, w, candidates, ci), Latest(g, w, candidates, ci + 1);
    TimeToBurn(g, w, candidates, ci);
    more := BurnFor(g, w, h, r, q, candidates, start, start + now, ci, next - now, start + next);
  }

  lemma BurnFor(g: Setup, w: World, h: seq<Event>, r: nat, q: Request, candidates: seq<Breaker.Candidate>,
                start: Time, now: Time, ci: nat, d: nat, later: Time)
    returns (more: seq<Event>)
    requires Routable(g, w, q, candidates) && ci < |candidates| && now < start + g.cfg.requestTimeout
    requires later == now + d
    requires ReadyAt(g, w, h, r, q, candidates, start, now, ci, ProvidersFrom(candidates, ci))
    requires StayFits(g, w, candidates, ci, start + g.cfg.requestTimeout - now, d)
    ensures ReadyAt(g, w, more, r, q, candidates, start, later, ci + 1, ProvidersFrom(candidates, ci + 1))
  {
    var entered := Arrive(g, w, h, r, q, candidates, start, now, ci, ProvidersFrom(candidates, ci));
    more := GoOn(g, w, entered, r, q, candidates, start, now, ci, d);
  }

  // With `left` of the budget left, candidate ci's sure keys can take d; and for longer than one attempt only
  // when the budget does not cut its attempts short.
  ghost predicate StayFits(g: Setup, w: World, candidates: seq<Breaker.Candidate>, ci: nat, left: Duration, d: nat)
    requires ci < |candidates|
  {
    var timeout := EffectiveTimeout(ModelNamed(g.cfg, candidates[ci].alias).attemptTimeout, left);
    && 0 < timeout && d <= SureKeys(g, w.shared.pools, candidates, ci) * timeout
    && (timeout < d ==> timeout == Whole(g, candidates[ci]))
  }

  // How long the stay at candidate ci is to be, and that its keys can take that long.
  lemma TimeToBurn(g: Setup, w: World, candidates: seq<Breaker.Candidate>, ci: nat)
    requires g.cfg.requestTimeout > 0 && ci < |candidates|
    ensures Latest(g, w, candidates, ci) <= Latest(g, w, candidates, ci + 1)
    ensures StayFits(g, w, candidates, ci, g.cfg.requestTimeout - Latest(g, w, candidates, ci),
                     Latest(g, w, candidates, ci + 1) - Latest(g, w, candidates, ci))
  {
    var budget, c, pools, now := g.cfg.requestTimeout, candidates[ci], w.shared.pools, Latest(g, w, candidates, ci);
    TimeoutLeft(ModelNamed(g.cfg, c.alias).attemptTimeout, budget, budget - now);
    ShareFits(SureKeys(g, pools, candidates, ci), Whole(g, c), Sure(g, pools, candidates, ci), budget);
  }

  lemma GoOn(g: Setup, w: World, h: seq<Event>, r: nat, q: Request, candidates: seq<Breaker.Candidate>, start: Time,
             now: Time, ci: nat, d: nat)
    returns (more: seq<Event>)
    requires EnteredAt(g, w, h, r, q, candidates, start, now, ci, ProvidersFrom(candidates, ci))
    requires candidates[ci].provider in w.shared.pools
    requires StayFits(g, w, candidates, ci, start + g.cfg.requestTimeout - now, d)
    ensures ReadyAt(g, w, more, r, q, candidates, start, now + d, ci + 1, ProvidersFrom(candidates, ci + 1))
  {
    var v, clean, rest := Now(g, w, h, r).visit, ProvidersFrom(candidates, ci), ProvidersFrom(candidates, ci + 1);
    assert candidates[ci].provider in clean && rest <= clean;
    TimesMore(SureKeys(g, w.shared.pools, candidates, ci), v.limit, v.timeout);
    if Brief(v.timeout, d) {
      more := PassBy(g, w, h, r, q, candidates, start, now, ci, clean, d);
    } else {
      NotBrief(SureKeys(g, w.shared.pools, candidates, ci), v.timeout, d);
      more := BurnBy(g, w, h, r, q, candidates, start, now, ci, clean, d);
      assert rest <= clean - {candidates[ci].provider};
    }
  }

  lemma NotBrief(k: nat, timeout: nat, d: nat)
    requires d <= k * timeout && !Brief(timeout, d)
    ensures k > 1
  {
  }

  // Every key of candidate ci's pool takes its whole timeout.
  lemma UseEveryKey(g: Setup, w: World, h: seq<Event>, r: nat, q: Request, candidates: seq<Breaker.Candidate>,
                    start: Time, now: Time, ci: nat, clean: set<string>)
    returns (more: seq<Event>)
    requires start <= now < start + g.cfg.requestTimeout && Routable(g, w, q, candidates) && ci < |candidates|
    requires ReadyAt(g, w, h, r, q, candidates, start, now, ci, clean) && candidates[ci].provider in clean
    ensures Running(g, w, more, r)
    ensures var c := candidates[ci];
      Routed(g, Now(g, w, more, r), q, candidates, start,
        now + PoolSize(w.shared.pools, c.provider) * Min(Whole(g, c), start + g.cfg.requestTimeout - now))
  {
    var c := candidates[ci];
    var limit, timeout := PoolSize(w.shared.pools, c.provider), Min(Whole(g, c), start + g.cfg.requestTimeout - now);
    TimeoutLeft(ModelNamed(g.cfg, c.alias).attemptTimeout, g.cfg.requestTimeout, start + g.cfg.requestTimeout - now);
    TimesMore(0, limit, timeout);
    var entered := Arrive(g, w, h, r, q, candidates, start, now, ci, clean);
    more := TrickleFor(g, w, entered, r, q, candidates, start, now, ci, clean, limit, timeout, limit * timeout);
  }

  // Every key of the candidate just come to, for d together.
  lemma TrickleFor(g: Setup, w: World, h: seq<Event>, r: nat, q: Request, candidates: seq<Breaker.Candidate>,
                   start: Time, now: Time, ci: nat, clean: set<string>, limit: nat, timeout: nat, d: nat)
    returns (more: seq<Event>)
    requires EnteredAt(g, w, h, r, q, candidates, start, now, ci, clean)
    requires candidates[ci].provider in w.shared.pools && candidates[ci].provider in clean
    requires Now(g, w, h, r).visit.limit == limit && Now(g, w, h, r).visit.timeout == timeout > 0
    requires d <= limit * timeout
    ensures Running(g, w, more, r) && Routed(g, Now(g, w, more, r), q, candidates, start, now + d)
  {
    var gone;
    more, gone := Trickles(g, w, h, r, limit, d, candidates[ci].provider, limit, timeout);
  }
}
