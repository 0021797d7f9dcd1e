/** internal/router/router.go: routes, per-alias circuit breakers and candidate selection. */
module CircuitBreaker {
  import opened Prelude
  import opened Config

  datatype Candidate = Candidate(alias: string, provider: string, upstreamModel: string)
  datatype Health = Health(failures: int, openUntil: Time, lastReason: string)

  const HEALTHY := Health(0, ZERO_TIME, "")

  // The source reads a missing map entry as the zero health.
  function HealthOf(h: map<string, Health>, alias: string): Health {
    if alias in h then h[alias] else HEALTHY
  }

  predicate Open(h: map<string, Health>, alias: string, now: Time) {
    now < HealthOf(h, alias).openUntil
  }

  function Succeeded(h: map<string, Health>, alias: string): map<string, Health> {
    h[alias := HEALTHY]
  }

  function Failed(b: Breaker, h: map<string, Health>, alias: string, reason: string, now: Time, retryAfter: Duration)
    : map<string, Health>
  {
    var was := HealthOf(h, alias);
    if was.failures + 1 >= b.failureThreshold || retryAfter > 0
    then h[alias := Health(0, now + Max(b.cooldown, retryAfter), reason)]
    else h[alias := Health(was.failures + 1, was.openUntil, reason)]
  }

  // The aliases a requested name stands for.
  function Resolve(c: Config, requested: string): Option<seq<string>> {
    if requested in c.routes then Some(c.routes[requested])
    else if requested in c.models then Some([requested])
    else if requested == "" && "default" in c.routes then Some(c.routes["default"])
    else None
  }

  function CandidateFor(c: Config, alias: string): Candidate {
    var m := ModelNamed(c, alias);
    Candidate(alias, m.provider, m.upstreamModel)
  }

  /** The candidates, stated simply: the aliases whose circuit is closed, in route order. */
  function Closed(c: Config, h: map<string, Health>, aliases: seq<string>, now: Time): seq<Candidate> {
    if aliases == [] then []
    else
      var front := Closed(c, h, aliases[..|aliases| - 1], now);
      var last := aliases[|aliases| - 1];
      if Open(h, last, now) then front else front + [CandidateFor(c, last)]
  }

  lemma {:induction false} ClosedMembers(c: Config, h: map<string, Health>, aliases: seq<string>, now: Time)
    ensures |Closed(c, h, aliases, now)| <= |aliases|
    ensures forall x :: x in Closed(c, h, aliases, now) <==>
      x.alias in aliases && !Open(h, x.alias, now) && x == CandidateFor(c, x.alias)
  {
    if aliases != [] {
      var front, last := aliases[..|aliases| - 1], aliases[|aliases| - 1];
      ClosedMembers(c, h, front, now);
      assert aliases == front + [last];
    }
  }

  // Whether alias is out of the running at time `now`.
  predicate StillOpen(h: map<string, Health>, alias: string, now: Time) {
    now < if alias in h then h[alias].openUntil else ZERO_TIME
  }

  /** The candidates are the aliases that are not out of the running, each as often as it stands in the route
      and in the route's order, each with its own model's provider and upstream name. */
  ghost predicate InRouteOrder(c: Config, h: map<string, Health>, aliases: seq<string>, now: Time,
                               found: seq<Candidate>, idx: seq<nat>) {
    && Places(idx, set i: nat | i < |aliases| && !StillOpen(h, aliases[i], now) :: i)
    && |found| == |idx|
    && forall j :: 0 <= j < |found| ==>
         && idx[j] < |aliases| && found[j].alias == aliases[idx[j]]
         && (found[j].alias in c.models ==>
               && found[j].provider == c.models[found[j].alias].provider
               && found[j].upstreamModel == c.models[found[j].alias].upstreamModel)
         && (found[j].alias !in c.models ==> found[j].provider == "" == found[j].upstreamModel)
  }

  lemma {:induction false} ClosedInRouteOrder(c: Config, h: map<string, Health>, aliases: seq<string>, now: Time)
    returns (idx: seq<nat>)
    ensures InRouteOrder(c, h, aliases, now, Closed(c, h, aliases, now), idx)
  {
    if aliases == [] {
      idx := [];
    } else {
      var n := |aliases| - 1;
      var front := aliases[..n];
      idx := ClosedInRouteOrder(c, h, front, now);
      var before := set i: nat | i < n && !StillOpen(h, front[i], now) :: i;
      var all := set i: nat | i < |aliases| && !StillOpen(h, aliases[i], now) :: i;
      if StillOpen(h, aliases[n], now) {
        assert all == before;
      } else {
        assert all == before + {n};
        OneMorePlace(idx, before, n);
        idx := idx + [n];
      }
    }
  }

  /** In a validated configuration every candidate has a provider, hence a pool and an adapter: the
      branch that skips a candidate without them is dead. */
  lemma RoutingIsClosed(c: Config, parsesURL: string -> bool, requested: string, h: map<string, Health>, now: Time)
    requires SoundConfig(c, parsesURL)
    ensures var aliases := Resolve(c, requested);
      aliases.Some? ==> forall x :: x in Closed(c, h, aliases.value, now) ==> x.provider in c.providers
  {
    var aliases := Resolve(c, requested);
    if aliases.Some? {
      ClosedMembers(c, h, aliases.value, now);
      assert forall a :: a in aliases.value ==> a in c.models;
    }
  }

  datatype Report = Report(open: bool, openUntil: Time, lastReason: string)
  datatype Recovery = Recovery(alias: string, until: Time)

  ghost predicate Sorted(ps: seq<Recovery>) {
    forall i, j :: 0 <= i < j < |ps| ==> ps[i].until <= ps[j].until
  }

  // The items that recover at `time`, in order.
  ghost function RecoveringAt(ps: seq<Recovery>, time: Time): seq<Recovery> {
    if ps == [] then []
    else
      var last := ps[|ps| - 1];
      RecoveringAt(ps[..|ps| - 1], time) + if last.until == time then [last] else []
  }

  lemma {:induction false} RecoveringInTwo(a: seq<Recovery>, b: seq<Recovery>, time: Time)
    ensures RecoveringAt(a + b, time) == RecoveringAt(a, time) + RecoveringAt(b, time)
  {
    if b == [] {
      assert a + b == a;
    } else {
      var front, last := b[..|b| - 1], b[|b| - 1];
      RecoveringInTwo(a, front, time);
      assert (a + b)[..|a + b| - 1] == a + front;
      Associative(RecoveringAt(a, time), RecoveringAt(front, time), if last.until == time then [last] else []);
    }
  }

  lemma {:induction false} NoneRecovering(ps: seq<Recovery>, time: Time)
    requires forall i :: 0 <= i < |ps| ==> ps[i].until != time
    ensures RecoveringAt(ps, time) == []
  {
    if ps != [] {
      NoneRecovering(ps[..|ps| - 1], time);
    }
  }

  // Those that recover at the same time keep their order.
  ghost predicate Stable(sorted: seq<Recovery>, ps: seq<Recovery>) {
    forall time :: RecoveringAt(sorted, time) == RecoveringAt(ps, time)
  }

  // The place for p in a sorted sequence: behind everything that recovers no later.
  ghost predicate Place(sorted: seq<Recovery>, p: Recovery, at: nat) {
    && at <= |sorted|
    && (forall i :: 0 <= i < at ==> sorted[i].until <= p.until)
    && (forall i :: at <= i < |sorted| ==> p.until < sorted[i].until)
  }

  lemma PlacedIsSorted(sorted: seq<Recovery>, p: Recovery, at: nat)
    requires Sorted(sorted) && Place(sorted, p, at)
    ensures Sorted(sorted[..at] + [p] + sorted[at..])
    ensures multiset(sorted[..at] + [p] + sorted[at..]) == multiset(sorted) + multiset{p}
  {
    assert sorted == sorted[..at] + sorted[at..];
  }

  lemma PlacedIsStable(sorted: seq<Recovery>, p: Recovery, at: nat, time: Time)
    requires Place(sorted, p, at)
    ensures RecoveringAt(sorted[..at] + [p] + sorted[at..], time) == RecoveringAt(sorted + [p], time)
  {
    var front, back := sorted[..at], sorted[at..];
    assert sorted == front + back;
    RecoveringInTwo(front + [p], back, time);
    RecoveringInTwo(front, [p], time);
    RecoveringInTwo(front, back, time);
    RecoveringInTwo(sorted, [p], time);
    assert RecoveringAt([p], time) == [] || RecoveringAt(back, time) == [] by {
      if time == p.until {
        NoneRecovering(back, time);
      } else {
        NoneRecovering([p], time);
      }
    }
  }

  /** A stable sort by recovery time. */
  method SortByRecovery(ps: seq<Recovery>) returns (sorted: seq<Recovery>)
    ensures Sorted(sorted) && multiset(sorted) == multiset(ps) && Stable(sorted, ps)
  {
    sorted := [];
    for n := 0 to |ps|
      invariant Sorted(sorted) && multiset(sorted) == multiset(ps[..n]) && Stable(sorted, ps[..n])
    {
      assert ps[..n + 1] == ps[..n] + [ps[n]];
      sorted := Placed(sorted, ps[..n], ps[n]);
    }
    assert ps[..|ps|] == ps;
  }

  // One item goes to its place.
  method Placed(sorted: seq<Recovery>, ghost before: seq<Recovery>, p: Recovery) returns (r: seq<Recovery>)
    requires Sorted(sorted) && multiset(sorted) == multiset(before) && Stable(sorted, before)
    ensures Sorted(r) && multiset(r) == multiset(before + [p]) && Stable(r, before + [p])
  {
    var at := |sorted|;
    while at > 0 && p.until < sorted[at - 1].until
      invariant 0 <= at <= |sorted|
      invariant forall i :: at <= i < |sorted| ==> p.until < sorted[i].until
    {
      at := at - 1;
    }
    PlacedIsSorted(sorted, p, at);
    r := sorted[..at] + [p] + sorted[at..];
    forall time ensures RecoveringAt(r, time) == RecoveringAt(before + [p], time) {
      PlacedIsStable(sorted, p, at, time);
      RecoveringInTwo(sorted, [p], time);
      RecoveringInTwo(before, [p], time);
    }
  }

  class Router {
    const cfg: Config
    var health: map<string, Health>

    constructor (cfg: Config)
      ensures this.cfg == cfg && health == map[]
    {
      this.cfg := cfg;
      health := map[];
    }

    /** Candidate selection is the in-order filter by closed circuit: the recover-first fallback,
        sort and all, never adds anything. A name is a route before it is a model, and no name is the
        default route. */
    method Candidates(requested: string, now: Time) returns (r: Result<seq<Candidate>, string>)
      ensures r.Err? <==> Resolve(cfg, requested).None?
      ensures r.Ok? ==> r.value == Closed(cfg, health, Resolve(cfg, requested).value, now)
      ensures r.Err? <==>
        requested !in cfg.routes && requested !in cfg.models && !(requested == "" && "default" in cfg.routes)
      ensures r.Ok? && requested in cfg.routes ==>
        exists idx :: InRouteOrder(cfg, health, cfg.routes[requested], now, r.value, idx)
      ensures r.Ok? && requested !in cfg.routes && requested in cfg.models ==>
        exists idx :: InRouteOrder(cfg, health, [requested], now, r.value, idx)
      ensures r.Ok? && requested !in cfg.routes && requested !in cfg.models ==>
        exists idx :: InRouteOrder(cfg, health, cfg.routes["default"], now, r.value, idx)
    {
      var aliases: seq<string> := [];
      var ok := requested in cfg.routes;
      if ok {
        aliases := cfg.routes[requested];
      }
      if !ok {
        if requested in cfg.models {
          aliases, ok := [requested], true;
        }
      }
      if !ok && requested == "" {
        ok := "default" in cfg.routes;
        if ok {
          aliases := cfg.routes["default"];
        }
      }
      if !ok {
        return Err("unknown model or route " + requested);
      }
      var out: seq<Candidate> := [];
      for i := 0 to |aliases|
        invariant out == Closed(cfg, health, aliases[..i], now)
      {
        assert aliases[..i + 1][..i] == aliases[..i];
        if !(now < HealthOf(health, aliases[i]).openUntil) {
          out := out + [CandidateFor(cfg, aliases[i])];
        }
      }
      assert aliases[..|aliases|] == aliases;
      if |out| == 0 {
        ClosedMembers(cfg, health, aliases, now);
        assert forall a :: a in aliases && !Open(health, a, now) ==> CandidateFor(cfg, a) in out;
        var ps: seq<Recovery> := [];
        for i := 0 to |aliases|
          invariant forall p :: p in ps ==> p.alias in aliases && p.until == HealthOf(health, p.alias).openUntil
        {
          ps := ps + [Recovery(aliases[i], HealthOf(health, aliases[i]).openUntil)];
        }
        ghost var unsorted := ps;
        ps := SortByRecovery(ps);
        assert |ps| > 0 ==> ps[0] in multiset(ps) && ps[0] in multiset(unsorted);
        if |ps| > 0 {
          var first := ps[0];
          if !(now < first.until) {
            out := out + [CandidateFor(cfg, first.alias)];
          }
        }
      }
      ghost var idx := ClosedInRouteOrder(cfg, health, aliases, now);
      return Ok(out);
    }

    method Success(alias: string)
      modifies this`health
      ensures health == Succeeded(old(health), alias)
    {
      health := health[alias := HEALTHY];
    }

    method Failure(alias: string, reason: string, now: Time, retryAfter: Duration)
      modifies this`health
      ensures health == Failed(cfg.breaker, old(health), alias, reason, now, retryAfter)
    {
      var h := HealthOf(health, alias);
      h := h.(failures := h.failures + 1, lastReason := reason);
      if h.failures >= cfg.breaker.failureThreshold || retryAfter > 0 {
        var d := cfg.breaker.cooldown;
        if retryAfter > d {
          d := retryAfter;
        }
        h := h.(openUntil := now + d, failures := 0);
      }
      health := health[alias := h];
    }

    /** What the operator sees of each configured alias: whether it is open, until when, and why. */
    method Snapshot(now: Time) returns (reports: map<string, Report>)
      ensures reports.Keys == cfg.models.Keys
      ensures forall a :: a in reports ==> reports[a].open == (now < reports[a].openUntil)
      ensures forall a :: a in reports ==>
        reports[a].openUntil == HealthOf(health, a).openUntil && reports[a].lastReason == HealthOf(health, a).lastReason
    {
      reports := map[];
      var left := cfg.models.Keys;
      while left != {}
        invariant left <= cfg.models.Keys && reports.Keys == cfg.models.Keys - left
        invariant forall a :: a in reports ==> reports[a].open == Open(health, a, now)
        invariant forall a :: a in reports ==>
          && reports[a].openUntil == HealthOf(health, a).openUntil
          && reports[a].lastReason == HealthOf(health, a).lastReason
        decreases |left|
      {
        var alias :| alias in left;
        var h := HealthOf(health, alias);
        reports := reports[alias := Report(now < h.openUntil, h.openUntil, h.lastReason)];
        left := left - {alias};
      }
    }
  }
}

/** The breaker's state as a function of its whole history. */
module BreakerHistory {
  import opened Prelude
  import opened Config
  import opened CircuitBreaker

  datatype Event =
    | Success(alias: string)
    | Failure(alias: string, reason: string, at: Time, retryAfter: Duration)

  ghost function After(b: Breaker, h: map<string, Health>, e: Event): map<string, Health> {
    match e
    case Success(alias) => Succeeded(h, alias)
    case Failure(alias, reason, at, retryAfter) => Failed(b, h, alias, reason, at, retryAfter)
  }

  ghost function AfterAll(b: Breaker, history: seq<Event>): map<string, Health> {
    if history == [] then map[] else After(b, AfterAll(b, history[..|history| - 1]), history[|history| - 1])
  }

  datatype Strike = Strike(reason: string, at: Time, retryAfter: Duration)

  // The failures of one alias since its last success.
  ghost function Recent(history: seq<Event>, alias: string): seq<Strike> {
    if history == [] then []
    else
      var e, before := history[|history| - 1], Recent(history[..|history| - 1], alias);
      if e.alias != alias then before
      else if e.Success? then []
      else before + [Strike(e.reason, e.at, e.retryAfter)]
  }

  // How many of the latest failures carried no Retry-After.
  ghost function Soft(f: seq<Strike>): nat {
    if f == [] || f[|f| - 1].retryAfter > 0 then 0 else Soft(f[..|f| - 1]) + 1
  }

  // A threshold below one trips on every failure, as a threshold of one does.
  function Threshold(b: Breaker): nat { Max(b.failureThreshold, 1) }

  // The last of these failures opens the circuit: it carries a Retry-After, or it completes another
  // threshold's worth.
  ghost predicate Trips(b: Breaker, f: seq<Strike>)
    requires f != []
  {
    f[|f| - 1].retryAfter > 0 || Residue(Soft(f), Threshold(b)) == 0
  }

  // When the circuit opened by the last trip closes again.
  ghost function OpenedUntil(b: Breaker, f: seq<Strike>): Time {
    if f == [] then ZERO_TIME
    else if Trips(b, f) then f[|f| - 1].at + Max(b.cooldown, f[|f| - 1].retryAfter)
    else OpenedUntil(b, f[..|f| - 1])
  }

  /** The whole health, from the failures since the last success: the counter is the failures without
      Retry-After taken modulo the threshold, and the circuit is open until the last trip plus the
      longer of cooldown and Retry-After. */
  ghost predicate Explains(b: Breaker, f: seq<Strike>, h: Health) {
    && h.failures == Residue(Soft(f), Threshold(b))
    && h.lastReason == (if f == [] then "" else f[|f| - 1].reason)
    && h.openUntil == OpenedUntil(b, f)
  }

  lemma OneMoreStrike(b: Breaker, f: seq<Strike>, s: Strike, h: map<string, Health>, alias: string)
    requires Explains(b, f, HealthOf(h, alias))
    ensures Explains(b, f + [s], HealthOf(Failed(b, h, alias, s.reason, s.at, s.retryAfter), alias))
  {
    assert (f + [s])[..|f|] == f;
  }

  /** After any history an alias's health is explained by its own failures since its last success. */
  lemma {:induction false} HistoryExplainsHealth(b: Breaker, history: seq<Event>, alias: string)
    ensures Explains(b, Recent(history, alias), HealthOf(AfterAll(b, history), alias))
  {
    if history != [] {
      var before, e := history[..|history| - 1], history[|history| - 1];
      HistoryExplainsHealth(b, before, alias);
      if e.alias == alias && e.Failure? {
        OneMoreStrike(b, Recent(before, alias), Strike(e.reason, e.at, e.retryAfter), AfterAll(b, before), alias);
      }
    }
  }

  /** The counter never reaches the threshold. */
  lemma BelowThreshold(b: Breaker, history: seq<Event>, alias: string)
    ensures 0 <= HealthOf(AfterAll(b, history), alias).failures < Threshold(b)
  {
    HistoryExplainsHealth(b, history, alias);
  }

  /** Events on other aliases have no effect, wherever they fall in the history. */
  lemma {:induction false} OthersDoNotMatter(b: Breaker, history: seq<Event>, other: seq<Event>, alias: string)
    requires Own(history, alias) == Own(other, alias)
    ensures HealthOf(AfterAll(b, history), alias) == HealthOf(AfterAll(b, other), alias)
    decreases |history| + |other|
  {
    if history != [] && history[|history| - 1].alias != alias {
      OthersDoNotMatter(b, history[..|history| - 1], other, alias);
    } else if other != [] && other[|other| - 1].alias != alias {
      OthersDoNotMatter(b, history, other[..|other| - 1], alias);
    } else if history != [] && other != [] {
      var x, y := history[|history| - 1], other[|other| - 1];
      assert Own(history, alias)[|Own(history, alias)| - 1] == x;
      assert Own(other, alias)[|Own(other, alias)| - 1] == y;
      assert Own(history, alias)[..|Own(history, alias)| - 1] == Own(history[..|history| - 1], alias);
      assert Own(other, alias)[..|Own(other, alias)| - 1] == Own(other[..|other| - 1], alias);
      OthersDoNotMatter(b, history[..|history| - 1], other[..|other| - 1], alias);
    }
  }

  ghost function Own(history: seq<Event>, alias: string): seq<Event> {
    if history == [] then []
    else
      var before, e := Own(history[..|history| - 1], alias), history[|history| - 1];
      if e.alias == alias then before + [e] else before
  }

  /** A later trip can end sooner: openUntil is not monotone. */
  lemma OpenUntilCanShrink()
    ensures var b := Breaker(3, 60);
      var long := [Failure("a", "rate limited", 0, 100)];
      HealthOf(AfterAll(b, long + [Failure("a", "rate limited", 1, 5)]), "a").openUntil
        < HealthOf(AfterAll(b, long), "a").openUntil
  {
    var b := Breaker(3, 60);
    var long := [Failure("a", "rate limited", 0, 100)];
    var both := long + [Failure("a", "rate limited", 1, 5)];
    assert both[..1] == long && long[..0] == [];
  }
}
