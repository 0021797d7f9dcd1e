/** Any number of requests on one runtime, their actions interleaved in any way. */
module Runs {
  import opened Prelude
  import opened GatewayState
  import opened Protocol
  import opened SessionFacts

  datatype Event = Event(who: nat, action: Action)

  // The shared state and, for each request that is followed, where it stands. Actions by a request
  // that is not followed are bound by nothing but the shared state.
  datatype World = World(shared: Shared, sessions: map<nat, Session>)

  ghost function Step(g: Setup, w: World, e: Event): Option<World> {
    match Apply(g, w.shared, e.action)
    case None => None
    case Some(shared) =>
      if e.who !in w.sessions then Some(w.(shared := shared))
      else
        match Advance(g, w.sessions[e.who], e.action)
        case None => None
        case Some(session) => Some(World(shared, w.sessions[e.who := session]))
  }

  ghost function Run(g: Setup, w: World, h: seq<Event>): Option<World> {
    if h == [] then Some(w)
    else
      match Run(g, w, h[..|h| - 1])
      case None => None
      case Some(v) => Step(g, v, h[|h| - 1])
  }

  ghost predicate Opening(w: World) {
    forall r :: r in w.sessions ==> w.sessions[r] == FRESH
  }

  // Every action is by a request that is followed.
  ghost predicate AllFollowed(w: World, h: seq<Event>) {
    forall i :: 0 <= i < |h| ==> h[i].who in w.sessions
  }

  lemma {:induction false} SameRequests(g: Setup, w: World, h: seq<Event>)
    requires Run(g, w, h).Some?
    ensures Run(g, w, h).value.sessions.Keys == w.sessions.Keys
  {
    if h != [] {
      SameRequests(g, w, h[..|h| - 1]);
    }
  }

  lemma {:induction false} PrefixRuns(g: Setup, w: World, h: seq<Event>, i: nat)
    requires i <= |h| && Run(g, w, h).Some?
    ensures Run(g, w, h[..i]).Some?
  {
    if i < |h| {
      assert h[..|h| - 1][..i] == h[..i];
      PrefixRuns(g, w, h[..|h| - 1], i);
    } else {
      assert h[..i] == h;
    }
  }

  // ---- one request at a time, or all together ----

  // A runtime at its start, following these requests.
  ghost function Following(shared: Shared, requests: set<nat>): World {
    World(shared, map r | r in requests :: FRESH)
  }

  /** Following requests one at a time is as good as following them together: a history that is a run
      for each of them on its own is a run for them all, and leaves each where it was on its own. */
  lemma {:induction false} RequestsCompose(g: Setup, shared: Shared, h: seq<Event>, requests: set<nat>)
    requires requests != {} && forall r :: r in requests ==> Run(g, Following(shared, {r}), h).Some?
    ensures Run(g, Following(shared, requests), h).Some?
    ensures Run(g, Following(shared, requests), h).value.sessions.Keys == requests
    ensures forall r :: r in requests ==> SameAlone(g, shared, h, requests, r)
  {
    if h == [] {
      assert forall r :: r in requests ==> Following(shared, {r}).sessions[r] == FRESH;
    } else {
      var front, e := h[..|h| - 1], h[|h| - 1];
      RequestsCompose(g, shared, front, requests);
      var r :| r in requests && (e.who in requests ==> r == e.who);
      assert SameAlone(g, shared, front, requests, r);
      var together := Run(g, Following(shared, requests), front).value;
      StepsCompose(g, Run(g, Following(shared, {r}), front).value, together, e, r);
      forall q | q in requests ensures SameAlone(g, shared, h, requests, q) {
        assert SameAlone(g, shared, front, requests, q);
        StepIsSame(g, Run(g, Following(shared, {q}), front).value, together, e, q);
      }
    }
  }

  // `alone` follows only r, and agrees with `together` about it.
  ghost predicate Agree(alone: World, together: World, r: nat) {
    && alone.shared == together.shared && alone.sessions.Keys == {r}
    && r in together.sessions && alone.sessions[r] == together.sessions[r]
  }

  lemma StepsCompose(g: Setup, alone: World, together: World, e: Event, r: nat)
    requires Agree(alone, together, r) && Step(g, alone, e).Some?
    requires e.who in together.sessions ==> e.who == r
    ensures Step(g, together, e).Some? && Step(g, together, e).value.sessions.Keys == together.sessions.Keys
  {
  }

  lemma StepIsSame(g: Setup, alone: World, together: World, e: Event, r: nat)
    requires Agree(alone, together, r) && Step(g, alone, e).Some? && Step(g, together, e).Some?
    ensures Agree(Step(g, alone, e).value, Step(g, together, e).value, r)
  {
  }

  ghost predicate SameAlone(g: Setup, shared: Shared, h: seq<Event>, requests: set<nat>, r: nat) {
    var alone, together := Run(g, Following(shared, {r}), h), Run(g, Following(shared, requests), h);
    alone.Some? && together.Some? && Agree(alone.value, together.value, r)
  }

  // ---- every request, at every point ----

  ghost predicate Sound(g: Setup, s: Session) {
    && (s.at.Fresh? ==> s == FRESH)
    && (s.at in {Fresh, Started} ==> s.ci == 0) && FallsBack(s)
    && Balanced(g, s) && Thrifty(s) && OneEvent(s) && Tidy(g, s) && (s.request.stream || OnTime(g, s))
  }

  lemma AdvanceKeepsSound(g: Setup, s: Session, a: Action)
    requires Sound(g, s) && g.cfg.requestTimeout > 0 && Advance(g, s, a).Some?
    ensures Sound(g, Advance(g, s, a).value)
  {
    AdvanceKeepsFallbacks(g, s, a);
    AdvanceKeepsBalance(g, s, a);
    AdvanceKeepsThrift(g, s, a);
    AdvanceKeepsOneEvent(g, s, a);
    AdvanceKeepsTidy(g, s, a);
    if !Advance(g, s, a).value.request.stream {
      AdvanceKeepsTime(g, s, a);
    }
  }

  /** In every interleaved run every request followed is sound at every point. */
  lemma {:induction false} RequestsAreSound(g: Setup, w: World, h: seq<Event>, r: nat)
    requires g.cfg.requestTimeout > 0 && Opening(w) && r in w.sessions && Run(g, w, h).Some?
    ensures r in Run(g, w, h).value.sessions && Sound(g, Run(g, w, h).value.sessions[r])
  {
    if h != [] {
      var before, e := Run(g, w, h[..|h| - 1]).value, h[|h| - 1];
      RequestsAreSound(g, w, h[..|h| - 1], r);
      if e.who == r {
        AdvanceKeepsSound(g, before.sessions[r], e.action);
      }
    }
  }

  /** A non-streaming request has never used more than its budget times the longest pool it visited,
      plus the time it was kept waiting; with one key per pool that is its deadline. */
  lemma TimeBound(g: Setup, w: World, h: seq<Event>, r: nat)
    requires g.cfg.requestTimeout > 0 && Opening(w) && r in w.sessions && Run(g, w, h).Some?
    ensures r in Run(g, w, h).value.sessions
    ensures var s := Run(g, w, h).value.sessions[r];
      !s.request.stream ==>
        && s.clock <= s.start + s.overhead + Max(1, s.widest) * g.cfg.requestTimeout
        && (s.widest <= 1 && !s.at.Fresh? ==> s.clock <= s.deadline + s.overhead)
  {
    RequestsAreSound(g, w, h, r);
    if !Run(g, w, h).value.sessions[r].request.stream {
      SoundMeansInTime(g, Run(g, w, h).value.sessions[r]);
    }
  }

  lemma SoundMeansInTime(g: Setup, s: Session)
    requires Sound(g, s) && !s.request.stream
    ensures s.clock <= s.start + s.overhead + Max(1, s.widest) * g.cfg.requestTimeout
    ensures s.widest <= 1 && !s.at.Fresh? ==> s.clock <= s.deadline + s.overhead
  {
  }

  // ---- metrics ----

  function AttemptsOf(s: Session): nat { s.ledger.attempts }
  function RecordedOf(s: Session): nat { s.ledger.recorded }
  function SuccessesOf(s: Session): nat { s.ledger.successes }
  function FallbacksOf(s: Session): nat { s.ledger.fallbacks }
  function ChargedOf(s: Session): nat { s.ledger.charged }
  function HitsOf(s: Session): nat { s.ledger.hits }
  function MissesOf(s: Session): nat { s.ledger.misses }
  function StoresOf(s: Session): nat { s.ledger.stores }
  function ModelAttempts(m: ModelMetric): nat { m.attempts }
  function ModelSuccesses(m: ModelMetric): nat { m.successes }
  function ModelFallbacks(m: ModelMetric): nat { m.fallbacks }

  ghost predicate ModelsBalance(models: map<string, ModelMetric>) {
    forall a :: a in models ==>
      (models[a].attempts == models[a].successes + models[a].failures && models[a].timeouts <= models[a].failures)
  }

  // Each shared counter is the sum of what the requests added to it.
  ghost predicate Books(w: World) {
    var m := w.shared.metrics;
    && m.attempts == Sum(w.sessions, AttemptsOf)
    && m.fallbacks == Sum(w.sessions, FallbacksOf)
    && m.hits == Sum(w.sessions, HitsOf)
    && m.misses == Sum(w.sessions, MissesOf)
    && m.stores == Sum(w.sessions, StoresOf)
    && Sum(m.models, ModelAttempts) == Sum(w.sessions, RecordedOf)
    && Sum(m.models, ModelSuccesses) == Sum(w.sessions, SuccessesOf)
    && Sum(m.models, ModelFallbacks) == Sum(w.sessions, ChargedOf)
    && ModelsBalance(m.models)
  }

  // What replacing request r's session does to each sum.
  lemma SessionSums(sessions: map<nat, Session>, r: nat, t: Session)
    requires r in sessions
    ensures var after, s := sessions[r := t], sessions[r];
      && Sum(after, AttemptsOf) == Sum(sessions, AttemptsOf) - AttemptsOf(s) + AttemptsOf(t)
      && Sum(after, RecordedOf) == Sum(sessions, RecordedOf) - RecordedOf(s) + RecordedOf(t)
      && Sum(after, SuccessesOf) == Sum(sessions, SuccessesOf) - SuccessesOf(s) + SuccessesOf(t)
      && Sum(after, FallbacksOf) == Sum(sessions, FallbacksOf) - FallbacksOf(s) + FallbacksOf(t)
      && Sum(after, ChargedOf) == Sum(sessions, ChargedOf) - ChargedOf(s) + ChargedOf(t)
      && Sum(after, HitsOf) == Sum(sessions, HitsOf) - HitsOf(s) + HitsOf(t)
      && Sum(after, MissesOf) == Sum(sessions, MissesOf) - MissesOf(s) + MissesOf(t)
      && Sum(after, StoresOf) == Sum(sessions, StoresOf) - StoresOf(s) + StoresOf(t)
  {
    SumUpdate(sessions, AttemptsOf, r, t);
    SumUpdate(sessions, RecordedOf, r, t);
    SumUpdate(sessions, SuccessesOf, r, t);
    SumUpdate(sessions, FallbacksOf, r, t);
    SumUpdate(sessions, ChargedOf, r, t);
    SumUpdate(sessions, HitsOf, r, t);
    SumUpdate(sessions, MissesOf, r, t);
    SumUpdate(sessions, StoresOf, r, t);
  }

  lemma ModelSums(models: map<string, ModelMetric>, alias: string, t: ModelMetric)
    ensures var after, m := models[alias := t], MetricOf(models, alias);
      && Sum(after, ModelAttempts) == Sum(models, ModelAttempts) - m.attempts + t.attempts
      && Sum(after, ModelSuccesses) == Sum(models, ModelSuccesses) - m.successes + t.successes
      && Sum(after, ModelFallbacks) == Sum(models, ModelFallbacks) - m.fallbacks + t.fallbacks
  {
    SumUpdate(models, ModelAttempts, alias, t);
    SumUpdate(models, ModelSuccesses, alias, t);
    SumUpdate(models, ModelFallbacks, alias, t);
  }

  // A step moves each shared counter by what it adds to the request's own ledger.
  lemma CountersMoveTogether(g: Setup, m: Shared, s: Session, a: Action)
    requires Apply(g, m, a).Some? && Advance(g, s, a).Some?
    ensures var x, y, l, k := m.metrics, Apply(g, m, a).value.metrics, s.ledger, Advance(g, s, a).value.ledger;
      && y.attempts - x.attempts == k.attempts - l.attempts
      && y.fallbacks - x.fallbacks == k.fallbacks - l.fallbacks
      && y.hits - x.hits == k.hits - l.hits
      && y.misses - x.misses == k.misses - l.misses
      && y.stores - x.stores == k.stores - l.stores
  {
    if Counts(a) {
      CountApplies(g, m, a);
    } else {
      NothingMoves(g, m, s, a);
    }
  }

  lemma NothingMoves(g: Setup, m: Shared, s: Session, a: Action)
    requires !Counts(a) && Apply(g, m, a).Some? && Advance(g, s, a).Some?
    ensures Apply(g, m, a).value.metrics == m.metrics && Advance(g, s, a).value.ledger == s.ledger
  {
  }

  lemma CountMovesNoModel(g: Setup, m: Shared, s: Session, a: Action)
    requires Counts(a) && !a.Record? && !a.ModelFallback? && Advance(g, s, a).Some? && ModelsBalance(m.metrics.models)
    ensures MovesWith(m.metrics.models, Counted(m.metrics, a).models, s.ledger, Advance(g, s, a).value.ledger)
  {
    assert Counted(m.metrics, a).models == m.metrics.models;
  }

  // Charging one model moves the sums by what that model gains.
  lemma OneModelMoves(models: map<string, ModelMetric>, alias: string, t: ModelMetric)
    requires ModelsBalance(models) && t.attempts == t.successes + t.failures && t.timeouts <= t.failures
    ensures var after, m := models[alias := t], MetricOf(models, alias);
      && Sum(after, ModelAttempts) - Sum(models, ModelAttempts) == t.attempts - m.attempts
      && Sum(after, ModelSuccesses) - Sum(models, ModelSuccesses) == t.successes - m.successes
      && Sum(after, ModelFallbacks) - Sum(models, ModelFallbacks) == t.fallbacks - m.fallbacks
      && ModelsBalance(after)
  {
    ModelSums(models, alias, t);
  }

  ghost predicate MovesWith(x: map<string, ModelMetric>, y: map<string, ModelMetric>, l: Ledger, k: Ledger) {
    && Sum(y, ModelAttempts) - Sum(x, ModelAttempts) == k.recorded - l.recorded
    && Sum(y, ModelSuccesses) - Sum(x, ModelSuccesses) == k.successes - l.successes
    && Sum(y, ModelFallbacks) - Sum(x, ModelFallbacks) == k.charged - l.charged
    && ModelsBalance(y)
  }

  lemma RecordMoves(g: Setup, m: Shared, s: Session, a: Action)
    requires a.Record? && Advance(g, s, a).Some? && ModelsBalance(m.metrics.models)
    ensures MovesWith(m.metrics.models, Counted(m.metrics, a).models, s.ledger, Advance(g, s, a).value.ledger)
  {
    var models := m.metrics.models;
    OneModelMoves(models, a.alias,
      WithAttempt(MetricOf(models, a.alias), a.latency, a.status, a.success, a.timeout, a.reason));
  }

  lemma FallbackMoves(g: Setup, m: Shared, s: Session, a: Action)
    requires a.ModelFallback? && Advance(g, s, a).Some? && ModelsBalance(m.metrics.models)
    ensures MovesWith(m.metrics.models, Counted(m.metrics, a).models, s.ledger, Advance(g, s, a).value.ledger)
  {
    var models := m.metrics.models;
    OneModelMoves(models, a.alias, WithFallback(MetricOf(models, a.alias), a.reason));
  }

  lemma ModelsMoveTogether(g: Setup, m: Shared, s: Session, a: Action)
    requires Apply(g, m, a).Some? && Advance(g, s, a).Some? && ModelsBalance(m.metrics.models)
    ensures MovesWith(m.metrics.models, Apply(g, m, a).value.metrics.models, s.ledger, Advance(g, s, a).value.ledger)
  {
    if !Counts(a) {
      NothingMoves(g, m, s, a);
    } else {
      CountApplies(g, m, a);
      if a.Record? {
        RecordMoves(g, m, s, a);
      } else if a.ModelFallback? {
        FallbackMoves(g, m, s, a);
      } else {
        CountMovesNoModel(g, m, s, a);
      }
    }
  }

  lemma StepKeepsBooks(g: Setup, w: World, e: Event)
    requires Books(w) && e.who in w.sessions && Step(g, w, e).Some?
    ensures Books(Step(g, w, e).value)
  {
    var s := w.sessions[e.who];
    SessionSums(w.sessions, e.who, Advance(g, s, e.action).value);
    CountersMoveTogether(g, w.shared, s, e.action);
    ModelsMoveTogether(g, w.shared, s, e.action);
  }

  // A runtime before its first request.
  ghost predicate NothingCounted(w: World) {
    w.shared.metrics == Metrics(0, 0, 0, 0, 0, map[])
  }

  lemma {:induction false} FreshSums(sessions: map<nat, Session>, f: Session -> nat)
    requires (forall r :: r in sessions ==> sessions[r] == FRESH) && f(FRESH) == 0
    ensures Sum(sessions, f) == 0
    decreases |sessions|
  {
    if r :| r in sessions {
      SumRemove(sessions, f, r);
      FreshSums(sessions - {r}, f);
    }
  }

  lemma {:induction false} RunsKeepBooks(g: Setup, w: World, h: seq<Event>)
    requires Opening(w) && NothingCounted(w) && AllFollowed(w, h) && Run(g, w, h).Some?
    ensures Books(Run(g, w, h).value)
  {
    if h == [] {
      FreshSums(w.sessions, AttemptsOf);
      FreshSums(w.sessions, RecordedOf);
      FreshSums(w.sessions, SuccessesOf);
      FreshSums(w.sessions, FallbacksOf);
      FreshSums(w.sessions, ChargedOf);
      FreshSums(w.sessions, HitsOf);
      FreshSums(w.sessions, MissesOf);
      FreshSums(w.sessions, StoresOf);
    } else {
      SameRequests(g, w, h[..|h| - 1]);
      RunsKeepBooks(g, w, h[..|h| - 1]);
      StepKeepsBooks(g, Run(g, w, h[..|h| - 1]).value, h[|h| - 1]);
    }
  }

  lemma {:induction false} SumsAdd<K, V>(m: map<K, V>, f: V -> nat, p: V -> nat, q: V -> nat)
    requires forall k :: k in m ==> f(m[k]) == p(m[k]) + q(m[k])
    ensures Sum(m, f) == Sum(m, p) + Sum(m, q)
    decreases |m|
  {
    if k :| k in m {
      SumRemove(m, f, k);
      SumRemove(m, p, k);
      SumRemove(m, q, k);
      SumsAdd(m - {k}, f, p, q);
    }
  }

  lemma {:induction false} SumsCompare<K, V>(m: map<K, V>, f: V -> nat, p: V -> nat)
    requires forall k :: k in m ==> f(m[k]) <= p(m[k])
    ensures Sum(m, f) <= Sum(m, p)
    decreases |m|
  {
    if k :| k in m {
      SumRemove(m, f, k);
      SumRemove(m, p, k);
      SumsCompare(m - {k}, f, p);
    }
  }

  function FlightOf(s: Session): nat { if InFlight(s) then 1 else 0 }
  function PendingOf(s: Session): nat { s.ledger.nameless + if s.at.Charged? then 1 else 0 }

  /** In every interleaved run: upstream attempts are the models' attempts plus the attempts in flight;
      fallbacks are the models' fallbacks plus those whose model is about to be charged or has no name;
      stores do not outnumber misses; and each model's attempts are its successes plus its failures,
      timeouts among them. */
  lemma MetricsAreConserved(g: Setup, w: World, h: seq<Event>)
    requires g.cfg.requestTimeout > 0
    requires Opening(w) && NothingCounted(w) && AllFollowed(w, h) && Run(g, w, h).Some?
    ensures var v := Run(g, w, h).value;
      var m := v.shared.metrics;
      && m.attempts == Sum(m.models, ModelAttempts) + Sum(v.sessions, FlightOf)
      && m.fallbacks == Sum(m.models, ModelFallbacks) + Sum(v.sessions, PendingOf)
      && m.stores <= m.misses
      && Sum(m.models, ModelSuccesses) <= |v.sessions|
      && ModelsBalance(m.models)
  {
    var v := Run(g, w, h).value;
    RunsKeepBooks(g, w, h);
    SameRequests(g, w, h);
    forall r | r in v.sessions ensures Balanced(g, v.sessions[r]) {
      RequestsAreSound(g, w, h, r);
    }
    SumsAdd(v.sessions, AttemptsOf, RecordedOf, FlightOf);
    SumsAdd(v.sessions, FallbacksOf, ChargedOf, PendingOf);
    SumsCompare(v.sessions, StoresOf, MissesOf);
    AtMostOneEach(v.sessions, SuccessesOf);
  }

  lemma {:induction false} AtMostOneEach(m: map<nat, Session>, f: Session -> nat)
    requires forall k :: k in m ==> f(m[k]) <= 1
    ensures Sum(m, f) <= |m|
    decreases |m|
  {
    if k :| k in m {
      SumRemove(m, f, k);
      assert m.Keys == (m - {k}).Keys + {k};
      AtMostOneEach(m - {k}, f);
    }
  }
}
