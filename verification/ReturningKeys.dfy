/** Routes that come back to a provider before its keys have recovered: there a route can keep the budget
    without fitting, since a key at work for one candidate is missing for the next. */
module ReturningKeys {
  import opened Prelude
  import opened Config
  import opened GatewayState
  import opened Protocol
  import opened SessionFacts
  import opened Runs
  import opened KeySafety
  import opened Spending
  import opened OverrunRuns
  import opened BudgetPromise
  import Pool = CredentialPool
  import Breaker = CircuitBreaker
  import Body = Completions
  import Gateway
  import opened ShippedRoutes

  // ---- attempts within the shortest cooldown ----

  type Keys = set<(string, nat)>

  // The keys the request has barred for longer than the first five seconds of its run.
  ghost function BarredLong(s: Session): Keys {
    Barred(s.disabled, s.cooled, s.start)
  }

  ghost function Barred(disabled: Keys, cooled: set<(string, nat, Time)>, start: Time): Keys {
    disabled + (set x | x in cooled && x.2 >= start + TRANSPORT_COOLDOWN :: (x.0, x.1))
  }

  ghost predicate Early(s: Session) { s.clock < s.start + TRANSPORT_COOLDOWN }

  // The current visit can still make the one attempt that need not bar its key.
  predicate HasFree(p: Point) { p in {Consulting, Consulted, Trying, Drawn} }

  ghost predicate Tallied(s: Session, all: Keys) {
    && BarredLong(s) <= all
    && (s.at in {Drawn, Calling, Answered, Noted} ==>
          (s.visit.candidate.provider, s.key) in all - BarredLong(s))
    && s.ledger.attempts <= |BarredLong(s)| + s.ci - (if HasFree(s.at) then 1 else 0)
    && (if s.ci == 0 then s.ledger.attempts == 0 && !InVisit(s.at) else s.ledger.attempts <= |all| - 1 + s.ci)
  }

  ghost predicate AllKeys(pools: map<string, Pool.State>, all: Keys) {
    forall name, k: nat :: IsKey(pools, name, k) ==> (name, k) in all
  }

  lemma RoomForOne(a: Keys, b: Keys, x: (string, nat))
    requires a <= b && x in b - a
    ensures |a| + 1 == |a + {x}| <= |b|
  {
    SubsetIsSmaller(a + {x}, b);
  }

  // A step that bars a key bars the one in hand.
  lemma BarringTallies(g: Setup, s: Session, a: Action, all: Keys)
    requires (a.Cool? || a.Disable?) && Tallied(s, all) && Advance(g, s, a).Some? && s.start <= s.clock
    ensures Tallied(Advance(g, s, a).value, all)
  {
    BarredAfter(g, s, a);
    BarringMoves(g, s, a);
    RoomForOne(BarredLong(s), all, (s.visit.candidate.provider, s.key));
  }

  lemma BarringMoves(g: Setup, s: Session, a: Action)
    requires (a.Cool? || a.Disable?) && Advance(g, s, a).Some? && s.start <= s.clock
    ensures var t := Advance(g, s, a).value;
      && s.at.Noted? && t.at in {Trying, Cooled} && t.ci == s.ci && t.ledger == s.ledger
      && (t.at.Trying? ==> a.Disable? || a.until >= s.start + TRANSPORT_COOLDOWN)
  {
    if a.Cool? && Advance(g, s, a).value.at.Trying? {
      LongEnough(g, s, a);
    }
  }

  // What goes on to the next key cools this one for five seconds at least.
  lemma LongEnough(g: Setup, s: Session, a: Action)
    requires a.Cool? && Advance(g, s, a).Some? && Advance(g, s, a).value.at.Trying?
    ensures a.until >= s.clock + TRANSPORT_COOLDOWN
  {
  }

  lemma BarredAfter(g: Setup, s: Session, a: Action)
    requires (a.Cool? || a.Disable?) && Advance(g, s, a).Some?
    ensures BarredLong(Advance(g, s, a).value) == BarredLong(s) +
      if a.Disable? || a.until >= s.start + TRANSPORT_COOLDOWN then {(s.visit.candidate.provider, s.key)} else {}
  {
    var t := Advance(g, s, a).value;
    if a.Cool? {
      assert t.cooled == s.cooled + {(s.visit.candidate.provider, s.key, a.until)} && t.disabled == s.disabled;
    }
  }

  // A draw finds a key the request has not barred.
  lemma DrawTallies(g: Setup, m: Shared, s: Session, a: Action, all: Keys)
    requires a.Draw? && Tallied(s, all) && Apply(g, m, a).Some? && Advance(g, s, a).Some?
    requires Respected(m.pools, s) && AllKeys(m.pools, all) && Early(s)
    ensures Tallied(Advance(g, s, a).value, all)
  {
    DrawMoves(g, s, a);
    assert BarredLong(Advance(g, s, a).value) == BarredLong(s);
    if a.picked.Some? {
      DrawnIsNotBarred(g, m, s, a.provider, a.now, a.picked.value);
    }
  }

  lemma DrawMoves(g: Setup, s: Session, a: Action)
    requires a.Draw? && Advance(g, s, a).Some?
    ensures s.at.Trying? && a.provider == s.visit.candidate.provider && a.now == s.clock
    ensures var t := Advance(g, s, a).value;
      if a.picked.None? then t == s.(at := Leaving)
      else t == s.(at := Drawn, key := a.picked.value, draws := s.draws + 1)
  {
  }

  lemma DrawnIsNotBarred(g: Setup, m: Shared, s: Session, name: string, now: Time, k: nat)
    requires Apply(g, m, Draw(name, now, Some(k))).Some?
    requires Respected(m.pools, s) && Early(s) && now == s.clock
    ensures IsKey(m.pools, name, k) && (name, k) !in BarredLong(s)
  {
    DrawnKeyIsUsable(g, m, name, now, k);
  }

  lemma CountTallies(g: Setup, s: Session, a: Action, all: Keys)
    requires a.CountAttempt? && Tallied(s, all) && Advance(g, s, a).Some?
    ensures Tallied(Advance(g, s, a).value, all)
  {
    RoomForOne(BarredLong(s), all, (s.visit.candidate.provider, s.key));
    assert BarredLong(Advance(g, s, a).value) == BarredLong(s);
  }

  // Any other step bars nothing, makes no attempt, and comes to candidates one by one.
  lemma OthersTally(g: Setup, s: Session, a: Action, all: Keys)
    requires !a.Cool? && !a.Disable? && !a.Draw? && !a.CountAttempt? && Tallied(s, all) && Advance(g, s, a).Some?
    requires s.at in {Fresh, Started} ==> s.ci == 0
    requires a.Begin? ==> s == FRESH
    ensures Tallied(Advance(g, s, a).value, all)
  {
    var t := Advance(g, s, a).value;
    BarsStay(g, s, a);
    PlaceMoves(g, s, a);
    if t.at in {Drawn, Calling, Answered, Noted} {
      KeyInHandStays(g, s, a);
    }
    assert !a.Begin? ==> BarredLong(t) == BarredLong(s);
    SubsetIsSmaller(BarredLong(s), all);
  }

  lemma BarsStay(g: Setup, s: Session, a: Action)
    requires !a.Cool? && !a.Disable? && !a.Draw? && !a.CountAttempt? && Advance(g, s, a).Some?
    requires a.Begin? ==> s == FRESH
    ensures var t := Advance(g, s, a).value;
      && t.disabled == s.disabled && t.cooled == s.cooled && t.ledger.attempts == s.ledger.attempts
      && (a.Begin? || t.start == s.start)
  {
  }

  lemma PlaceMoves(g: Setup, s: Session, a: Action)
    requires !a.Cool? && !a.Disable? && !a.Draw? && !a.CountAttempt? && Advance(g, s, a).Some?
    ensures var t := Advance(g, s, a).value;
      && (if a.Enter? then HasFree(t.at) && !HasFree(s.at) && t.ci == s.ci + 1
          else HasFree(t.at) ==> HasFree(s.at))
      && (t.ci == s.ci || t.ci == s.ci + 1 || a.Select?)
      && (InVisit(t.at) ==> InVisit(s.at) || a.Enter?)
  {
  }

  lemma KeyInHandStays(g: Setup, s: Session, a: Action)
    requires !a.Cool? && !a.Disable? && !a.Draw? && !a.CountAttempt? && Advance(g, s, a).Some?
    requires Advance(g, s, a).value.at in {Drawn, Calling, Answered, Noted}
    ensures var t := Advance(g, s, a).value;
      s.at in {Drawn, Calling, Answered, Noted} && t.visit == s.visit && t.key == s.key
  {
  }

  lemma StepTallies(g: Setup, m: Shared, s: Session, a: Action, all: Keys)
    requires Apply(g, m, a).Some? && Advance(g, s, a).Some? && Tallied(s, all)
    requires Respected(m.pools, s) && AllKeys(m.pools, all) && s.start <= s.clock && (Early(s) || a.Begin?)
    requires s.at in {Fresh, Started} ==> s.ci == 0
    requires s.at.Fresh? ==> s == FRESH
    ensures Tallied(Advance(g, s, a).value, all)
  {
    if a.Cool? || a.Disable? {
      BarringTallies(g, s, a, all);
    } else if a.Draw? {
      DrawTallies(g, m, s, a, all);
    } else if a.CountAttempt? {
      CountTallies(g, s, a, all);
    } else {
      OthersTally(g, s, a, all);
    }
  }

  lemma EarlyBefore(g: Setup, s: Session, a: Action)
    requires Advance(g, s, a).Some? && Early(Advance(g, s, a).value) && !a.Begin?
    requires (a.Exchanged? ==> a.exchange.took >= 0)
    ensures Early(s)
  {
  }

  /** In the first five seconds of its run a non-streaming request makes fewer attempts than there are keys
      and candidates come to together: only the last attempt with a candidate leaves its key unbarred. */
  lemma {:induction false} EarlyAttempts(g: Setup, w: World, h: seq<Event>, r: nat, all: Keys)
    requires g.cfg.requestTimeout > 0 && Opening(w) && r in w.sessions && Run(g, w, h).Some?
    requires AllKeys(w.shared.pools, all)
    requires r in Run(g, w, h).value.sessions && Early(Run(g, w, h).value.sessions[r])
    requires !Run(g, w, h).value.sessions[r].request.stream
    ensures Tallied(Run(g, w, h).value.sessions[r], all)
  {
    if h != [] {
      var front, e := h[..|h| - 1], h[|h| - 1];
      var before := Run(g, w, front).value;
      SameRequests(g, w, front);
      RequestsAreSound(g, w, front, r);
      BarsAreRespected(g, w, front, r);
      RequestsAreFrugal(g, w, front, r);
      RunsRestrict(g, w, front);
      var s := before.sessions[r];
      if e.who == r {
        RequestStays(g, s, e.action);
        if e.action.Begin? {
          assert s == FRESH && BarredLong(s) == {};
        } else {
          EarlyBefore(g, s, e.action);
          EarlyAttempts(g, w, front, r, all);
        }
        StepTallies(g, before.shared, s, e.action, all);
      } else {
        EarlyAttempts(g, w, front, r, all);
      }
    } else {
      assert BarredLong(FRESH) == {};
    }
  }

  // ---- attempts of a nanosecond ----

  ghost predicate Ticking(g: Setup, s: Session) {
    (forall c :: c in s.candidates ==> Whole(g, c) <= 1) ==>
      s.clock <= s.start + s.overhead + s.ledger.attempts - if s.at.Calling? then 1 else 0
  }

  lemma StepTicks(g: Setup, m: Shared, s: Session, a: Action)
    requires g.cfg.requestTimeout > 0 && Apply(g, m, a).Some? && Advance(g, s, a).Some? && Ticking(g, s)
    requires Sound(g, s) && Frugal(g, m.pools, s) && !Advance(g, s, a).value.request.stream
    ensures Ticking(g, Advance(g, s, a).value)
  {
    if a.Exchanged? {
      assert s.visit.candidate in s.candidates;
    } else if !a.Begin? && !a.Select? {
      OthersTick(g, s, a);
    }
  }

  lemma OthersTick(g: Setup, s: Session, a: Action)
    requires !a.Exchanged? && !a.Begin? && !a.Select? && Advance(g, s, a).Some? && Ticking(g, s)
    ensures Ticking(g, Advance(g, s, a).value)
  {
    TimeOnlyWaits(g, s, a);
  }

  // Any other step takes no time but waiting, and comes to the call after the attempt is counted.
  lemma TimeOnlyWaits(g: Setup, s: Session, a: Action)
    requires !a.Exchanged? && !a.Begin? && !a.Select? && Advance(g, s, a).Some?
    ensures var t := Advance(g, s, a).value;
      && t.candidates == s.candidates && t.start == s.start && t.clock - t.overhead == s.clock - s.overhead
      && !s.at.Calling?
      && t.ledger.attempts == s.ledger.attempts + (if t.at.Calling? then 1 else 0)
  {
  }

  lemma {:induction false} RunsTick(g: Setup, w: World, h: seq<Event>, r: nat)
    requires g.cfg.requestTimeout > 0 && Opening(w) && r in w.sessions && Run(g, w, h).Some?
    requires r in Run(g, w, h).value.sessions && !Run(g, w, h).value.sessions[r].request.stream
    ensures Ticking(g, Run(g, w, h).value.sessions[r])
  {
    if h != [] {
      var front, e := h[..|h| - 1], h[|h| - 1];
      var before := Run(g, w, front).value;
      SameRequests(g, w, front);
      RequestsAreSound(g, w, front, r);
      RequestsAreFrugal(g, w, front, r);
      if e.who == r {
        RequestStays(g, before.sessions[r], e.action);
        RunsTick(g, w, front, r);
        StepTicks(g, before.shared, before.sessions[r], e.action);
      } else {
        RunsTick(g, w, front, r);
      }
    }
  }

  // ---- routes that do not fit, and keep the budget or break it ----

  // Two models of one provider.
  function Returning(keys: seq<string>, timeout: Duration, budget: Duration): Config {
    Config(
      "localhost", 1, budget, Breaker(1, 1), ResponseCache(false, 1, 1, 1, 1, []),
      map["p" := Provider("openai", "http://p", keys)],
      map["x" := Model("p", "x", map[], timeout), "y" := Model("p", "y", map[], timeout)],
      map["both" := ["x", "y"]])
  }

  const X := Breaker.Candidate("x", "p", "x")
  const Y := Breaker.Candidate("y", "p", "y")

  lemma ReturningRoute(codec: Body.Codec, a: string, b: string, timeout: Duration, budget: Duration, start: Time,
                       me: nat)
    requires a != "" && b != "" && ZERO_TIME <= start && 0 < timeout <= budget
    ensures var cfg := Returning([a, b], timeout, budget);
      && Found(Setup(cfg, codec), map[], "both", start) == [X, Y]
      && PoolSize(Gateway.Startup(cfg, me).shared.pools, "p") == 2
      && Whole(Setup(cfg, codec), X) == timeout == Whole(Setup(cfg, codec), Y)
  {
    TwoKeys(a, b);
    AllClosed(Returning([a, b], timeout, budget), ["x", "y"], start);
  }

  lemma ReturningSpend(g: Setup, pools: map<string, Pool.State>, timeout: nat)
    requires g.cfg.requestTimeout > 0 && PoolSize(pools, "p") == 2 && Whole(g, X) == timeout == Whole(g, Y)
    ensures Spend(g, pools, [X, Y], 0) == 0 && Spend(g, pools, [X, Y], 1) == 2 * timeout
    ensures Spend(g, pools, [X, Y], 2) == 4 * timeout
    ensures timeout < KEY_COOLDOWN ==> !Spared(g, pools, [X, Y], 0) && Sure(g, pools, [X, Y], 1) == timeout
  {
    assert [X, Y][0] == X && [X, Y][1] == Y;
    assert Spend(g, pools, [X, Y], 1) == 2 * timeout;
    assert Sure(g, pools, [X, Y], 0) == 0;
  }

  /** Without the condition that keys recover, fitting is not what decides: this route has two keys and does
      not fit, for its four attempts could take four nanoseconds; yet it keeps its budget of three, for the
      fourth attempt would need a third key. */
  lemma KeptWithoutFitting(codec: Body.Codec, a: string, b: string, start: Time, me: nat)
    requires a != "" && b != "" && ZERO_TIME <= start
    ensures var cfg := Returning([a, b], 1, 3);
      var g, w := Setup(cfg, codec), Gateway.Startup(cfg, me); var candidates := Found(g, map[], "both", start);
      && !KeysRecover(g, w.shared.pools, candidates) && !Fits(g, w.shared.pools, candidates)
      && KeepsBudget(g, w, me, candidates)
  {
    var cfg := Returning([a, b], 1, 3);
    var g, w := Setup(cfg, codec), Gateway.Startup(cfg, me);
    var pools := w.shared.pools;
    ReturningRoute(codec, a, b, 1, 3, start, me);
    ReturningSpend(g, pools, 1);
    assert !FitsAt(g, pools, [X, Y], 1);
    assert !Spared(g, pools, [X, Y], 0) && !Overlong(g, pools, [X, Y], 0);
    forall h ensures RunsWithin(g, w, me, [X, Y], h) {
      if Run(g, w, h).Some? {
        SameRequests(g, w, h);
        FewAttempts(g, w, h, me, [X, Y], {("p", 0), ("p", 1)});
      }
    }
  }

  /** And with attempts of eight seconds in a budget of twenty the same route overshoots: one attempt on the
      first model, then two on the second, the last with the first key again, end after twenty-four. */
  lemma BrokenWithoutRecovering(codec: Body.Codec, a: string, b: string, start: Time, me: nat)
    requires a != "" && b != "" && ZERO_TIME <= start
    ensures var cfg := Returning([a, b], 8 * SECOND, 20 * SECOND);
      var g, w := Setup(cfg, codec), Gateway.Startup(cfg, me); var candidates := Found(g, map[], "both", start);
      && !KeysRecover(g, w.shared.pools, candidates)
      && |candidates| == 2 && Overshoots(g, w.shared.pools, candidates, 1)
  {
    var cfg := Returning([a, b], 8 * SECOND, 20 * SECOND);
    var g, pools := Setup(cfg, codec), Gateway.Startup(cfg, me).shared.pools;
    ReturningRoute(codec, a, b, 8 * SECOND, 20 * SECOND, start, me);
    ReturningSpend(g, pools, 8 * SECOND);
    assert !Spared(g, pools, [X, Y], 0) && !Overlong(g, pools, [X, Y], 0);
  }

  // With attempts of a nanosecond each, the time is within the number of attempts.
  lemma FewAttempts(g: Setup, w: World, h: seq<Event>, r: nat, candidates: seq<Breaker.Candidate>, all: Keys)
    requires Opening(w) && r in w.sessions && Run(g, w, h).Some? && r in Run(g, w, h).value.sessions
    requires |candidates| == 2 && |all| == 2 && AllKeys(w.shared.pools, all) && g.cfg.requestTimeout == 3
    requires forall c :: c in candidates ==> Whole(g, c) <= 1
    requires forall n :: 0 <= n <= 2 ==> Spend(g, w.shared.pools, candidates, n) <= 4
    ensures RunsWithin(g, w, r, candidates, h)
  {
    var v := Run(g, w, h).value;
    var s := v.sessions[r];
    if s.candidates == candidates && !s.request.stream && s.overhead == 0 {
      RequestsAreSound(g, w, h, r);
      RequestsAreFrugal(g, w, h, r);
      RunsRestrict(g, w, h);
      SpendStays(g, w.shared.pools, v.shared.pools, candidates, s.ci);
      RunsTick(g, w, h, r);
      EarlyAttempts(g, w, h, r, all);
    }
  }
}
