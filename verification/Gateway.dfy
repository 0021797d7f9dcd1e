/** internal/gateway/server.go: the runtime and the fallback engine, among other requests. */
module Gateway {
  import opened Prelude
  import opened Config
  import opened KeyFraming
  import opened GatewayState
  import opened Protocol
  import opened Runs
  import opened Scripts
  import KeySafety
  import Spending
  import Pool = CredentialPool
  import Breaker = CircuitBreaker
  import Cache = ResponseCache
  import Body = Completions
  import Provider
  import Text

  // Where the key loop goes after one key.
  datatype Flow = NextKey | NextModel | Return(result: Outcome)

  class Gateway {
    const setup: Setup
    const router: Breaker.Router
    const cache: Cache.Memory
    const pools: map<string, Pool.Pool>
    const upstream: Upstream
    const script: Script
    var metrics: Metrics
    var clock: Time
    var asked: nat   // attempts made
    var turn: nat    // waits made

    // The request under study, and the whole run so far: its actions and everyone else's.
    ghost const me: nat
    ghost const opening: World
    ghost var history: seq<Event>
    ghost var world: World

    ghost function Abs(): Shared
      reads this`metrics, router`health, cache`entries, pools.Values
    {
      Shared(map p | p in pools :: pools[p].Model(), router.health, cache.entries, metrics)
    }

    ghost predicate Sane()
      reads this`history, this`world, cache
    {
      && Configured(setup)
      && router.cfg == setup.cfg && cache.budget == BudgetOf(setup) && cache.Valid()
      && pools.Keys == setup.cfg.providers.Keys
      && (forall p, q :: p in pools && q in pools && pools[p] == pools[q] ==> p == q)
      && opening.sessions == map[me := FRESH]
      && me in world.sessions && world.sessions.Keys == {me}
      && Run(setup, opening, history) == Some(world) && Scripted(setup, opening, history, me, upstream, script)
    }

    ghost predicate Configured(g: Setup) {
      g.cfg.requestTimeout > 0 && (g.cfg.cache.enabled ==> SoundCache(g.cfg.cache))
    }

    /** The run so far is a legal one, and leads to the present state. */
    ghost predicate Valid()
      reads this, router, cache, pools.Values
    {
      && Sane() && world.shared == Abs() && (!S().at.Fresh? ==> clock == S().clock)
      && asked == |Exchanges(history, me)| && turn == Waits(history, me)
    }

    // Where the request under study stands.
    ghost function S(): Session
      requires me in world.sessions
      reads this`world
    {
      world.sessions[me]
    }

    // S as it was, but for the passing of time.
    ghost function At(s: Session): Session
      requires me in world.sessions
      reads this`world
    {
      s.(clock := S().clock, overhead := S().overhead)
    }

    ghost method Log(who: nat, a: Action)
      requires Sane() && Apply(setup, world.shared, a) == Some(Abs())
      requires who == me ==> Advance(setup, S(), a).Some?
      requires Follows(setup, opening, history, Event(who, a), me, upstream, script)
      modifies this`history, this`world
      ensures Sane() && world.shared == Abs() && history == old(history) + [Event(who, a)]
      ensures S() == if who == me then Advance(setup, old(S()), a).value else old(S())
      ensures |Exchanges(history, me)| == old(|Exchanges(history, me)|) + if who == me && a.Exchanged? then 1 else 0
      ensures Waits(history, me) == old(Waits(history, me)) + if who == me && a.Wait? then 1 else 0
    {
      assert (history + [Event(who, a)])[..|history|] == history;
      OneMoreScripted(setup, opening, history, Event(who, a), me, upstream, script);
      world := Step(setup, world, Event(who, a)).value;
      history := history + [Event(who, a)];
    }

    constructor (setup: Setup, pools: map<string, Pool.Pool>, upstream: Upstream, script: Script, start: Time,
                 ghost me: nat, ghost keys: map<string, Pool.State>)
      requires setup.cfg.requestTimeout > 0 && (setup.cfg.cache.enabled ==> SoundCache(setup.cfg.cache))
      requires pools.Keys == setup.cfg.providers.Keys && keys == map p | p in pools :: pools[p].Model()
      requires forall p, q :: p in pools && q in pools && pools[p] == pools[q] ==> p == q
      ensures Valid() && S() == FRESH && history == [] && this.pools == pools && this.setup == setup && this.me == me
      ensures this.upstream == upstream && this.script == script && clock == start && fresh(router) && fresh(cache)
      ensures opening == Following(Shared(keys, map[], map[], Metrics(0, 0, 0, 0, 0, map[])), {me})
    {
      this.setup, this.pools, this.upstream, this.script, this.me := setup, pools, upstream, script, me;
      router := new Breaker.Router(setup.cfg);
      cache := new Cache.Memory(BudgetOf(setup));
      metrics := Metrics(0, 0, 0, 0, 0, map[]);
      clock, asked, turn := start, 0, 0;
      history := [];
      ghost var shared := Shared(keys, map[], map[], Metrics(0, 0, 0, 0, 0, map[]));
      NothingYet(setup, shared, me, upstream, script);
      opening, world := Following(shared, {me}), Following(shared, {me});
      new;
      assert Abs().pools == keys;
    }

    // ---- the atomic actions ----

    // Whoever acts, the action is logged, and it must be the request's to take if it is the request's.
    twostate predicate Did(who: nat, a: Action)
      reads this, router, cache, pools.Values
    {
      && Valid() && history == old(history) + [Event(who, a)]
      && (who == me && old(me in world.sessions) && Advance(setup, old(S()), a).Some? ==>
            S() == Advance(setup, old(S()), a).value)
      && (who != me && old(me in world.sessions) ==> S() == old(S()))
    }

    ghost predicate MayDraw(provider: string, now: Time)
      requires me in world.sessions
      reads this`world
    {
      S().at.Trying? && S().draws < S().visit.limit && provider == S().visit.candidate.provider && now == S().clock
    }

    ghost predicate MayConsult(key: string, now: Time)
      requires me in world.sessions
      reads this`world
    {
      S().at.Consulting? && key == KeyFor(setup, S().visit.sent) && now == S().clock
    }

    ghost predicate MayKeep(key: string, value: Cache.Response, ttl: Duration, now: Time)
      requires me in world.sessions
      reads this`world
    {
      && S().at.Pleased? && !S().open && Keeps(setup, S()) && key == KeyFor(setup, S().visit.sent)
      && value == Received(S().exchange) && ttl == setup.cfg.cache.ttl && now == S().clock
    }

    // A call on one pool changes nothing else.
    twostate lemma OnlyOnePool(provider: string)
      requires provider in pools && old(Sane())
      requires unchanged(this, router, cache)
      requires forall p :: p in pools && p != provider ==> unchanged(pools[p])
      ensures Abs() == OnPool(old(Abs()), provider, pools[provider].Model())
    {
      assert Abs().pools == old(Abs()).pools[provider := pools[provider].Model()];
    }

    method TakeKey(ghost who: nat, provider: string, now: Time) returns (picked: Option<nat>)
      requires Valid() && provider in pools
      requires who == me ==> MayDraw(provider, now)
      requires who == me || Crowded(script)
      modifies this`history, this`world, pools.Values
      ensures Did(who, Draw(provider, now, picked))
    {
      picked := DrawFrom(provider, now);
      OnlyOnePool(provider);
      Log(who, Draw(provider, now, picked));
    }

    method DrawFrom(provider: string, now: Time) returns (picked: Option<nat>)
      requires provider in pools && provider in world.shared.pools
      requires world.shared.pools[provider] == pools[provider].Model()
      modifies pools[provider]
      ensures Apply(setup, world.shared, Draw(provider, now, picked))
        == Some(OnPool(world.shared, provider, pools[provider].Model()))
    {
      var value;
      picked, value := pools[provider].Next(now);
    }

    method CoolKey(ghost who: nat, provider: string, idx: int, until: Time)
      requires Valid() && provider in pools
      requires who == me ==> Advance(setup, S(), Cool(provider, idx, until)).Some?
      requires who == me || Crowded(script)
      modifies this`history, this`world, pools.Values
      ensures Did(who, Cool(provider, idx, until))
    {
      pools[provider].Cooldown(idx, until);
      OnlyOnePool(provider);
      Log(who, Cool(provider, idx, until));
    }

    method DisableKey(ghost who: nat, provider: string, idx: int)
      requires Valid() && provider in pools
      requires who == me ==> Advance(setup, S(), Disable(provider, idx)).Some?
      requires who == me || Crowded(script)
      modifies this`history, this`world, pools.Values
      ensures Did(who, Disable(provider, idx))
    {
      pools[provider].Disable(idx);
      OnlyOnePool(provider);
      Log(who, Disable(provider, idx));
    }

    method PraiseModel(ghost who: nat, alias: string)
      requires Valid()
      requires who == me ==> Advance(setup, S(), Praise(alias)).Some?
      requires who == me || Crowded(script)
      modifies this`history, this`world, router
      ensures Did(who, Praise(alias))
    {
      router.Success(alias);
      assert Abs() == old(Abs()).(health := router.health);
      Log(who, Praise(alias));
    }

    method BlameModel(ghost who: nat, alias: string, reason: string, now: Time, retryAfter: Duration)
      requires Valid()
      requires who == me ==> Advance(setup, S(), Blame(alias, reason, now, retryAfter)).Some?
      requires who == me || Crowded(script)
      modifies this`history, this`world, router
      ensures Did(who, Blame(alias, reason, now, retryAfter))
    {
      Fail(alias, reason, now, retryAfter);
      assert Abs() == old(Abs()).(health := router.health);
      Log(who, Blame(alias, reason, now, retryAfter));
    }

    method Fail(alias: string, reason: string, now: Time, retryAfter: Duration)
      requires world.shared.health == router.health && router.cfg == setup.cfg
      modifies router
      ensures Apply(setup, world.shared, Blame(alias, reason, now, retryAfter))
        == Some(world.shared.(health := router.health))
    {
      router.Failure(alias, reason, now, retryAfter);
    }

    method Consult(ghost who: nat, key: string, now: Time) returns (hit: Option<Cache.Response>)
      requires Valid()
      requires who == me ==> MayConsult(key, now)
      requires who == me || Crowded(script)
      modifies this`history, this`world, cache
      ensures Did(who, LookUp(key, now, hit))
    {
      hit := Find(key, now);
      assert Abs() == old(Abs()).(cache := cache.entries);
      Log(who, LookUp(key, now, hit));
    }

    method Find(key: string, now: Time) returns (hit: Option<Cache.Response>)
      requires cache.Valid() && world.shared.cache == cache.entries
      modifies cache
      ensures cache.Valid()
      ensures Apply(setup, world.shared, LookUp(key, now, hit)) == Some(world.shared.(cache := cache.entries))
    {
      hit := cache.Get(key, now);
    }

    method Keep(ghost who: nat, key: string, value: Cache.Response, ttl: Duration, now: Time)
      returns (stored: bool, ghost victims: seq<string>)
      requires Valid()
      requires who == me ==> MayKeep(key, value, ttl, now)
      requires who == me || Crowded(script)
      modifies this`history, this`world, cache
      ensures Did(who, Store(key, value, ttl, now, stored, victims))
    {
      stored, victims := Remember(key, value, ttl, now);
      assert Abs() == old(Abs()).(cache := cache.entries);
      Log(who, Store(key, value, ttl, now, stored, victims));
    }

    method Remember(key: string, value: Cache.Response, ttl: Duration, now: Time)
      returns (stored: bool, ghost victims: seq<string>)
      requires cache.Valid() && cache.budget == BudgetOf(setup) && world.shared.cache == cache.entries
      modifies cache
      ensures cache.Valid()
      ensures Apply(setup, world.shared, Store(key, value, ttl, now, stored, victims))
        == Some(world.shared.(cache := cache.entries))
    {
      stored, victims := cache.Set(key, value, ttl, now);
      StoreApplies(setup, world.shared, key, value, ttl, now, stored, victims, cache.entries);
    }

    method Measure(ghost who: nat, now: Time)
      requires Valid() && who != me
      requires Crowded(script)
      modifies this`history, this`world, cache
      ensures Did(who, Prune(now))
    {
      Shrink(now);
      assert Abs() == old(Abs()).(cache := cache.entries);
      Log(who, Prune(now));
    }

    method Shrink(now: Time)
      requires cache.Valid() && world.shared.cache == cache.entries
      modifies cache
      ensures cache.Valid()
      ensures Apply(setup, world.shared, Prune(now)) == Some(world.shared.(cache := cache.entries))
    {
      var _ := cache.Len(now);
    }

    method Count(ghost who: nat, a: Action)
      requires Valid() && Counts(a)
      requires who == me ==> Advance(setup, S(), a).Some?
      requires who == me || Crowded(script)
      modifies this`metrics, this`history, this`world
      ensures Did(who, a)
    {
      Bump(a);
      CountApplies(setup, world.shared, a);
      if who == me {
        CountingTakesNoTime(setup, S(), a);
        assert !a.Wait? && !a.Exchanged?;
      }
      assert Abs() == old(Abs()).(metrics := metrics);
      Log(who, a);
    }

    method Bump(a: Action)
      requires Counts(a)
      modifies this`metrics
      ensures metrics == Counted(old(metrics), a)
    {
      match a {
        case CountAttempt => metrics := metrics.(attempts := metrics.attempts + 1);
        case CountFallback => metrics := metrics.(fallbacks := metrics.fallbacks + 1);
        case CountHit => metrics := metrics.(hits := metrics.hits + 1);
        case CountMiss => metrics := metrics.(misses := metrics.misses + 1);
        case CountStore => metrics := metrics.(stores := metrics.stores + 1);
        case ModelFallback(alias, reason) => RecordModelFallback(alias, reason);
        case Record(alias, latency, status, success, timeout, reason) =>
          RecordModelAttempt(alias, latency, status, success, timeout, reason);
      }
    }

    // ---- what other requests do ----

    // `other` is any request but the one under study.
    method Interfere(op: Op, ghost other: nat)
      requires Valid() && other != me
      requires Crowded(script)
      modifies this`metrics, this`history, this`world, router, cache, pools.Values
      ensures Valid() && S() == old(S()) && old(history) <= history
    {
      match op {
        case Next(provider, now) =>
          if provider in pools {
            var _ := TakeKey(other, provider, now);
          }
        case Cooldown(provider, idx, until) =>
          if provider in pools {
            CoolKey(other, provider, idx, until);
          }
        case Disabling(provider, idx) =>
          if provider in pools {
            DisableKey(other, provider, idx);
          }
        case Success(alias) => PraiseModel(other, alias);
        case Failure(alias, reason, now, retryAfter) => BlameModel(other, alias, reason, now, retryAfter);
        case Get(key, now) =>
          var _ := Consult(other, key, now);
        case Set(key, value, ttl, now) =>
          var _, _ := Keep(other, key, value, ttl, now);
        case Size(now) => Measure(other, now);
        case Counting(a) =>
          if Counts(a) {
            Count(other, a);
          }
      }
    }

    method RecordModelAttempt(alias: string, latency: Duration, status: int, success: bool, timeout: bool,
                              reason: string)
      modifies this`metrics
      ensures metrics == old(metrics).(models := old(metrics).models[alias :=
        WithAttempt(MetricOf(old(metrics).models, alias), latency, status, success, timeout, reason)])
      ensures metrics.models.Keys == old(metrics).models.Keys + {alias}
      ensures var m, was := metrics.models[alias], MetricOf(old(metrics).models, alias);
        && m.attempts == was.attempts + 1
        && m.successes == (if success then was.successes + 1 else was.successes)
        && m.failures == (if success then was.failures else was.failures + 1)
        && m.timeouts == (if timeout then was.timeouts + 1 else was.timeouts)
        && m.totalLatency == was.totalLatency + latency && m.lastLatency == latency && m.lastStatus == status
        && m.lastReason == (if reason == "" then was.lastReason else reason) && m.fallbacks == was.fallbacks
    {
      var m := if alias in metrics.models then metrics.models[alias] else NO_METRIC;
      m := m.(attempts := m.attempts + 1);
      if success {
        m := m.(successes := m.successes + 1);
      } else {
        m := m.(failures := m.failures + 1);
      }
      if timeout {
        m := m.(timeouts := m.timeouts + 1);
      }
      m := m.(totalLatency := m.totalLatency + latency, lastLatency := latency, lastStatus := status);
      if reason != "" {
        m := m.(lastReason := reason);
      }
      metrics := metrics.(models := metrics.models[alias := m]);
    }

    method RecordModelFallback(alias: string, reason: string)
      modifies this`metrics
      ensures metrics == if alias == "" then old(metrics) else
        old(metrics).(models := old(metrics).models[alias :=
          WithFallback(MetricOf(old(metrics).models, alias), reason)])
      ensures alias != "" ==>
        var m, was := metrics.models[alias], MetricOf(old(metrics).models, alias);
        m == was.(fallbacks := was.fallbacks + 1, lastReason := if reason == "" then was.lastReason else reason)
    {
      if alias == "" {
        return;
      }
      var m := if alias in metrics.models then metrics.models[alias] else NO_METRIC;
      m := m.(fallbacks := m.fallbacks + 1);
      if reason != "" {
        m := m.(lastReason := reason);
      }
      metrics := metrics.(models := metrics.models[alias := m]);
    }

    // ---- the request under study ----

    // A step that touches nothing shared.
    ghost method Tell(a: Action)
      requires Valid() && Apply(setup, world.shared, a) == Some(world.shared)
      requires Advance(setup, S(), a).Some? && Advance(setup, S(), a).value.clock == S().clock
      requires !a.Begin? && !a.Wait? && !a.Exchanged?
      modifies this`history, this`world
      ensures Did(me, a)
    {
      Log(me, a);
    }

    // The request is over.
    ghost method End(result: Outcome)
      requires Valid() && MayFinish(setup, S(), result)
      modifies this`history, this`world
      ensures Valid() && old(history) <= history
      ensures S() == old(S()).(at := Done, result := result)
    {
      Tell(Finish(result));
    }

    // The upstream body is closed.
    ghost method Shut()
      requires Valid() && S().open
      requires (S().at.Answered? && !StaysOpen(setup, S())) || (S().at.Pleased? && Keeps(setup, S()))
      modifies this`history, this`world
      ensures Valid() && old(history) <= history && S() == old(S()).(open := false)
    {
      Tell(Close);
    }

    /** Time passes, and others act. */
    method Pause()
      requires Valid() && S().at !in {Fresh, Calling, Done}
      modifies this`metrics, this`clock, this`turn, this`history, this`world, router, cache, pools.Values
      ensures Valid() && S() == At(old(S())) && old(history) <= history
    {
      var t := script(turn);
      Elapse();
      for i := 0 to |t.others|
        invariant Valid() && S() == At(old(S())) && old(history) <= history
      {
        Interfere(t.others[i].op, if t.others[i].who != me then t.others[i].who else me + 1);
      }
    }

    method Elapse()
      requires Valid() && S().at !in {Fresh, Calling, Done}
      modifies this`clock, this`turn, this`history, this`world
      ensures Did(me, Wait(script(old(turn)).wait))
    {
      var time := script(turn).wait;
      WaitAdvances(setup, S(), time);
      clock, turn := clock + time, turn + 1;
      Log(me, Wait(time));
    }

    // One attempt upstream with the key drawn.
    method Attempt(v: Visit, r: Request, key: nat) returns (x: Exchange)
      requires Valid() && S().at.Calling? && S().visit == v && S().request == r && S().key == key && v.timeout > 0
      modifies this`clock, this`asked, this`history, this`world
      ensures Did(me, Exchanged(v.sent, key, x)) && InTime(S(), x) && S().at.Answered?
    {
      x := Settled(upstream(asked), v.timeout, r);
      SettledAdvances(setup, S(), upstream(asked));
      asked, clock := asked + 1, clock + x.took;
      Log(me, Exchanged(v.sent, key, x));
    }

    // The same request on the same visit.
    ghost predicate SameVisit(s: Session)
      requires me in world.sessions
      reads this`world
    {
      && S().request == s.request && S().start == s.start && S().deadline == s.deadline
      && S().candidates == s.candidates && S().ci == s.ci && S().visit == s.visit
    }

    // Where the key loop stands after one key.
    ghost predicate Followed(s: Session, flow: Flow)
      requires me in world.sessions
      reads this`world
    {
      && SameVisit(s)
      && (flow.NextKey? ==> S().at.Trying? && S().draws == s.draws)
      && (flow.NextModel? ==> MayLeave(setup, S()))
      && (flow.Return? ==> S().at.Done? && S().result == flow.result)
    }

    method Note(v: Visit, x: Exchange, verdict: Verdict)
      requires Valid() && S().at.Answered? && S().visit == v && S().exchange == x && Judgement(setup, S()) == verdict
      requires S().open == StaysOpen(setup, S())
      modifies this`metrics, this`clock, this`turn, this`history, this`world, router, cache, pools.Values
      ensures Valid() && old(history) <= history
      ensures S() == At(old(S())).(at := Noted, ledger := S().ledger)
    {
      Pause();
      NoteNow(v, x, verdict);
    }

    method NoteNow(v: Visit, x: Exchange, verdict: Verdict)
      requires Valid() && S().at.Answered? && S().visit == v && S().exchange == x && Judgement(setup, S()) == verdict
      requires S().open == StaysOpen(setup, S())
      modifies this`metrics, this`history, this`world
      ensures Valid() && old(history) <= history
      ensures S() == old(S()).(at := Noted, ledger := S().ledger)
    {
      var (status, success, timeout, reason) := Recorded(verdict, x);
      RecordAdvances(setup, S());
      Count(me, Record(v.candidate.alias, x.took, status, success, timeout, reason));
    }

    method BlameFor(v: Visit, reason: string, retryAfter: Duration)
      requires Valid() && S().at in {Noted, Cooled} && S().visit == v
      requires Blames(Judgement(setup, S()), S().exchange) == Some((reason, retryAfter))
      requires S().at.Noted? ==> CoolsFor(Judgement(setup, S())).None?
      modifies this`metrics, this`clock, this`turn, this`history, this`world, router, cache, pools.Values
      ensures Valid() && old(history) <= history && S().at.Leaving? && SameVisit(old(S()))
    {
      Pause();
      BlameNow(v, reason, retryAfter);
    }

    method BlameNow(v: Visit, reason: string, retryAfter: Duration)
      requires Valid() && S().at in {Noted, Cooled} && S().visit == v
      requires Blames(Judgement(setup, S()), S().exchange) == Some((reason, retryAfter))
      requires S().at.Noted? ==> CoolsFor(Judgement(setup, S())).None?
      modifies this`history, this`world, router
      ensures Valid() && old(history) <= history
      ensures S() == old(S()).(at := Leaving, events := S().events)
    {
      BlameModel(me, v.candidate.alias, reason, clock, retryAfter);
    }

    method CoolFor(v: Visit, key: nat, time: Duration)
      requires Valid() && S().at.Noted? && S().visit == v && S().key == key
      requires CoolsFor(Judgement(setup, S())) == Some(time) && v.candidate.provider in pools
      modifies this`metrics, this`clock, this`turn, this`history, this`world, router, cache, pools.Values
      ensures Valid() && old(history) <= history
      ensures S() == At(old(S())).(at := S().at, cooled := S().cooled)
      ensures var verdict := Judgement(setup, S());
        S().at == if verdict.Rejected? && verdict.decision.action.FallbackModel? then Cooled else Trying
    {
      Pause();
      CoolNow(v, key, time);
    }

    method CoolNow(v: Visit, key: nat, time: Duration)
      requires Valid() && S().at.Noted? && S().visit == v && S().key == key
      requires CoolsFor(Judgement(setup, S())) == Some(time) && v.candidate.provider in pools
      modifies this`history, this`world, pools.Values
      ensures Valid() && old(history) <= history
      ensures S() == old(S()).(at := S().at, cooled := S().cooled)
      ensures var verdict := Judgement(setup, S());
        S().at == if verdict.Rejected? && verdict.decision.action.FallbackModel? then Cooled else Trying
    {
      CoolKey(me, v.candidate.provider, key, clock + time);
    }

    // No answer: the client left, the attempt timed out, or the connection failed.
    method OnNoAnswer(v: Visit, key: nat, x: Exchange) returns (flow: Flow)
      requires Valid() && S().at.Answered? && S().visit == v && S().exchange == x && S().key == key
      requires !x.Answer? && !S().open
      requires v.candidate.provider in pools
      modifies this`metrics, this`clock, this`turn, this`history, this`world, router, cache, pools.Values
      ensures Valid() && old(history) <= history && Followed(old(S()), flow)
    {
      match x {
        case Cancelled(_) =>
          OnClientGone(v, x);
          return Return(ClientGone);
        case TimedOut(_) =>
          Note(v, x, Late);
          BlameFor(v, "attempt_timeout", 0);
          return NextModel;
        case Unreachable(_) =>
          Note(v, x, Down);
          CoolFor(v, key, 5 * SECOND);
          return NextKey;
      }
    }

    method OnClientGone(v: Visit, x: Exchange)
      requires Valid() && S().at.Answered? && S().visit == v && S().exchange == x && x.Cancelled? && !S().open
      modifies this`metrics, this`clock, this`turn, this`history, this`world, router, cache, pools.Values
      ensures Valid() && old(history) <= history
      ensures S() == At(old(S())).(at := Done, result := ClientGone, ledger := S().ledger)
    {
      Note(v, x, Gone);
      End(ClientGone);
    }

    // An error status.
    method OnRejection(v: Visit, key: nat, x: Exchange, resp: Body.Response) returns (flow: Flow)
      requires Valid() && S().at.Answered? && S().visit == v && S().exchange == x && S().key == key && S().open
      requires v.candidate.provider in pools
      requires x.Answer? && !Successful(x.status) && resp.Transparent() && resp.upstream == x.body
      modifies this`metrics, this`clock, this`turn, this`history, this`world, router, cache, pools.Values, resp
      ensures Valid() && old(history) <= history && Followed(old(S()), flow)
      ensures resp.closed
    {
      var errBody := ReadError(x, resp);
      var kind := KindOf(setup, v.candidate.provider);
      var decision := Provider.Classify(kind, x.status, setup.codec.asText(errBody), x.retryAfter);
      flow := OnDecision(v, key, x, decision, errBody);
    }

    method ReadError(x: Exchange, resp: Body.Response) returns (errBody: Bytes)
      requires Valid() && S().at.Answered? && S().exchange == x && S().open
      requires x.Answer? && !Successful(x.status) && resp.Transparent() && resp.upstream == x.body
      modifies this`history, this`world, resp
      ensures Valid() && old(history) <= history && S() == old(S()).(open := false)
      ensures resp.closed && errBody == ErrorBody(x)
    {
      var failed, rest;
      errBody, failed, rest := Body.ReadLimited(resp.body, ERROR_BODY_LIMIT);
      resp.Close();
      Shut();
    }

    // What the decision does to the key, the model and the request.
    method OnDecision(v: Visit, key: nat, x: Exchange, decision: Provider.Decision, errBody: Bytes) returns (flow: Flow)
      requires Valid() && S().at.Answered? && S().visit == v && S().exchange == x && S().key == key && !S().open
      requires v.candidate.provider in pools
      requires x.Answer? && errBody == ErrorBody(x) && Judgement(setup, S()) == Rejected(decision)
      modifies this`metrics, this`clock, this`turn, this`history, this`world, router, cache, pools.Values
      ensures Valid() && old(history) <= history && Followed(old(S()), flow)
    {
      Note(v, x, Rejected(decision));
      match decision.action {
        case DisableKey =>
          OnUnauthorized(v, key, decision);
          return NextKey;
        case RetryKey =>
          CoolFor(v, key, Max(decision.retryAfter, 10 * SECOND));
          return NextKey;
        case FallbackModel =>
          OnCapacity(v, key, x, decision);
          return NextModel;
        case SkipModel =>
          return NextModel;
        case Terminal =>
          flow := OnTerminal(x, decision, errBody);
      }
    }

    method OnUnauthorized(v: Visit, key: nat, decision: Provider.Decision)
      requires Valid() && S().at.Noted? && S().visit == v && S().key == key && v.candidate.provider in pools
      requires Judgement(setup, S()) == Rejected(decision) && decision.action.DisableKey?
      modifies this`metrics, this`clock, this`turn, this`history, this`world, router, cache, pools.Values
      ensures Valid() && old(history) <= history && SameVisit(old(S())) && S().at.Trying? && S().draws == old(S()).draws
    {
      Pause();
      BarKey(v, key, decision);
    }

    method BarKey(v: Visit, key: nat, decision: Provider.Decision)
      requires Valid() && S().at.Noted? && S().visit == v && S().key == key && v.candidate.provider in pools
      requires Judgement(setup, S()) == Rejected(decision) && decision.action.DisableKey?
      modifies this`history, this`world, pools.Values
      ensures Valid() && old(history) <= history
      ensures S() == old(S()).(at := Trying, disabled := S().disabled)
    {
      DisableKey(me, v.candidate.provider, key);
    }

    method OnTerminal(x: Exchange, decision: Provider.Decision, errBody: Bytes) returns (flow: Flow)
      requires Valid() && S().at.Noted? && S().exchange == x && x.Answer? && errBody == ErrorBody(x)
      requires Judgement(setup, S()) == Rejected(decision) && decision.action.Terminal?
      modifies this`history, this`world
      ensures Valid() && old(history) <= history
      ensures flow.Return? && S() == old(S()).(at := Done, result := flow.result)
    {
      var result := Reply(Cache.Response(x.status, x.header, errBody), false, false);
      End(result);
      return Return(result);
    }

    method OnCapacity(v: Visit, key: nat, x: Exchange, decision: Provider.Decision)
      requires Valid() && S().at.Noted? && S().visit == v && S().exchange == x && S().key == key
      requires v.candidate.provider in pools
      requires x.Answer? && Judgement(setup, S()) == Rejected(decision) && decision.action.FallbackModel?
      modifies this`metrics, this`clock, this`turn, this`history, this`world, router, cache, pools.Values
      ensures Valid() && old(history) <= history && SameVisit(old(S())) && S().at.Leaving?
    {
      if decision.cooldownCredential {
        CoolFor(v, key, MinPositive(decision.retryAfter, 10 * SECOND));
      }
      var reason := decision.reason;
      if reason == "" {
        reason := Text.Decimal(x.status);
      }
      BlameFor(v, reason, decision.retryAfter);
    }

    // resp still gives its caller exactly what upstream sent in x.
    ghost predicate Over(x: Exchange, resp: Body.Response)
      requires x.Answer?
      reads resp
    {
      && resp.status == x.status && resp.header == x.header && resp.upstream == x.body
      && resp.Transparent() && Body.Fails(resp.body) == x.broken
    }

    // A success status.
    method OnSuccess(v: Visit, r: Request, x: Exchange, resp: Body.Response) returns (flow: Flow)
      requires Valid() && S().at.Answered? && S().visit == v && S().request == r && S().exchange == x && S().open
      requires x.Answer? && Successful(x.status) && Over(x, resp) && !resp.closed
      modifies this`metrics, this`clock, this`turn, this`history, this`world, router, cache, pools.Values, resp
      ensures Valid() && old(history) <= history && Followed(old(S()), flow)
      ensures flow.Return? || resp.closed
    {
      if Probes(r) {
        flow := OnProbed(v, r, x, resp);
      } else {
        flow := OnAccepted(v, x, resp);
      }
    }

    // A success that is read and judged.
    method OnProbed(v: Visit, r: Request, x: Exchange, resp: Body.Response) returns (flow: Flow)
      requires Valid() && S().at.Answered? && S().visit == v && S().request == r && S().exchange == x && S().open
      requires x.Answer? && Successful(x.status) && Probes(r) && Over(x, resp) && !resp.closed
      modifies this`metrics, this`clock, this`turn, this`history, this`world, router, cache, pools.Values, resp
      ensures Valid() && old(history) <= history && Followed(old(S()), flow)
      ensures flow.Return? || resp.closed
    {
      var useful := Probe(v, r, x, resp);
      if useful.Err? {
        Discard(v, x, "invalid_success_response");
        return NextModel;
      }
      if useful.value.Useless? {
        resp.Close();
        Discard(v, x, useful.value.reason);
        return NextModel;
      }
      flow := OnAccepted(v, x, resp);
    }

    method Probe(v: Visit, r: Request, x: Exchange, resp: Body.Response)
      returns (useful: Prelude.Result<Body.Usefulness, string>)
      requires Valid() && S().at.Answered? && S().visit == v && S().request == r && S().exchange == x && S().open
      requires x.Answer? && Successful(x.status) && Probes(r) && Over(x, resp) && !resp.closed
      modifies this`history, this`world, resp
      ensures Valid() && old(history) <= history && S() == old(S()).(open := !resp.closed)
      ensures useful.Err? ==> Judgement(setup, S()) == Unusable("invalid_success_response") && resp.closed
      ensures useful.Ok? && useful.value.Useless? ==>
        Judgement(setup, S()) == Unusable(useful.value.reason) && resp.closed
      ensures useful.Ok? && useful.value.Useful? ==>
        Judgement(setup, S()) == Accepted && Over(x, resp) && S().open == StaysOpen(setup, S())
    {
      useful := resp.Probe(setup.codec, v.sent.body);
      if resp.closed {
        Shut();
      }
    }

    method Discard(v: Visit, x: Exchange, reason: string)
      requires Valid() && S().at.Answered? && S().visit == v && S().exchange == x && !S().open
      requires x.Answer? && Judgement(setup, S()) == Unusable(reason)
      modifies this`metrics, this`clock, this`turn, this`history, this`world, router, cache, pools.Values
      ensures Valid() && old(history) <= history && SameVisit(old(S())) && S().at.Leaving?
    {
      Note(v, x, Unusable(reason));
      BlameFor(v, reason, 0);
    }

    method OnAccepted(v: Visit, x: Exchange, resp: Body.Response) returns (flow: Flow)
      requires Valid() && S().at.Answered? && S().visit == v && S().exchange == x && Judgement(setup, S()) == Accepted
      requires x.Answer? && Over(x, resp) && StaysOpen(setup, S()) == S().open == !resp.closed
      modifies this`metrics, this`clock, this`turn, this`history, this`world, router, cache, pools.Values, resp
      ensures Valid() && old(history) <= history && Followed(old(S()), flow) && flow.Return?
    {
      Approve(v, x);
      if v.cacheable {
        SnapshotAndStore(v, x, resp);
      }
      flow := Deliver(x, resp);
    }

    method Approve(v: Visit, x: Exchange)
      requires Valid() && S().at.Answered? && S().visit == v && S().exchange == x && Judgement(setup, S()) == Accepted
      requires S().open == StaysOpen(setup, S())
      modifies this`metrics, this`clock, this`turn, this`history, this`world, router, cache, pools.Values
      ensures Valid() && old(history) <= history
      ensures SameVisit(old(S())) && S().at.Pleased? && S().exchange == x && S().open == old(S()).open
    {
      Note(v, x, Accepted);
      PraiseFor(v);
    }

    method PraiseFor(v: Visit)
      requires Valid() && S().at.Noted? && S().visit == v && Judgement(setup, S()) == Accepted
      modifies this`metrics, this`clock, this`turn, this`history, this`world, router, cache, pools.Values
      ensures Valid() && old(history) <= history
      ensures S() == At(old(S())).(at := Pleased, events := S().events)
    {
      Pause();
      PraiseNow(v);
    }

    method PraiseNow(v: Visit)
      requires Valid() && S().at.Noted? && S().visit == v && Judgement(setup, S()) == Accepted
      modifies this`history, this`world, router
      ensures Valid() && old(history) <= history
      ensures S() == old(S()).(at := Pleased, events := S().events)
    {
      PraiseModel(me, v.candidate.alias);
    }

    method Deliver(x: Exchange, resp: Body.Response) returns (flow: Flow)
      requires Valid() && S().exchange == x && x.Answer? && Over(x, resp) && S().open == !resp.closed
      requires S().at.Delivering? || (S().at.Pleased? && !Keeps(setup, S()))
      modifies this`history, this`world
      ensures Valid() && old(history) <= history && Followed(old(S()), flow) && flow.Return?
    {
      var response := Cache.Response(resp.status, resp.header, Body.Drained(resp.body));
      var result := Reply(response, Body.Fails(resp.body), !resp.closed);
      End(result);
      return Return(result);
    }

    method SnapshotAndStore(v: Visit, x: Exchange, resp: Body.Response)
      requires Valid() && S().at.Pleased? && S().visit == v && S().exchange == x && v.cacheable
      requires x.Answer? && Over(x, resp) && S().open == !resp.closed
      modifies this`metrics, this`clock, this`turn, this`history, this`world, router, cache, pools.Values, resp
      ensures Valid() && old(history) <= history && SameVisit(old(S())) && S().exchange == x
      ensures Over(x, resp) && S().open == !resp.closed
      ensures S().at == if Keeps(setup, S()) then Delivering else Pleased
    {
      var whole := Snapshot(v, x, resp);
      if whole.Some? {
        Pause();
        KeepWhole(v, x, Cache.Response(resp.status, resp.header, whole.value));
      }
    }

    method Snapshot(v: Visit, x: Exchange, resp: Body.Response) returns (whole: Option<Bytes>)
      requires Valid() && S().at.Pleased? && S().visit == v && S().exchange == x && v.cacheable
      requires x.Answer? && Over(x, resp) && S().open == !resp.closed
      modifies this`history, this`world, resp
      ensures Valid() && old(history) <= history && S() == old(S()).(open := !resp.closed)
      ensures Over(x, resp) && (whole.Some? <==> Keeps(setup, S()))
      ensures whole.Some? ==> whole.value == x.body && resp.closed
    {
      var limit := setup.cfg.cache.maxBodyBytes;
      if limit < 0 {
        return None;
      }
      whole := resp.Snapshot(limit);
      if S().open && resp.closed {
        Shut();
      }
    }

    method KeepWhole(v: Visit, x: Exchange, value: Cache.Response)
      requires Valid() && S().at.Pleased? && S().visit == v && S().exchange == x && !S().open
      requires Keeps(setup, S()) && value == Received(x)
      modifies this`metrics, this`clock, this`turn, this`history, this`world, router, cache, pools.Values
      ensures Valid() && old(history) <= history
      ensures SameVisit(old(S())) && S().exchange == x && !S().open && S().at.Delivering?
    {
      var key := Key(v.sent, setup.codec.digest);
      var stored := StoreWhole(v, x, key, value);
      if stored {
        RecordStored();
      }
    }

    method RecordStored()
      requires Valid() && S().at.Stored?
      modifies this`metrics, this`clock, this`turn, this`history, this`world, router, cache, pools.Values
      ensures Valid() && old(history) <= history
      ensures SameVisit(old(S())) && S().exchange == old(S()).exchange && S().open == old(S()).open
      ensures S().at.Delivering?
    {
      Pause();
      RecordStore();
    }

    method StoreWhole(v: Visit, x: Exchange, key: string, value: Cache.Response) returns (stored: bool)
      requires Valid() && S().at.Pleased? && S().visit == v && S().exchange == x && !S().open
      requires key == KeyFor(setup, v.sent)
      requires Keeps(setup, S()) && value == Received(x)
      modifies this`history, this`world, cache
      ensures Valid() && old(history) <= history && SameVisit(old(S()))
      ensures S().exchange == x && !S().open && S().at == if stored then Stored else Delivering
    {
      ghost var victims;
      stored, victims := Keep(me, key, value, setup.cfg.cache.ttl, clock);
    }

    method RecordStore()
      requires Valid() && S().at.Stored?
      modifies this`metrics, this`history, this`world
      ensures Valid() && old(history) <= history
      ensures S() == old(S()).(at := Delivering, ledger := S().ledger)
    {
      Count(me, CountStore);
    }

    // One key: draw it, make the attempt, and act on what comes of it.
    method TryKey(v: Visit, r: Request) returns (flow: Flow)
      requires Valid() && S().at.Trying? && S().visit == v && S().request == r && S().draws < v.limit && !S().open
      requires v.candidate.provider in pools && v.timeout > 0
      modifies this`metrics, this`clock, this`asked, this`turn, this`history, this`world, router, cache, pools.Values
      ensures Valid() && old(history) <= history && SameVisit(old(S()))
      ensures flow.NextKey? ==> S().at.Trying? && S().draws == old(S()).draws + 1 && !S().open
      ensures flow.NextModel? ==> MayLeave(setup, S())
      ensures flow.Return? ==> S().at.Done? && S().result == flow.result
    {
      var picked := DrawKey(v);
      if picked.None? {
        return NextModel;
      }
      flow := UseKey(v, r, picked.value);
      SoundNow();
    }

    method UseKey(v: Visit, r: Request, key: nat) returns (flow: Flow)
      requires Valid() && S().at.Calling? && S().visit == v && S().request == r && S().key == key
      requires v.candidate.provider in pools && v.timeout > 0
      modifies this`metrics, this`clock, this`asked, this`turn, this`history, this`world, router, cache, pools.Values
      ensures Valid() && old(history) <= history && Followed(old(S()), flow)
    {
      var x := Attempt(v, r, key);
      flow := OnExchange(v, r, key, x);
    }

    method DrawKey(v: Visit) returns (picked: Option<nat>)
      requires Valid() && S().at.Trying? && S().visit == v && S().draws < v.limit && v.candidate.provider in pools
      modifies this`metrics, this`clock, this`turn, this`history, this`world, router, cache, pools.Values
      ensures Valid() && old(history) <= history && SameVisit(old(S())) && S().open == old(S()).open
      ensures picked.None? ==> S().at.Leaving?
      ensures picked.Some? ==> S().at.Calling? && S().key == picked.value && S().draws == old(S()).draws + 1
    {
      picked := PickKey(v);
      if picked.Some? {
        Pause();
        BeginAttempt();
      }
    }

    method PickKey(v: Visit) returns (picked: Option<nat>)
      requires Valid() && S().at.Trying? && S().visit == v && S().draws < v.limit && v.candidate.provider in pools
      modifies this`metrics, this`clock, this`turn, this`history, this`world, router, cache, pools.Values
      ensures Valid() && old(history) <= history
      ensures S() == At(old(S())).(at := S().at, key := S().key, draws := S().draws)
      ensures picked.None? ==> S().at.Leaving?
      ensures picked.Some? ==> S().at.Drawn? && S().key == picked.value && S().draws == old(S()).draws + 1
    {
      Pause();
      picked := PickNow(v);
    }

    method PickNow(v: Visit) returns (picked: Option<nat>)
      requires Valid() && S().at.Trying? && S().visit == v && S().draws < v.limit && v.candidate.provider in pools
      modifies this`history, this`world, pools.Values
      ensures Valid() && old(history) <= history
      ensures S() == if picked.None? then old(S()).(at := Leaving)
        else old(S()).(at := Drawn, key := picked.value, draws := old(S()).draws + 1)
    {
      picked := TakeKey(me, v.candidate.provider, clock);
    }

    method BeginAttempt()
      requires Valid() && S().at.Drawn?
      modifies this`metrics, this`history, this`world
      ensures Valid() && old(history) <= history
      ensures S() == old(S()).(at := Calling, ledger := S().ledger)
    {
      Count(me, CountAttempt);
    }

    method OnExchange(v: Visit, r: Request, key: nat, x: Exchange) returns (flow: Flow)
      requires Valid() && S().at.Answered? && S().visit == v && S().request == r && S().key == key
      requires S().exchange == x && S().open == x.Answer? && v.candidate.provider in pools
      modifies this`metrics, this`clock, this`turn, this`history, this`world, router, cache, pools.Values
      ensures Valid() && old(history) <= history && Followed(old(S()), flow)
    {
      if !x.Answer? {
        flow := OnNoAnswer(v, key, x);
        return;
      }
      var resp := new Body.Response(x.status, x.header, x.body, x.broken);
      if Successful(x.status) {
        flow := OnSuccess(v, r, x, resp);
      } else {
        flow := OnRejection(v, key, x, resp);
      }
    }

    // The key loop on one candidate: at most one attempt per key the pool holds.
    method TryKeys(v: Visit, r: Request) returns (result: Option<Outcome>)
      requires Valid() && S().at.Trying? && S().visit == v && S().request == r && S().draws == 0 && !S().open
      requires v.candidate.provider in pools && v.timeout > 0
      modifies this`metrics, this`clock, this`asked, this`turn, this`history, this`world, router, cache, pools.Values
      ensures Valid() && old(history) <= history && SameVisit(old(S()))
      ensures result.None? ==> S().at.Between?
      ensures result.Some? ==> S().at.Done? && S().result == result.value
    {
      var maxKeyAttempts := v.limit;
      var keyAttempt := 0;
      while keyAttempt < maxKeyAttempts
        invariant 0 <= keyAttempt <= maxKeyAttempts
        invariant Valid() && old(history) <= history && SameVisit(old(S()))
        invariant (S().at.Trying? && S().draws == keyAttempt && !S().open)
          || (keyAttempt == maxKeyAttempts && MayLeave(setup, S()))
      {
        var flow := TryKey(v, r);
        match flow {
          case NextKey => keyAttempt := keyAttempt + 1;
          case NextModel => keyAttempt := maxKeyAttempts;
          case Return(outcome) => return Some(outcome);
        }
      }
      Tell(Leave);
      return None;
    }

    // The cache, before any upstream attempt.
    method ConsultCache(v: Visit) returns (result: Option<Outcome>)
      requires Valid() && S().at.Consulting? && S().visit == v
      modifies this`metrics, this`clock, this`turn, this`history, this`world, router, cache, pools.Values
      ensures Valid() && old(history) <= history && SameVisit(old(S()))
      ensures result.None? ==> S().at.Trying? && S().draws == old(S()).draws && S().open == old(S()).open
      ensures result.Some? ==> S().at.Done? && S().result == result.value
    {
      Pause();
      var hit := AskCache(v);
      match hit {
        case Some(cached) =>
          result := Replay(cached);
        case None =>
          Pause();
          RecordMiss();
          result := None;
      }
    }

    method AskCache(v: Visit) returns (hit: Option<Cache.Response>)
      requires Valid() && S().at.Consulting? && S().visit == v
      modifies this`history, this`world, cache
      ensures Valid() && old(history) <= history
      ensures S() == old(S()).(at := Consulted, hit := hit)
    {
      var key := Key(v.sent, setup.codec.digest);
      hit := AskFor(v, key);
    }

    method AskFor(v: Visit, key: string) returns (hit: Option<Cache.Response>)
      requires Valid() && S().at.Consulting? && S().visit == v && key == KeyFor(setup, v.sent)
      modifies this`history, this`world, cache
      ensures Valid() && old(history) <= history
      ensures S() == old(S()).(at := Consulted, hit := hit)
    {
      hit := Consult(me, key, clock);
    }

    method Replay(cached: Cache.Response) returns (result: Option<Outcome>)
      requires Valid() && S().at.Consulted? && S().hit == Some(cached)
      modifies this`metrics, this`clock, this`turn, this`history, this`world, router, cache, pools.Values
      ensures Valid() && old(history) <= history && SameVisit(old(S()))
      ensures result.Some? && S().at.Done? && S().result == result.value
    {
      Pause();
      RecordHit();
      Serve(cached);
      return Some(Reply(cached, false, false));
    }

    ghost method Serve(cached: Cache.Response)
      requires Valid() && S().at.Replaying? && S().hit == Some(cached)
      modifies this`history, this`world
      ensures Valid() && old(history) <= history
      ensures S() == old(S()).(at := Done, result := Reply(cached, false, false))
    {
      End(Reply(cached, false, false));
    }

    method RecordHit()
      requires Valid() && S().at.Consulted? && S().hit.Some?
      modifies this`metrics, this`history, this`world
      ensures Valid() && old(history) <= history
      ensures S() == old(S()).(at := Replaying, ledger := S().ledger)
    {
      Count(me, CountHit);
    }

    method RecordMiss()
      requires Valid() && S().at.Consulted? && S().hit.None?
      modifies this`metrics, this`history, this`world
      ensures Valid() && old(history) <= history
      ensures S() == old(S()).(at := Trying, ledger := S().ledger)
    {
      Count(me, CountMiss);
    }

    // The same candidates in the same place.
    ghost predicate SameRoute(s: Session)
      requires me in world.sessions
      reads this`world
    {
      && S().request == s.request && S().start == s.start && S().deadline == s.deadline
      && S().candidates == s.candidates
    }

    // The same route, come as far.
    ghost predicate Onward(s: Session)
      requires me in world.sessions
      reads this`world
    {
      SameRoute(s) && S().ci == s.ci && S().open == s.open
    }

    // The candidate just left has this alias, and another is to come.
    ghost predicate Leaves(alias: string)
      requires me in world.sessions
      reads this`world
    {
      0 < S().ci < |S().candidates| && alias == S().candidates[S().ci - 1].alias
    }

    // Moving past a candidate counts as a fallback from it.
    method ChargeFallback(alias: string)
      requires Valid() && S().at.Between? && Leaves(alias)
      modifies this`metrics, this`clock, this`turn, this`history, this`world, router, cache, pools.Values
      ensures Valid() && old(history) <= history && Onward(old(S())) && S().at.Arrived?
    {
      RecordGlobalFallback(alias);
      RecordFallback(alias);
    }

    method RecordGlobalFallback(alias: string)
      requires Valid() && S().at.Between? && Leaves(alias)
      modifies this`metrics, this`clock, this`turn, this`history, this`world, router, cache, pools.Values
      ensures Valid() && old(history) <= history && Onward(old(S())) && S().at.Charged? && Leaves(alias)
    {
      Pause();
      CountGlobalFallback(alias);
    }

    method CountGlobalFallback(alias: string)
      requires Valid() && S().at.Between? && Leaves(alias)
      modifies this`metrics, this`history, this`world
      ensures Valid() && old(history) <= history && Onward(old(S())) && S().at.Charged? && Leaves(alias)
    {
      Count(me, CountFallback);
    }

    method RecordFallback(alias: string)
      requires Valid() && S().at.Charged? && Leaves(alias)
      modifies this`metrics, this`clock, this`turn, this`history, this`world, router, cache, pools.Values
      ensures Valid() && old(history) <= history && Onward(old(S())) && S().at.Arrived?
    {
      Pause();
      ChargeModel(alias);
    }

    method ChargeModel(alias: string)
      requires Valid() && S().at.Charged? && Leaves(alias)
      modifies this`metrics, this`history, this`world
      ensures Valid() && old(history) <= history
      ensures S() == old(S()).(at := Arrived, ledger := S().ledger)
    {
      Count(me, ModelFallback(alias, "route_fallback"));
    }

    // The visit to a candidate with a pool, while there is time.
    method EnterCandidate(candidate: Breaker.Candidate, r: Request, deadline: Time)
      returns (v: Option<Visit>, failure: Outcome)
      requires Valid() && AtCandidate(S()) && candidate == S().candidates[S().ci] && candidate.provider in pools
      requires r == S().request && deadline == S().deadline
      modifies this`history, this`world
      ensures Valid() && old(history) <= history && SameRoute(old(S()))
      ensures v.None? ==> S().at.Done? && S().result == failure
      ensures v.Some? ==>
        && S().visit == v.value && S().ci == old(S()).ci + 1 && S().draws == 0 && S().open == old(S()).open
        && S().at == (if v.value.cacheable then Consulting else Trying)
        && v.value.candidate == candidate && v.value.timeout > 0
    {
      var remaining := deadline - clock;
      if remaining <= 0 {
        End(Expired);
        return None, Expired;
      }
      var patched := PatchFor(setup, r, candidate);
      if patched.None? {
        End(Unpatchable);
        return None, Unpatchable;
      }
      var visit := Arrange(candidate, r, remaining, patched.value);
      return Some(visit), NoRoute;
    }

    // The timeout is settled here, before any key is tried.
    method Arrange(candidate: Breaker.Candidate, r: Request, remaining: Duration, patched: Bytes) returns (v: Visit)
      requires Valid() && AtCandidate(S()) && candidate == S().candidates[S().ci] && candidate.provider in pools
      requires r == S().request && remaining == S().deadline - S().clock > 0
      requires PatchFor(setup, r, candidate) == Some(patched)
      modifies this`history, this`world
      ensures Valid() && old(history) <= history && Entered(old(S()), S(), v)
      ensures v.candidate == candidate && v.timeout > 0
    {
      var limit := pools[candidate.provider].Len();
      v := VisitTo(setup, r, candidate, limit, remaining, patched);
      Visits(v, candidate, r, remaining, patched, limit);
    }

    ghost method Visits(v: Visit, candidate: Breaker.Candidate, r: Request, remaining: Duration, patched: Bytes,
                        limit: nat)
      requires Valid() && AtCandidate(S()) && candidate == S().candidates[S().ci] && candidate.provider in pools
      requires r == S().request && remaining == S().deadline - S().clock > 0
      requires PatchFor(setup, r, candidate) == Some(patched) && limit == |pools[candidate.provider].keys|
      requires v == VisitTo(setup, r, candidate, limit, remaining, patched)
      modifies this`history, this`world
      ensures Valid() && old(history) <= history && Entered(old(S()), S(), v)
      ensures v.candidate == candidate && v.timeout > 0
    {
      EnterAdvances(setup, S(), v, r, candidate, remaining, patched);
      EnterApplies(setup, world.shared, v, clock);
      Tell(Enter(v, clock));
    }

    method VisitCandidate(ci: nat, candidates: seq<Breaker.Candidate>, r: Request, deadline: Time)
      returns (result: Option<Outcome>)
      requires Valid() && S().at.Between? && S().ci == ci < |candidates| && S().candidates == candidates && !S().open
      requires r == S().request && deadline == S().deadline
      modifies this`metrics, this`clock, this`asked, this`turn, this`history, this`world, router, cache, pools.Values
      ensures Valid() && old(history) <= history && SameRoute(old(S()))
      ensures result.None? ==> S().at.Between? && S().ci == ci + 1
      ensures result.Some? ==> S().at.Done? && S().result == result.value
    {
      if ci > 0 {
        ChargeFallback(candidates[ci - 1].alias);
      }
      result := OnCandidate(candidates[ci], r, deadline);
    }

    method OnCandidate(candidate: Breaker.Candidate, r: Request, deadline: Time) returns (result: Option<Outcome>)
      requires Valid() && AtCandidate(S()) && candidate == S().candidates[S().ci] && !S().open
      requires r == S().request && deadline == S().deadline
      modifies this`metrics, this`clock, this`asked, this`turn, this`history, this`world, router, cache, pools.Values
      ensures Valid() && old(history) <= history && SameRoute(old(S()))
      ensures result.None? ==> S().at.Between? && S().ci == old(S()).ci + 1
      ensures result.Some? ==> S().at.Done? && S().result == result.value
    {
      if candidate.provider !in pools {
        Tell(GatewayState.Skip);
        return None;
      }
      Pause();
      var v, failure := EnterCandidate(candidate, r, deadline);
      if v.None? {
        return Some(failure);
      }
      result := OnVisit(v.value, r);
    }

    method OnVisit(v: Visit, r: Request) returns (result: Option<Outcome>)
      requires Valid() && S().visit == v && S().request == r && S().draws == 0 && !S().open
      requires S().at == (if v.cacheable then Consulting else Trying) && v.candidate.provider in pools && v.timeout > 0
      modifies this`metrics, this`clock, this`asked, this`turn, this`history, this`world, router, cache, pools.Values
      ensures Valid() && old(history) <= history && SameVisit(old(S()))
      ensures result.None? ==> S().at.Between?
      ensures result.Some? ==> S().at.Done? && S().result == result.value
    {
      if v.cacheable {
        result := ConsultCache(v);
        if result.Some? {
          return;
        }
      }
      result := TryKeys(v, r);
    }

    method SelectCandidates(r: Request) returns (candidates: seq<Breaker.Candidate>, deadline: Time)
      requires Valid() && S() == FRESH
      modifies this`metrics, this`clock, this`turn, this`history, this`world, router, cache, pools.Values
      ensures Valid() && old(history) <= history
      ensures S().at.Between? && S().ci == 0 && S().candidates == candidates && !S().open
      ensures S().request == r && S().start == old(clock) && S().deadline == deadline
    {
      deadline := Open(r);
      Pause();
      candidates := Select(r);
    }

    method Open(r: Request) returns (deadline: Time)
      requires Valid() && S() == FRESH
      modifies this`history, this`world
      ensures Did(me, Begin(r, clock)) && deadline == clock + setup.cfg.requestTimeout
    {
      deadline := clock + setup.cfg.requestTimeout;
      Log(me, Begin(r, clock));
    }

    method Select(r: Request) returns (candidates: seq<Breaker.Candidate>)
      requires Valid() && S().at.Started? && S().request == r
      modifies this`history, this`world
      ensures Valid() && old(history) <= history
      ensures S() == old(S()).(at := Between, candidates := candidates, ci := 0)
    {
      var found := router.Candidates(r.model, clock);
      candidates := if found.Ok? then found.value else [];
      Take(r, candidates);
    }

    ghost method Take(r: Request, candidates: seq<Breaker.Candidate>)
      requires Valid() && S().at.Started? && S().request == r
      requires candidates == Found(setup, router.health, r.model, clock)
      modifies this`history, this`world
      ensures Valid() && old(history) <= history
      ensures S() == old(S()).(at := Between, candidates := candidates, ci := 0)
    {
      Tell(GatewayState.Select(r.model, clock, candidates));
    }

    /** The fallback engine. Whatever upstream, the clock and the other requests do, the run it adds is a
        legal run of the protocol, in which it meets just what its upstream and script have for it; the
        answer is the one the protocol allows; a non-streaming request ends within its budget times the
        longest pool it visited, plus the time it was held up, and within its deadline plus that time when
        its route fits; it makes at most as many attempts as there are keys in the pools it came to; and no
        upstream body is left open but the one being returned. */
    method RouteRequest(r: Request) returns (result: Outcome)
      requires Valid() && S() == FRESH
      modifies this`metrics, this`clock, this`asked, this`turn, this`history, this`world, router, cache, pools.Values
      ensures Valid() && old(history) <= history
      ensures S().at.Done? && S().request == r && S().result == result
      ensures Serves(setup, opening, history, me, r, old(clock), upstream, script)
      ensures !r.stream ==> clock <= old(clock) + S().overhead + Max(1, S().widest) * setup.cfg.requestTimeout
      ensures !r.stream ==> Spending.WithinSpend(setup, world.shared.pools, S())
      ensures S().open ==> result.Reply? && result.live
      ensures S().ledger.attempts == S().ledger.recorded
      ensures S().ledger.fallbacks == S().ledger.charged + S().ledger.nameless
      ensures S().ledger.fallbacks == if result in {Expired, Unpatchable} then S().ci else Max(S().ci - 1, 0)
      ensures S().ci <= |S().candidates| && S().ledger.attempts <= KeySafety.KeysOf(world.shared.pools, S(), S().ci)
    {
      var candidates, deadline := SelectCandidates(r);
      result := RouteAmong(candidates, deadline, r);
      SoundNow();
      KeySafety.AttemptsAreBounded(setup, opening, history, me);
      Spending.RequestsAreFrugal(setup, opening, history, me);
    }

    method RouteAmong(candidates: seq<Breaker.Candidate>, deadline: Time, r: Request) returns (result: Outcome)
      requires Valid() && S().at.Between? && S().ci == 0 && S().candidates == candidates && !S().open
      requires S().request == r && S().deadline == deadline
      modifies this`metrics, this`clock, this`asked, this`turn, this`history, this`world, router, cache, pools.Values
      ensures Valid() && old(history) <= history && SameRoute(old(S()))
      ensures S().at.Done? && S().result == result
    {
      if |candidates| == 0 {
        End(NoRoute);
        return NoRoute;
      }
      for ci := 0 to |candidates|
        invariant Valid() && old(history) <= history && SameRoute(old(S()))
        invariant S().at.Between? && S().ci == ci && !S().open
      {
        var done := VisitCandidate(ci, candidates, r, deadline);
        if done.Some? {
          return done.value;
        }
        SoundNow();
      }
      End(Exhausted);
      return Exhausted;
    }

    // The request is sound here, as it is at every point of every run.
    lemma SoundNow()
      requires Valid()
      ensures Sound(setup, S())
    {
      RequestsAreSound(setup, opening, history, me);
    }
  }

  // A runtime as it starts: every provider's keys as configured, no health, nothing cached and nothing counted.
  ghost function Startup(cfg: Config, me: nat): World {
    Following(Shared(OpeningPools(cfg), map[], map[], Metrics(0, 0, 0, 0, 0, map[])), {me})
  }

  ghost function OpeningPools(cfg: Config): map<string, Pool.State> {
    map p | p in cfg.providers :: Pool.State(Pool.Opening(cfg.providers[p].apiKeys), 0)
  }

  /** A runtime for a configuration: refused exactly when the configuration is not sound, and otherwise
      with each provider's keys as configured, nothing cached and nothing counted. */
  method BuildState(cfg: Config, codec: Body.Codec, parsesURL: string -> bool, upstream: Upstream, script: Script,
                    start: Time, ghost me: nat)
    returns (r: Prelude.Result<Gateway, Fault>)
    ensures r.Ok? <==> SoundConfig(cfg, parsesURL)
    ensures r.Ok? ==> fresh(r.value) && fresh(r.value.router) && fresh(r.value.cache)
    ensures r.Ok? ==> forall p :: p in r.value.pools ==> fresh(r.value.pools[p])
    ensures r.Ok? ==> r.value.Valid() && r.value.S() == FRESH && r.value.setup == Setup(cfg, codec)
    ensures r.Ok? ==>
      && r.value.opening == Startup(cfg, me) && r.value.history == [] && r.value.me == me
      && r.value.upstream == upstream && r.value.script == script && r.value.clock == start
  {
    var fault := Validate(cfg, parsesURL);
    if fault.Some? {
      return Err(fault.value);
    }
    var pools := BuildPools(cfg);
    var gateway := new Gateway(Setup(cfg, codec), pools, upstream, script, start, me, OpeningPools(cfg));
    return Ok(gateway);
  }

  method BuildPools(cfg: Config) returns (pools: map<string, Pool.Pool>)
    ensures pools.Keys == cfg.providers.Keys
    ensures forall p, q :: p in pools && q in pools && pools[p] == pools[q] ==> p == q
    ensures forall p :: p in pools ==>
      fresh(pools[p]) && pools[p].Model() == Pool.State(Pool.Opening(cfg.providers[p].apiKeys), 0)
    ensures (map p | p in pools :: pools[p].Model()) == OpeningPools(cfg)
  {
    pools := map[];
    var left := cfg.providers.Keys;
    while left != {}
      invariant left <= cfg.providers.Keys && pools.Keys == cfg.providers.Keys - left
      invariant forall p, q :: p in pools && q in pools && pools[p] == pools[q] ==> p == q
      invariant forall p :: p in pools ==>
        fresh(pools[p]) && pools[p].Model() == Pool.State(Pool.Opening(cfg.providers[p].apiKeys), 0)
      decreases |left|
    {
      var name :| name in left;
      var pool := new Pool.Pool(cfg.providers[name].apiKeys);
      pools := pools[name := pool];
      left := left - {name};
    }
  }
}
