/** The breaker, the pools and the cache over whole runs of the engine: their states are those of their own
    histories, so what is proved of those holds of every run. */
module Histories {
  import opened GatewayState
  import opened Runs
  import opened Prelude
  import Config
  import Breaker = CircuitBreaker
  import Health = BreakerHistory
  import Pool = CredentialPool
  import Calls = PoolTheorems
  import Cache = ResponseCache
  import Ideal = CacheRefinement

  // ---- the breaker ----

  // What an action tells the breaker, if anything.
  ghost function ToldBy(a: Action): Option<Health.Event> {
    match a
    case Praise(alias) => Some(Health.Success(alias))
    case Blame(alias, reason, now, retryAfter) => Some(Health.Failure(alias, reason, now, retryAfter))
    case _ => None
  }

  // What the breaker was told, in order.
  ghost function Told(h: seq<Event>): seq<Health.Event> {
    if h == [] then []
    else
      var e := ToldBy(h[|h| - 1].action);
      if e.None? then Told(h[..|h| - 1]) else Told(h[..|h| - 1]) + [e.value]
  }

  lemma ActionTells(g: Setup, m: Shared, a: Action)
    requires Apply(g, m, a).Some?
    ensures Apply(g, m, a).value.health ==
      if ToldBy(a).None? then m.health else Health.After(g.cfg.breaker, m.health, ToldBy(a).value)
  {
  }

  lemma OneMoreTold(b: Config.Breaker, before: seq<Health.Event>, e: Health.Event)
    ensures Health.AfterAll(b, before + [e]) == Health.After(b, Health.AfterAll(b, before), e)
  {
    assert (before + [e])[..|before|] == before;
  }

  lemma {:induction false} HealthIsWhatWasTold(g: Setup, w: World, h: seq<Event>)
    requires w.shared.health == map[] && Run(g, w, h).Some?
    ensures Run(g, w, h).value.shared.health == Health.AfterAll(g.cfg.breaker, Told(h))
  {
    if h != [] {
      var front, a := h[..|h| - 1], h[|h| - 1].action;
      HealthIsWhatWasTold(g, w, front);
      ActionTells(g, Run(g, w, front).value.shared, a);
      if ToldBy(a).Some? {
        OneMoreTold(g.cfg.breaker, Told(front), ToldBy(a).value);
      }
    }
  }

  /** In every interleaving a model's health is explained by what the requests blamed it for since one of them
      last praised it. */
  lemma RunsExplainHealth(g: Setup, w: World, h: seq<Event>, alias: string)
    requires w.shared.health == map[] && Run(g, w, h).Some?
    ensures Health.Explains(g.cfg.breaker, Health.Recent(Told(h), alias),
      Breaker.HealthOf(Run(g, w, h).value.shared.health, alias))
  {
    HealthIsWhatWasTold(g, w, h);
    Health.HistoryExplainsHealth(g.cfg.breaker, Told(h), alias);
  }

  // ---- a pool ----

  // The call of an action on a pool, if it is one.
  ghost function CallOf(a: Action, name: string): Option<Calls.Call> {
    match a
    case Draw(p, now, _) => if p == name then Some(Calls.Next(now)) else None
    case Cool(p, idx, until) => if p == name then Some(Calls.Cooldown(idx, until)) else None
    case Disable(p, idx) => if p == name then Some(Calls.Disable(idx)) else None
    case _ => None
  }

  // The calls on a pool, in order, and the answers to its draws.
  ghost function CallsOn(h: seq<Event>, name: string): seq<Calls.Call> {
    if h == [] then []
    else
      var c := CallOf(h[|h| - 1].action, name);
      if c.None? then CallsOn(h[..|h| - 1], name) else CallsOn(h[..|h| - 1], name) + [c.value]
  }

  ghost function DrawnFrom(h: seq<Event>, name: string): seq<Option<nat>> {
    if h == [] then []
    else
      var a := h[|h| - 1].action;
      if a.Draw? && a.provider == name then DrawnFrom(h[..|h| - 1], name) + [a.picked]
      else DrawnFrom(h[..|h| - 1], name)
  }

  lemma {:induction false} OneMoreCall(p: Pool.State, run: seq<Calls.Call>, c: Calls.Call)
    ensures Calls.AfterAll(p, run + [c]) == Calls.After(Calls.AfterAll(p, run), c)
    ensures Calls.Draws(p, run + [c]) ==
      if c.Next? then Calls.Draws(p, run) + [Pool.Drawn(Calls.AfterAll(p, run), c.now)] else Calls.Draws(p, run)
    decreases |run|
  {
    if run != [] {
      assert (run + [c])[1..] == run[1..] + [c];
      OneMoreCall(Calls.After(p, run[0]), run[1..], c);
    } else {
      assert (run + [c])[1..] == [];
      assert Calls.AfterAll(Calls.After(p, c), []) == Calls.After(p, c);
    }
  }

  // What the call of an action on this pool leaves, and what it answers.
  lemma ActionCalls(g: Setup, m: Shared, a: Action, name: string)
    requires Apply(g, m, a).Some? && name in m.pools
    ensures name in Apply(g, m, a).value.pools
    ensures Apply(g, m, a).value.pools[name] ==
      if CallOf(a, name).None? then m.pools[name] else Calls.After(m.pools[name], CallOf(a, name).value)
    ensures a.Draw? && a.provider == name ==> a.picked == Pool.Drawn(m.pools[name], a.now)
  {
  }

  /** In every interleaving each pool is as its calls have left it, and every draw got what those calls give. */
  lemma {:induction false} PoolsAreAsCalled(g: Setup, w: World, h: seq<Event>, name: string)
    requires name in w.shared.pools && Run(g, w, h).Some?
    ensures name in Run(g, w, h).value.shared.pools
    ensures Run(g, w, h).value.shared.pools[name] == Calls.AfterAll(w.shared.pools[name], CallsOn(h, name))
    ensures DrawnFrom(h, name) == Calls.Draws(w.shared.pools[name], CallsOn(h, name))
  {
    if h != [] {
      var front, a, p := h[..|h| - 1], h[|h| - 1].action, w.shared.pools[name];
      PoolsAreAsCalled(g, w, front, name);
      ActionCalls(g, Run(g, w, front).value.shared, a, name);
      if CallOf(a, name).Some? {
        OneMoreCall(p, CallsOn(front, name), CallOf(a, name).value);
      }
    }
  }

  /** Whoever draws, a key that every draw finds usable is drawn by one of the first n from n keys. */
  lemma EveryKeyHasItsTurn(g: Setup, w: World, h: seq<Event>, name: string, k: nat)
    requires name in w.shared.pools && Run(g, w, h).Some?
    requires k < |w.shared.pools[name].keys| <= |DrawnFrom(h, name)|
    requires Calls.AlwaysUsable(w.shared.pools[name], CallsOn(h, name), k)
    ensures Some(k) in DrawnFrom(h, name)[..|w.shared.pools[name].keys|]
  {
    PoolsAreAsCalled(g, w, h, name);
    Calls.BoundedWaiting(w.shared.pools[name], CallsOn(h, name), k);
  }

  // ---- the cache ----

  // The call of an action on the cache, if it is one.
  ghost function OpOf(a: Action): Option<Ideal.Op> {
    match a
    case LookUp(key, now, _) => Some(Ideal.Get(key, now))
    case Store(key, value, _, now, _, victims) => Some(Ideal.Set(key, value, now, victims))
    case Prune(now) => Some(Ideal.Prune(now))
    case _ => None
  }

  // The calls on the cache, in order.
  ghost function OnCache(h: seq<Event>): seq<Ideal.Op> {
    if h == [] then []
    else
      var op := OpOf(h[|h| - 1].action);
      if op.None? then OnCache(h[..|h| - 1]) else OnCache(h[..|h| - 1]) + [op.value]
  }

  // The cache is called in the order of its clock.
  ghost predicate InOrder(ops: seq<Ideal.Op>) {
    && (ops != [] ==> ops[0].now >= ZERO_TIME)
    && forall i, j :: 0 <= i < j < |ops| ==> ops[i].now <= ops[j].now
  }

  lemma {:induction false} LastCall(b: Cache.Budget, ttl: Duration, ops: seq<Ideal.Op>)
    ensures Ideal.AfterAll(b, ttl, ops).at == if ops == [] then ZERO_TIME else ops[|ops| - 1].now
  {
  }

  lemma OneMoreOp(b: Cache.Budget, ttl: Duration, ops: seq<Ideal.Op>, op: Ideal.Op)
    requires Ideal.LegalRun(b, ttl, ops) && InOrder(ops + [op])
    requires var kept := Ideal.AfterAll(b, ttl, ops).kept;
      op.Set? && Cache.Accepts(b, op.value, ttl) ==> Cache.MakesRoom(b, kept, op.key, op.value, op.now, op.victims)
    ensures Ideal.LegalRun(b, ttl, ops + [op])
    ensures Ideal.AfterAll(b, ttl, ops + [op]) == Ideal.After(b, ttl, Ideal.AfterAll(b, ttl, ops), op)
  {
    assert (ops + [op])[..|ops|] == ops;
    LastCall(b, ttl, ops);
    if ops != [] {
      assert (ops + [op])[|ops| - 1].now <= (ops + [op])[|ops|].now;
    }
  }

  // What the call of an action on the cache leaves.
  lemma ActionOnCache(g: Setup, m: Shared, a: Action, v: Ideal.View)
    requires Apply(g, m, a).Some? && v.kept == m.cache && (a.Store? ==> a.ttl == g.cfg.cache.ttl)
    ensures var b, ttl, cache := BudgetOf(g), g.cfg.cache.ttl, Apply(g, m, a).value.cache;
      && cache == (if OpOf(a).None? then m.cache else Ideal.After(b, ttl, v, OpOf(a).value).kept)
      && (a.Store? && Cache.Accepts(b, a.value, ttl) ==> Cache.MakesRoom(b, v.kept, a.key, a.value, a.now, a.victims))
  {
  }

  lemma StoresForALifetime(g: Setup, w: World, h: seq<Event>, e: Event)
    requires Run(g, w, h).Some? && e.who in w.sessions && Step(g, Run(g, w, h).value, e).Some? && e.action.Store?
    ensures e.action.ttl == g.cfg.cache.ttl
  {
    SameRequests(g, w, h);
  }

  lemma InOrderSoFar(ops: seq<Ideal.Op>, op: Ideal.Op)
    requires InOrder(ops + [op])
    ensures InOrder(ops)
  {
    forall i, j | 0 <= i < j < |ops| ensures ops[i].now <= ops[j].now {
      assert (ops + [op])[i] == ops[i] && (ops + [op])[j] == ops[j];
    }
    assert ops != [] ==> (ops + [op])[0] == ops[0];
  }

  /** In every interleaving that calls the cache in the order of its clock, the cache is as its calls have left it,
      and they make a legal run of it: hits are the latest accepted values, and nothing live is missing but what
      was evicted. */
  lemma {:induction false} CacheIsAsCalled(g: Setup, w: World, h: seq<Event>)
    requires w.shared.cache == map[] && AllFollowed(w, h) && Run(g, w, h).Some? && InOrder(OnCache(h))
    ensures Ideal.LegalRun(BudgetOf(g), g.cfg.cache.ttl, OnCache(h))
    ensures Run(g, w, h).value.shared.cache == Ideal.AfterAll(BudgetOf(g), g.cfg.cache.ttl, OnCache(h)).kept
  {
    if h != [] {
      var front, e := h[..|h| - 1], h[|h| - 1];
      if OpOf(e.action).Some? {
        InOrderSoFar(OnCache(front), OpOf(e.action).value);
      }
      CacheIsAsCalled(g, w, front);
      if e.action.Store? {
        StoresForALifetime(g, w, front, e);
      }
      LastIsAsCalled(g, Run(g, w, front).value.shared, e.action, OnCache(front), OnCache(h));
    }
  }

  lemma LastIsAsCalled(g: Setup, m: Shared, a: Action, ops: seq<Ideal.Op>, more: seq<Ideal.Op>)
    requires Apply(g, m, a).Some? && (a.Store? ==> a.ttl == g.cfg.cache.ttl)
    requires InOrder(more) && more == if OpOf(a).None? then ops else ops + [OpOf(a).value]
    requires Ideal.LegalRun(BudgetOf(g), g.cfg.cache.ttl, ops)
    requires m.cache == Ideal.AfterAll(BudgetOf(g), g.cfg.cache.ttl, ops).kept
    ensures Ideal.LegalRun(BudgetOf(g), g.cfg.cache.ttl, more)
    ensures Apply(g, m, a).value.cache == Ideal.AfterAll(BudgetOf(g), g.cfg.cache.ttl, more).kept
  {
    ActionOnCache(g, m, a, Ideal.AfterAll(BudgetOf(g), g.cfg.cache.ttl, ops));
    if OpOf(a).Some? {
      OneMoreOp(BudgetOf(g), g.cfg.cache.ttl, ops, OpOf(a).value);
    }
  }

  /** A lookup of any request finds the latest value any request has had accepted under its key, for its lifetime,
      unless that was evicted since. */
  lemma LookupsFindTheLatest(g: Setup, w: World, h: seq<Event>, key: string, now: Time, i: nat)
    requires w.shared.cache == map[] && AllFollowed(w, h) && Run(g, w, h).Some? && g.cfg.cache.ttl >= 0
    requires InOrder(OnCache(h) + [Ideal.Get(key, now)])
    requires Ideal.LatestAccepted(BudgetOf(g), g.cfg.cache.ttl, OnCache(h), key, i)
    requires now < OnCache(h)[i].now + g.cfg.cache.ttl
    ensures Cache.Hit(Run(g, w, h).value.shared.cache, key, now) ==
      if key in Ideal.AfterAll(BudgetOf(g), g.cfg.cache.ttl, OnCache(h)).evicted then None
      else Some(OnCache(h)[i].value)
  {
    var b, ttl, ops := BudgetOf(g), g.cfg.cache.ttl, OnCache(h);
    InOrderSoFar(ops, Ideal.Get(key, now));
    CacheIsAsCalled(g, w, h);
    LastCall(b, ttl, ops);
    assert (ops + [Ideal.Get(key, now)])[|ops| - 1].now <= (ops + [Ideal.Get(key, now)])[|ops|].now;
    Ideal.LatestAcceptedIsAHit(b, ttl, ops, key, now, i);
  }
}
