/** The state all requests of one runtime share, and the atomic actions they take on it. */
module GatewayState {
  import opened Prelude
  import opened Config
  import opened KeyFraming
  import Pool = CredentialPool
  import Breaker = CircuitBreaker
  import Cache = ResponseCache
  import Body = Completions

  datatype ModelMetric = ModelMetric(
    attempts: nat, successes: nat, failures: nat, timeouts: nat, fallbacks: nat,
    totalLatency: Duration, lastLatency: Duration, lastReason: string, lastStatus: int)

  const NO_METRIC := ModelMetric(0, 0, 0, 0, 0, 0, 0, "", 0)

  datatype Metrics = Metrics(
    attempts: nat, fallbacks: nat, hits: nat, misses: nat, stores: nat, models: map<string, ModelMetric>)

  function MetricOf(m: map<string, ModelMetric>, alias: string): ModelMetric {
    if alias in m then m[alias] else NO_METRIC
  }

  datatype Shared = Shared(
    pools: map<string, Pool.State>, health: map<string, Breaker.Health>, cache: Cache.Entries, metrics: Metrics)

  // The configuration and the library functions a runtime works with.
  datatype Setup = Setup(cfg: Config, codec: Body.Codec)

  function BudgetOf(g: Setup): Cache.Budget { Cache.Budget(g.cfg.cache.maxEntries, g.cfg.cache.maxBytes) }

  datatype Request = Request(verb: string, path: string, query: string, body: Bytes, stream: bool, model: string)

  // One visit to a candidate: how many keys its pool has, the time each attempt gets, the request as
  // sent upstream, and whether its answer may be cached.
  datatype Visit = Visit(candidate: Breaker.Candidate, limit: nat, timeout: Duration, sent: Identity, cacheable: bool)

  // How an upstream attempt ends. An answer is a status with a body, which may break off.
  datatype Exchange =
    | Cancelled(took: nat)
    | TimedOut(took: nat)
    | Unreachable(took: nat)
    | Answer(took: nat, status: int, header: Cache.Header, body: Bytes, broken: bool, retryAfter: nat)

  datatype Outcome =
    | NoRoute | Exhausted | Expired | Unpatchable | ClientGone
    | Reply(response: Cache.Response, fails: bool, live: bool)  // live: still reading from upstream

  datatype Action =
    // the request itself
    | Begin(request: Request, now: Time)
    | Wait(time: nat)
    | Skip
    | Enter(visit: Visit, now: Time)
    | Exchanged(sent: Identity, drawn: nat, exchange: Exchange)
    | Close
    | Leave
    | Finish(result: Outcome)
    // the router
    | Select(model: string, now: Time, found: seq<Breaker.Candidate>)
    | Praise(alias: string)
    | Blame(alias: string, reason: string, now: Time, retryAfter: Duration)
    // a credential pool
    | Draw(provider: string, now: Time, picked: Option<nat>)
    | Cool(provider: string, idx: int, until: Time)
    | Disable(provider: string, idx: int)
    // the response cache
    | LookUp(key: string, now: Time, hit: Option<Cache.Response>)
    | Store(key: string, value: Cache.Response, ttl: Duration, now: Time, stored: bool, victims: seq<string>)
    | Prune(now: Time)
    // metrics
    | CountAttempt | CountFallback | CountHit | CountMiss | CountStore
    | ModelFallback(alias: string, reason: string)
    | Record(alias: string, latency: Duration, status: int, success: bool, timeout: bool, reason: string)

  function WithAttempt(m: ModelMetric, latency: Duration, status: int, success: bool, timeout: bool,
                       reason: string): ModelMetric {
    m.(attempts := m.attempts + 1,
       successes := m.successes + if success then 1 else 0,
       failures := m.failures + if success then 0 else 1,
       timeouts := m.timeouts + if timeout then 1 else 0,
       totalLatency := m.totalLatency + latency,
       lastLatency := latency,
       lastStatus := status,
       lastReason := if reason != "" then reason else m.lastReason)
  }

  function WithFallback(m: ModelMetric, reason: string): ModelMetric {
    m.(fallbacks := m.fallbacks + 1, lastReason := if reason != "" then reason else m.lastReason)
  }

  function Found(g: Setup, health: map<string, Breaker.Health>, model: string, now: Time): seq<Breaker.Candidate> {
    match Breaker.Resolve(g.cfg, model)
    case None => []
    case Some(aliases) => Breaker.Closed(g.cfg, health, aliases, now)
  }

  ghost function OnPool(s: Shared, provider: string, next: Pool.State): Shared {
    s.(pools := s.pools[provider := next])
  }

  predicate Counts(a: Action) {
    a.CountAttempt? || a.CountFallback? || a.CountHit? || a.CountMiss? || a.CountStore? || a.ModelFallback? || a.Record?
  }

  // The counters after an action that moves one of them.
  function Counted(m: Metrics, a: Action): Metrics
    requires Counts(a)
  {
    match a
    case CountAttempt => m.(attempts := m.attempts + 1)
    case CountFallback => m.(fallbacks := m.fallbacks + 1)
    case CountHit => m.(hits := m.hits + 1)
    case CountMiss => m.(misses := m.misses + 1)
    case CountStore => m.(stores := m.stores + 1)
    case ModelFallback(alias, reason) =>
      if alias == "" then m else m.(models := m.models[alias := WithFallback(MetricOf(m.models, alias), reason)])
    case Record(alias, latency, status, success, timeout, reason) =>
      m.(models := m.models[alias :=
        WithAttempt(MetricOf(m.models, alias), latency, status, success, timeout, reason)])
  }

  /** The effect of an action, or None if it claims a result the state does not give. */
  ghost function Apply(g: Setup, s: Shared, a: Action): Option<Shared> {
    match a
    case Select(model, now, found) => if found == Found(g, s.health, model, now) then Some(s) else None
    case Praise(alias) => Some(s.(health := Breaker.Succeeded(s.health, alias)))
    case Blame(alias, reason, now, retryAfter) =>
      Some(s.(health := Breaker.Failed(g.cfg.breaker, s.health, alias, reason, now, retryAfter)))
    case Enter(visit, _) =>
      var p := visit.candidate.provider;
      if p in s.pools && visit.limit == |s.pools[p].keys| then Some(s) else None
    case Draw(p, now, picked) =>
      if p in s.pools && picked == Pool.Drawn(s.pools[p], now) then Some(OnPool(s, p, Pool.AfterDraw(s.pools[p])))
      else None
    case Cool(p, idx, until) =>
      if p in s.pools then Some(OnPool(s, p, Pool.Cooled(s.pools[p], idx, until))) else None
    case Disable(p, idx) =>
      if p in s.pools then Some(OnPool(s, p, Pool.Barred(s.pools[p], idx))) else None
    case LookUp(key, now, hit) =>
      if hit == Cache.Hit(s.cache, key, now) then Some(s.(cache := Cache.AfterGet(s.cache, key, now))) else None
    case Store(key, value, ttl, now, stored, victims) =>
      if stored != Cache.Accepts(BudgetOf(g), value, ttl) then None
      else if !stored then Some(s)
      else if Cache.MakesRoom(BudgetOf(g), s.cache, key, value, now, victims) then
        Some(s.(cache := Cache.AfterSet(s.cache, key, value, ttl, now, victims)))
      else None
    case Prune(now) => Some(s.(cache := Cache.Unexpired(s.cache, now)))
    case _ => if Counts(a) then Some(s.(metrics := Counted(s.metrics, a))) else Some(s)
  }

  lemma CountApplies(g: Setup, s: Shared, a: Action)
    requires Counts(a)
    ensures Apply(g, s, a) == Some(s.(metrics := Counted(s.metrics, a)))
  {
  }

  lemma EnterApplies(g: Setup, s: Shared, v: Visit, now: Time)
    requires v.candidate.provider in s.pools && v.limit == |s.pools[v.candidate.provider].keys|
    ensures Apply(g, s, Enter(v, now)) == Some(s)
  {
  }

  lemma StoreApplies(g: Setup, s: Shared, key: string, value: Cache.Response, ttl: Duration, now: Time,
                     stored: bool, victims: seq<string>, after: Cache.Entries)
    requires stored <==> Cache.Accepts(BudgetOf(g), value, ttl)
    requires !stored ==> after == s.cache
    requires stored ==> Cache.MakesRoom(BudgetOf(g), s.cache, key, value, now, victims)
    requires stored ==> after == Cache.AfterSet(s.cache, key, value, ttl, now, victims)
    ensures Apply(g, s, Store(key, value, ttl, now, stored, victims)) == Some(s.(cache := after))
  {
  }
}
