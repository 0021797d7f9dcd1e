/** internal/config/config.go: the configuration a runtime is built from, and its validation. */
module Config {
  import opened Prelude
  import opened Text

  datatype Provider = Provider(kind: string, baseURL: string, apiKeys: seq<string>)
  datatype Model = Model(provider: string, upstreamModel: string, params: map<string, string>, attemptTimeout: Duration)
  datatype Breaker = Breaker(failureThreshold: int, cooldown: Duration)
  datatype ResponseCache = ResponseCache(
    enabled: bool, ttl: Duration, maxEntries: int, maxBodyBytes: int, maxBytes: int, providerKinds: seq<string>)

  datatype Config = Config(
    listen: string,
    requestBodyLimit: int,
    requestTimeout: Duration,
    breaker: Breaker,
    cache: ResponseCache,
    providers: map<string, Provider>,
    models: map<string, Model>,
    routes: map<string, seq<string>>)

  const KINDS := ["openai", "nvidia", "openrouter", "groq", "together"]

  datatype Fault =
    | NoListen | BadBodyLimit | BadRequestTimeout | BadThreshold | BadCooldown
    | BadTTL | BadMaxEntries | BadMaxBodyBytes | BadMaxBytes | BodyOverBudget | NoProviderKinds | BlankProviderKind
    | NoProviders | NoBaseURL(name: string) | BadBaseURL(name: string) | BadKind(name: string) | NoKeys(name: string)
    | NoModels | UnknownProvider(name: string) | NoUpstreamModel(name: string) | BadAttemptTimeout(name: string)
    | EmptyRoute(name: string) | UnknownModel(name: string)

  // The source reads a missing map entry as the zero Model.
  function ModelNamed(c: Config, alias: string): Model {
    if alias in c.models then c.models[alias] else Model("", "", map[], 0)
  }

  predicate SoundCache(r: ResponseCache) {
    && r.ttl > 0 && r.maxEntries > 0 && r.maxBodyBytes > 0 && r.maxBytes > 0 && r.maxBodyBytes <= r.maxBytes
    && r.providerKinds != [] && forall i :: 0 <= i < |r.providerKinds| ==> TrimSpace(r.providerKinds[i]) != ""
  }

  // parsesURL stands for the library's URL parser finding a scheme and a host.
  predicate SoundProvider(p: Provider, parsesURL: string -> bool) {
    TrimSpace(p.baseURL) != "" && parsesURL(p.baseURL) && p.kind in KINDS && p.apiKeys != []
  }

  predicate SoundModel(c: Config, m: Model) {
    m.provider in c.providers && TrimSpace(m.upstreamModel) != "" && m.attemptTimeout >= 0
  }

  predicate SoundRoute(c: Config, route: seq<string>) {
    route != [] && forall i :: 0 <= i < |route| ==> route[i] in c.models
  }

  /** What a validated configuration is. */
  ghost predicate SoundConfig(c: Config, parsesURL: string -> bool) {
    && TrimSpace(c.listen) != "" && c.requestBodyLimit > 0 && c.requestTimeout > 0
    && c.breaker.failureThreshold > 0 && c.breaker.cooldown > 0
    && (c.cache.enabled ==> SoundCache(c.cache))
    && c.providers != map[] && (forall n :: n in c.providers ==> SoundProvider(c.providers[n], parsesURL))
    && c.models != map[] && (forall n :: n in c.models ==> SoundModel(c, c.models[n]))
    && (forall n :: n in c.routes ==> SoundRoute(c, c.routes[n]))
  }

  /** A sound configuration, part by part: its cache, */
  lemma SoundCacheIs(r: ResponseCache)
    ensures SoundCache(r) <==>
      && r.ttl > 0 && r.maxEntries > 0 && 0 < r.maxBodyBytes <= r.maxBytes
      && r.providerKinds != [] && forall kind :: kind in r.providerKinds ==> TrimSpace(kind) != ""
  {
  }

  /** its providers, */
  lemma SoundProviderIs(p: Provider, parsesURL: string -> bool)
    ensures SoundProvider(p, parsesURL) <==>
      && TrimSpace(p.baseURL) != "" && parsesURL(p.baseURL) && |p.apiKeys| > 0
      && p.kind in {"openai", "nvidia", "openrouter", "groq", "together"}
  {
    KindsAre();
  }

  /** its models and routes, */
  lemma SoundModelIs(c: Config, m: Model)
    ensures SoundModel(c, m) <==>
      m.provider in c.providers && TrimSpace(m.upstreamModel) != "" && m.attemptTimeout >= 0
  {
  }

  lemma SoundRouteIs(c: Config, route: seq<string>)
    ensures SoundRoute(c, route) <==> |route| > 0 && forall a :: a in route ==> a in c.models
  {
  }

  /** and the whole. */
  lemma SoundConfigIs(c: Config, parsesURL: string -> bool)
    ensures SoundConfig(c, parsesURL) <==>
      && TrimSpace(c.listen) != "" && c.requestBodyLimit > 0 && c.requestTimeout > 0
      && c.breaker.failureThreshold > 0 && c.breaker.cooldown > 0
      && (c.cache.enabled ==> SoundCache(c.cache))
      && |c.providers| > 0 && (forall n :: n in c.providers ==> SoundProvider(c.providers[n], parsesURL))
      && |c.models| > 0 && (forall n :: n in c.models ==> SoundModel(c, c.models[n]))
      && (forall n :: n in c.routes ==> SoundRoute(c, c.routes[n]))
  {
  }

  lemma KindsAre()
    ensures forall kind :: kind in KINDS <==> kind in {"openai", "nvidia", "openrouter", "groq", "together"}
  {
  }

  method CheckCache(r: ResponseCache) returns (fault: Option<Fault>)
    ensures fault.None? <==> SoundCache(r)
  {
    if r.ttl <= 0 { return Some(BadTTL); }
    if r.maxEntries <= 0 { return Some(BadMaxEntries); }
    if r.maxBodyBytes <= 0 { return Some(BadMaxBodyBytes); }
    if r.maxBytes <= 0 { return Some(BadMaxBytes); }
    if r.maxBodyBytes > r.maxBytes { return Some(BodyOverBudget); }
    if r.providerKinds == [] { return Some(NoProviderKinds); }
    for i := 0 to |r.providerKinds|
      invariant forall j :: 0 <= j < i ==> TrimSpace(r.providerKinds[j]) != ""
    {
      if TrimSpace(r.providerKinds[i]) == "" { return Some(BlankProviderKind); }
    }
    return None;
  }

  method CheckProviders(c: Config, parsesURL: string -> bool) returns (fault: Option<Fault>)
    ensures fault.None? <==> forall n :: n in c.providers ==> SoundProvider(c.providers[n], parsesURL)
  {
    var left := c.providers.Keys;
    while left != {}
      invariant left <= c.providers.Keys
      invariant forall n :: n in c.providers.Keys - left ==> SoundProvider(c.providers[n], parsesURL)
      decreases |left|
    {
      var name :| name in left;
      var p := c.providers[name];
      if TrimSpace(p.baseURL) == "" { return Some(NoBaseURL(name)); }
      if !parsesURL(p.baseURL) { return Some(BadBaseURL(name)); }
      if p.kind !in KINDS { return Some(BadKind(name)); }
      if p.apiKeys == [] { return Some(NoKeys(name)); }
      left := left - {name};
    }
    return None;
  }

  method CheckModels(c: Config) returns (fault: Option<Fault>)
    ensures fault.None? <==> forall n :: n in c.models ==> SoundModel(c, c.models[n])
  {
    var left := c.models.Keys;
    while left != {}
      invariant left <= c.models.Keys
      invariant forall n :: n in c.models.Keys - left ==> SoundModel(c, c.models[n])
      decreases |left|
    {
      var name :| name in left;
      var m := c.models[name];
      if m.provider !in c.providers { return Some(UnknownProvider(name)); }
      if TrimSpace(m.upstreamModel) == "" { return Some(NoUpstreamModel(name)); }
      if m.attemptTimeout < 0 { return Some(BadAttemptTimeout(name)); }
      left := left - {name};
    }
    return None;
  }

  method CheckRoutes(c: Config) returns (fault: Option<Fault>)
    ensures fault.None? <==> forall n :: n in c.routes ==> SoundRoute(c, c.routes[n])
  {
    var left := c.routes.Keys;
    while left != {}
      invariant left <= c.routes.Keys
      invariant forall n :: n in c.routes.Keys - left ==> SoundRoute(c, c.routes[n])
      decreases |left|
    {
      var name :| name in left;
      var models := c.routes[name];
      if models == [] { return Some(EmptyRoute(name)); }
      for i := 0 to |models|
        invariant forall j :: 0 <= j < i ==> models[j] in c.models
      {
        if models[i] !in c.models { return Some(UnknownModel(name)); }
      }
      left := left - {name};
    }
    return None;
  }

  /** Validation accepts exactly the sound configurations. */
  method Validate(c: Config, parsesURL: string -> bool) returns (fault: Option<Fault>)
    ensures fault.None? <==> SoundConfig(c, parsesURL)
  {
    if TrimSpace(c.listen) == "" { return Some(NoListen); }
    if c.requestBodyLimit <= 0 { return Some(BadBodyLimit); }
    if c.requestTimeout <= 0 { return Some(BadRequestTimeout); }
    if c.breaker.failureThreshold <= 0 { return Some(BadThreshold); }
    if c.breaker.cooldown <= 0 { return Some(BadCooldown); }
    if c.cache.enabled {
      fault := CheckCache(c.cache);
      if fault.Some? { return; }
    }
    if c.providers == map[] { return Some(NoProviders); }
    fault := CheckProviders(c, parsesURL);
    if fault.Some? { return; }
    if c.models == map[] { return Some(NoModels); }
    fault := CheckModels(c);
    if fault.Some? { return; }
    fault := CheckRoutes(c);
  }
}
