/** config.example.json: which of the shipped routes keep the documented budget with two API keys. */
module ShippedRoutes {
  import opened Prelude
  import opened Text
  import opened Config
  import opened GatewayState
  import opened KeySafety
  import opened Spending
  import opened OverrunRuns
  import opened BudgetPromise
  import opened EngineBudget
  import Pool = CredentialPool
  import Breaker = CircuitBreaker
  import Body = Completions
  import Gateway

  function Nvidia(upstreamModel: string, attemptTimeout: Duration): Model {
    Model("nvidia", upstreamModel, map[], attemptTimeout)
  }

  // The shipped configuration, with these API keys. The models' extra parameters do not matter here.
  function Shipped(keys: seq<string>): Config {
    Config(
      "127.0.0.1:3000", 67108864, 180 * SECOND,
      Breaker(3, 60 * SECOND),
      ResponseCache(false, 3600 * SECOND, 256, 1048576, 67108864, ["nvidia"]),
      map["nvidia" := Provider("nvidia", "https://integrate.api.nvidia.com/v1", keys)],
      map[
        "glm53" := Nvidia("z-ai/glm-5.3", 90 * SECOND),
        "kimi_k3" := Nvidia("moonshotai/kimi-k3", 120 * SECOND),
        "nemotron_ultra" := Nvidia("nvidia/nemotron-3-ultra-550b-a55b", 60 * SECOND),
        "nemotron_super" := Nvidia("nvidia/nemotron-3-super-120b-a12b", 45 * SECOND),
        "glm53_flash" := Nvidia("z-ai/glm-5.3-flash", 45 * SECOND),
        "nemotron_lightning" := Nvidia("nvidia/nemotron-3.5-lightning-30b-a3b", 60 * SECOND),
        "nemotron_super_interactive" := Nvidia("nvidia/nemotron-3-super-120b-a12b", 20 * SECOND)
      ],
      map[
        "quality" := ["kimi_k3", "glm53", "nemotron_ultra", "nemotron_super", "nemotron_lightning"],
        "coding" := ["nemotron_ultra", "nemotron_super"],
        "reasoning" := ["nemotron_super", "nemotron_ultra"],
        "fast" := ["nemotron_super_interactive", "nemotron_ultra"],
        "vision" := ["kimi_k3", "glm53_flash"],
        "auto" := ["nemotron_super_interactive", "nemotron_ultra"],
        "default" := ["nemotron_super_interactive", "nemotron_ultra"]
      ])
  }

  const BRIEF_ROUTES := {"fast", "auto", "default"}

  // A string that starts with a visible character is not blank.
  lemma {:induction false} StartsVisibly(s: string)
    requires s != "" && !IsSpace(s[0])
    ensures TrimSpace(s) != "" && TrimRight(s) != ""
  {
    if IsSpace(s[|s| - 1]) {
      StartsVisibly(s[..|s| - 1]);
    }
  }

  lemma ShippedNameIsVisible(keys: seq<string>, alias: string)
    requires alias in Shipped(keys).models
    ensures TrimSpace(Shipped(keys).models[alias].upstreamModel) != ""
  {
    StartsVisibly(Shipped(keys).models[alias].upstreamModel);
  }

  lemma ShippedProviderIsSound(keys: seq<string>, parsesURL: string -> bool)
    requires keys != [] && parsesURL("https://integrate.api.nvidia.com/v1")
    ensures SoundProvider(Shipped(keys).providers["nvidia"], parsesURL)
  {
    StartsVisibly("https://integrate.api.nvidia.com/v1");
    assert KINDS[1] == "nvidia";
  }

  lemma ShippedCacheIsSound(keys: seq<string>)
    ensures TrimSpace(Shipped(keys).listen) != "" && SoundCache(Shipped(keys).cache)
  {
    StartsVisibly("127.0.0.1:3000");
    StartsVisibly("nvidia");
  }

  lemma ShippedRoutesAreKnown(keys: seq<string>)
    ensures var cfg := Shipped(keys);
      && (forall m :: m in cfg.models ==> cfg.models[m].provider == "nvidia" && cfg.models[m].attemptTimeout >= 0)
      && (forall route :: route in cfg.routes ==> SoundRoute(cfg, cfg.routes[route]))
  {
  }

  lemma ShippedModelsAreSound(keys: seq<string>)
    ensures forall m :: m in Shipped(keys).models ==> SoundModel(Shipped(keys), Shipped(keys).models[m])
  {
    ShippedRoutesAreKnown(keys);
    forall m | m in Shipped(keys).models ensures SoundModel(Shipped(keys), Shipped(keys).models[m]) {
      ShippedNameIsVisible(keys, m);
    }
  }

  lemma ShippedIsSound(keys: seq<string>, parsesURL: string -> bool)
    requires keys != [] && parsesURL("https://integrate.api.nvidia.com/v1")
    ensures SoundConfig(Shipped(keys), parsesURL)
  {
    var cfg := Shipped(keys);
    ShippedCacheIsSound(keys);
    ShippedProviderIsSound(keys, parsesURL);
    ShippedModelsAreSound(keys);
    ShippedRoutesAreKnown(keys);
    assert "nvidia" in cfg.providers && "glm53" in cfg.models;
  }

  lemma {:induction false} AllClosed(c: Config, aliases: seq<string>, now: Time)
    requires ZERO_TIME <= now
    ensures |Breaker.Closed(c, map[], aliases, now)| == |aliases|
    ensures forall i :: 0 <= i < |aliases| ==>
      Breaker.Closed(c, map[], aliases, now)[i] == Breaker.CandidateFor(c, aliases[i])
  {
    if aliases != [] {
      AllClosed(c, aliases[..|aliases| - 1], now);
    }
  }

  ghost function CandidatesOf(cfg: Config, codec: Body.Codec, route: string, start: Time): seq<Breaker.Candidate> {
    Found(Setup(cfg, codec), map[], route, start)
  }

  lemma TwoKeys(a: string, b: string)
    requires a != "" && b != ""
    ensures |Pool.Opening([a, b])| == 2
  {
    assert [a, b][..1] == [a] && [a][..0] == [];
    assert Pool.Opening([a]) == [Pool.Key(a, false, ZERO_TIME)];
  }

  // Every shipped model is Nvidia's, with an attempt timeout of 20 seconds or more, within the budget.
  lemma ShippedModels(keys: seq<string>, alias: string)
    requires alias in Shipped(keys).models
    ensures var m := Shipped(keys).models[alias];
      m.provider == "nvidia" && 20 * SECOND <= m.attemptTimeout <= Shipped(keys).requestTimeout
  {
  }

  // Each candidate of a shipped route has the two keys, and its model's own timeout of at least 20 seconds.
  lemma ShippedCandidate(codec: Body.Codec, a: string, b: string, route: string, start: Time, me: nat, i: nat)
    requires a != "" && b != "" && ZERO_TIME <= start
    requires route in Shipped([a, b]).routes && i < |Shipped([a, b]).routes[route]|
    ensures var cfg := Shipped([a, b]); var candidates := CandidatesOf(cfg, codec, route, start);
      && |candidates| == |cfg.routes[route]| && candidates[i].provider == "nvidia"
      && PoolSize(Gateway.Startup(cfg, me).shared.pools, "nvidia") == 2
      && cfg.routes[route][i] in cfg.models
      && Whole(Setup(cfg, codec), candidates[i]) == cfg.models[cfg.routes[route][i]].attemptTimeout >= 20 * SECOND
  {
    var cfg := Shipped([a, b]);
    ShippedRoutesAreKnown([a, b]);
    assert SoundRoute(cfg, cfg.routes[route]);
    ShippedModels([a, b], cfg.routes[route][i]);
    AllClosed(cfg, cfg.routes[route], start);
    TwoKeys(a, b);
  }

  // The time the first two models of a shipped route have, in seconds.
  function FirstTwo(route: string): (int, int) {
    if route == "quality" then (120, 90)
    else if route == "coding" then (60, 45)
    else if route == "reasoning" then (45, 60)
    else if route == "vision" then (120, 45)
    else (20, 60)
  }

  lemma ShippedTimeouts(keys: seq<string>, route: string)
    requires route in Shipped(keys).routes
    ensures var cfg := Shipped(keys); var aliases := cfg.routes[route];
      && (if route == "quality" then |aliases| == 5 else |aliases| == 2)
      && aliases[0] in cfg.models && cfg.models[aliases[0]].attemptTimeout == FirstTwo(route).0 * SECOND
      && aliases[1] in cfg.models && cfg.models[aliases[1]].attemptTimeout == FirstTwo(route).1 * SECOND
    ensures route in BRIEF_ROUTES <==> FirstTwo(route) == (20, 60)
  {
  }

  /** With two keys the budget of 180 seconds fits the routes fast, auto and default, and none of quality,
      coding, reasoning and vision. */
  lemma ShippedRoutesThatFit(codec: Body.Codec, a: string, b: string, route: string, start: Time, me: nat)
    requires a != "" && b != "" && ZERO_TIME <= start && route in Shipped([a, b]).routes
    ensures var cfg := Shipped([a, b]);
      route in BRIEF_ROUTES <==>
      Fits(Setup(cfg, codec), Gateway.Startup(cfg, me).shared.pools, CandidatesOf(cfg, codec, route, start))
  {
    var cfg := Shipped([a, b]);
    ShippedTimeouts([a, b], route);
    ShippedCandidate(codec, a, b, route, start, me, 0);
    ShippedCandidate(codec, a, b, route, start, me, 1);
    FirstTwoDecide(Setup(cfg, codec), Gateway.Startup(cfg, me).shared.pools, CandidatesOf(cfg, codec, route, start),
      FirstTwo(route).0 * SECOND, FirstTwo(route).1 * SECOND);
  }

  // Two candidates with two keys each fit when both their timeouts twice do; and with more candidates when
  // even these do not.
  lemma FirstTwoDecide(g: Setup, pools: map<string, Pool.State>, candidates: seq<Breaker.Candidate>, x: int, y: int)
    requires g.cfg.requestTimeout > 0 && |candidates| >= 2
    requires PoolSize(pools, candidates[0].provider) == 2 == PoolSize(pools, candidates[1].provider)
    requires Whole(g, candidates[0]) == x && Whole(g, candidates[1]) == y
    ensures 2 * x + 2 * y > g.cfg.requestTimeout ==> !Fits(g, pools, candidates)
    ensures |candidates| == 2 && 2 * x + 2 * y <= g.cfg.requestTimeout ==> Fits(g, pools, candidates)
  {
    assert Spend(g, pools, candidates, 1) == 2 * x;
    assert Spend(g, pools, candidates, 2) == 2 * x + 2 * y;
    assert FitsAt(g, pools, candidates, 1) <==> 2 * x + 2 * y <= g.cfg.requestTimeout;
    assert FitsAt(g, pools, candidates, 1) ==> FitsAt(g, pools, candidates, 0);
  }

  lemma ShippedKeysRecover(codec: Body.Codec, a: string, b: string, route: string, start: Time, me: nat)
    requires a != "" && b != "" && ZERO_TIME <= start && route in Shipped([a, b]).routes
    ensures var cfg := Shipped([a, b]);
      KeysRecover(Setup(cfg, codec), Gateway.Startup(cfg, me).shared.pools, CandidatesOf(cfg, codec, route, start))
  {
    var cfg := Shipped([a, b]);
    var candidates := CandidatesOf(cfg, codec, route, start);
    ShippedCandidate(codec, a, b, route, start, me, 0);
    forall i | 0 <= i < |candidates|
      ensures Spared(Setup(cfg, codec), Gateway.Startup(cfg, me).shared.pools, candidates, i)
    {
      ShippedCandidate(codec, a, b, route, start, me, i);
    }
  }

  /** On the shipped configuration with two keys, a request to the routes fast, auto and default is never
      late, held-up time aside; on each of the other four some upstream makes every run of the engine late,
      with nobody else at work. */
  lemma ShippedRoutesOnTheEngine(codec: Body.Codec, a: string, b: string, q: Request, start: Time, me: nat)
    requires a != "" && b != "" && ZERO_TIME <= start && !q.stream && codec.fields(q.body).Some?
    requires q.model in Shipped([a, b]).routes
    ensures var cfg := Shipped([a, b]);
      var g, w, candidates := Setup(cfg, codec), Gateway.Startup(cfg, me), CandidatesOf(cfg, codec, q.model, start);
      && (q.model in BRIEF_ROUTES ==> NeverLate(g, w, me, q, candidates, start))
      && (q.model !in BRIEF_ROUTES ==> exists upstream :: Overruns(g, w, me, q, candidates, start, upstream))
  {
    var cfg := Shipped([a, b]);
    ShippedIsSound([a, b], _ => true);
    StartupIsReady(cfg, codec, _ => true, q, start, me);
    ShippedKeysRecover(codec, a, b, q.model, start, me);
    ShippedRoutesThatFit(codec, a, b, q.model, start, me);
    var candidates := CandidatesOf(cfg, codec, q.model, start);
    EngineKeepsBudgetOrNot(Setup(cfg, codec), Gateway.Startup(cfg, me), me, q, candidates, start);
  }
}
