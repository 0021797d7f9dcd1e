/** The documented budget and the engine itself: what Gateway.RouteRequest does on a runtime just started. */
module EngineBudget {
  import opened Prelude
  import opened Config
  import opened GatewayState
  import opened Protocol
  import opened Runs
  import opened Scripts
  import opened KeySafety
  import opened Spending
  import opened OverrunRuns
  import opened BudgetPromise
  import opened Determinism
  import Pool = CredentialPool
  import Breaker = CircuitBreaker
  import Body = Completions
  import Gateway

  // The request was served among these candidates, and ended past its deadline, held-up time aside.
  ghost predicate EndsLate(g: Setup, w: World, h: seq<Event>, r: nat, candidates: seq<Breaker.Candidate>) {
    && Run(g, w, h).Some? && r in Run(g, w, h).value.sessions
    && var s := Run(g, w, h).value.sessions[r];
       s.candidates == candidates && s.clock > s.deadline + s.overhead
  }

  /** Left alone with this upstream, every engine run of the request ends past its deadline. */
  ghost predicate Overruns(g: Setup, w: World, r: nat, q: Request, candidates: seq<Breaker.Candidate>, start: Time,
                           upstream: Upstream) {
    forall h, script ::
      Serves(g, w, h, r, q, start, upstream, script) && Quiet(script) ==> EndsLate(g, w, h, r, candidates)
  }

  lemma EndsLikeTheOverrun(g: Setup, w: World, r: nat, q: Request, candidates: seq<Breaker.Candidate>, start: Time,
                           k: seq<Event>, h: seq<Event>, script: Script)
    requires Ready(g, w, r, q, candidates, start) && !q.stream && Overrun(g, w, r, q, candidates, start, k)
    requires Serves(g, w, h, r, q, start, Answering(Exchanges(k, r)), script) && Quiet(script)
    ensures EndsLate(g, w, h, r, candidates)
  {
    var upstream := Answering(Exchanges(k, r));
    UnderWay(g, w, r, q, candidates, start, k);
    AnsweredAsGiven(g, w, k, r, Exchanges(k, r), script);
    FirstEvent(g, w, k, r, upstream, script);
    FirstEvent(g, w, h, r, upstream, script);
    var i := ComesBy(g, w, k, h, r, upstream, script, script);
    ClockGoesOn(g, w, h, i, r);
    NoOverhead(g, w, h, r, upstream, script);
  }

  // A request past its deadline without having been held up has been given its candidates.
  lemma UnderWay(g: Setup, w: World, r: nat, q: Request, candidates: seq<Breaker.Candidate>, start: Time, k: seq<Event>)
    requires Ready(g, w, r, q, candidates, start) && !q.stream && Overrun(g, w, r, q, candidates, start, k)
    ensures !Now(g, w, k, r).at.Fresh? && !Now(g, w, k, r).at.Started?
  {
    RequestsAreFrugal(g, w, k, r);
    RequestsAreSound(g, w, k, r);
  }

  /** On a route on which a candidate overshoots some upstream makes every engine run late, with nobody else
      at work. */
  lemma SomeUpstreamOverruns(g: Setup, w: World, r: nat, q: Request, candidates: seq<Breaker.Candidate>, start: Time,
                             i: nat)
    returns (upstream: Upstream)
    requires Ready(g, w, r, q, candidates, start) && !q.stream
    requires i < |candidates| && Overshoots(g, w.shared.pools, candidates, i)
    ensures Overruns(g, w, r, q, candidates, start, upstream)
  {
    var k := LateOverrun(g, w, r, q, candidates, start, i);
    upstream := Answering(Exchanges(k, r));
    forall h, script | Serves(g, w, h, r, q, start, upstream, script) && Quiet(script)
      ensures EndsLate(g, w, h, r, candidates)
    {
      EndsLikeTheOverrun(g, w, r, q, candidates, start, k, h, script);
    }
  }

  /** No upstream makes the engine late: whatever it answers and whatever others do, an engine run of the
      request among these candidates ends by the deadline, held-up time aside. */
  ghost predicate NeverLate(g: Setup, w: World, r: nat, q: Request, candidates: seq<Breaker.Candidate>, start: Time) {
    forall h, upstream, script :: Serves(g, w, h, r, q, start, upstream, script) ==> !EndsLate(g, w, h, r, candidates)
  }

  /** The engine and the documented budget: when the route fits no upstream makes the engine late, and when it
      does not some upstream makes every run of it late, with nobody else at work. */
  lemma EngineKeepsBudgetOrNot(g: Setup, w: World, r: nat, q: Request, candidates: seq<Breaker.Candidate>, start: Time)
    requires Ready(g, w, r, q, candidates, start) && !q.stream && KeysRecover(g, w.shared.pools, candidates)
    ensures Fits(g, w.shared.pools, candidates) ==> NeverLate(g, w, r, q, candidates, start)
    ensures !Fits(g, w.shared.pools, candidates) ==>
      exists upstream :: Overruns(g, w, r, q, candidates, start, upstream)
  {
    if Fits(g, w.shared.pools, candidates) {
      forall h, upstream, script | Serves(g, w, h, r, q, start, upstream, script)
        ensures !EndsLate(g, w, h, r, candidates)
      {
        RequestsAreFrugal(g, w, h, r);
        RunsRestrict(g, w, h);
        FitsStays(g, w.shared.pools, Run(g, w, h).value.shared.pools, candidates);
      }
    } else {
      var i := MisfitsOvershoot(g, w.shared.pools, candidates);
      var upstream := SomeUpstreamOverruns(g, w, r, q, candidates, start, i);
    }
  }

  // ---- a runtime just started ----

  lemma {:induction false} OpeningKeys(values: seq<string>)
    ensures forall k :: k in Pool.Opening(values) ==> !k.disabled && k.until == ZERO_TIME
  {
    if values != [] {
      OpeningKeys(values[..|values| - 1]);
    }
  }

  lemma StartupIsRoutable(cfg: Config, codec: Body.Codec, parsesURL: string -> bool, q: Request, start: Time, me: nat)
    requires SoundConfig(cfg, parsesURL) && codec.fields(q.body).Some?
    ensures Routable(Setup(cfg, codec), Gateway.Startup(cfg, me), q, Found(Setup(cfg, codec), map[], q.model, start))
  {
    Breaker.RoutingIsClosed(cfg, parsesURL, q.model, map[], start);
  }

  /** A runtime just started is ready for any request whose body can be patched. */
  lemma StartupIsReady(cfg: Config, codec: Body.Codec, parsesURL: string -> bool, q: Request, start: Time, me: nat)
    requires SoundConfig(cfg, parsesURL) && ZERO_TIME <= start && codec.fields(q.body).Some?
    ensures Ready(Setup(cfg, codec), Gateway.Startup(cfg, me), me, q,
                  Found(Setup(cfg, codec), map[], q.model, start), start)
  {
    var g, w := Setup(cfg, codec), Gateway.Startup(cfg, me);
    StartupIsRoutable(cfg, codec, parsesURL, q, start, me);
    forall p | p in w.shared.pools ensures UsableBut(w.shared.pools[p], start, {}) {
      OpeningKeys(cfg.providers[p].apiKeys);
    }
  }

  /** One request on a runtime just started: the engine makes such a run of it, and ends when the run does. */
  method RouteOne(cfg: Config, codec: Body.Codec, parsesURL: string -> bool, upstream: Upstream, script: Script,
                  start: Time, q: Request, ghost me: nat)
    returns (r: Prelude.Result<Outcome, Fault>, end: Time)
    ensures r.Ok? <==> SoundConfig(cfg, parsesURL)
    ensures r.Ok? ==> exists h :: ServedBy(cfg, codec, me, q, start, upstream, script, h, r.value, end)
  {
    var built := Gateway.BuildState(cfg, codec, parsesURL, upstream, script, start, me);
    if built.Err? {
      return Err(built.error), start;
    }
    var gateway := built.value;
    var result := gateway.RouteRequest(q);
    r, end := Ok(result), gateway.clock;
    assert ServedBy(cfg, codec, me, q, start, upstream, script, gateway.history, result, end);
  }

  ghost predicate ServedBy(cfg: Config, codec: Body.Codec, me: nat, q: Request, start: Time, upstream: Upstream,
                           script: Script, h: seq<Event>, result: Outcome, end: Time) {
    var g, w := Setup(cfg, codec), Gateway.Startup(cfg, me);
    && Serves(g, w, h, me, q, start, upstream, script)
    && var s := Run(g, w, h).value.sessions[me]; s.result == result && s.clock == end
  }

  /** So against such an upstream the engine, left alone, ends its request past the budget. */
  method OverrunTheBudget(cfg: Config, codec: Body.Codec, parsesURL: string -> bool, upstream: Upstream, script: Script,
                          start: Time, q: Request, ghost me: nat)
    returns (end: Time)
    requires SoundConfig(cfg, parsesURL) && Quiet(script)
    requires Overruns(Setup(cfg, codec), Gateway.Startup(cfg, me), me, q,
                      Found(Setup(cfg, codec), map[], q.model, start), start, upstream)
    ensures end > start + cfg.requestTimeout
  {
    var r;
    r, end := RouteOne(cfg, codec, parsesURL, upstream, script, start, q, me);
    ghost var g, w := Setup(cfg, codec), Gateway.Startup(cfg, me);
    ghost var h :| ServedBy(cfg, codec, me, q, start, upstream, script, h, r.value, end);
    DeadlineIsBudget(g, w, h, me);
  }

  lemma {:induction false} DeadlineIsBudget(g: Setup, w: World, h: seq<Event>, r: nat)
    requires Opening(w) && r in w.sessions && Run(g, w, h).Some?
    ensures r in Run(g, w, h).value.sessions
    ensures var s := Run(g, w, h).value.sessions[r]; !s.at.Fresh? ==> s.deadline == s.start + g.cfg.requestTimeout
  {
    if h != [] {
      DeadlineIsBudget(g, w, h[..|h| - 1], r);
      if h[|h| - 1].who == r {
        DeadlineStays(g, Run(g, w, h[..|h| - 1]).value.sessions[r], h[|h| - 1].action);
      }
    }
  }

  lemma DeadlineStays(g: Setup, s: Session, a: Action)
    requires Advance(g, s, a).Some? && (!s.at.Fresh? ==> s.deadline == s.start + g.cfg.requestTimeout)
    ensures Advance(g, s, a).value.deadline == Advance(g, s, a).value.start + g.cfg.requestTimeout
  {
  }
}
