/** The counters of internal/gateway/server.go over whole runs: each counter tells how often something was done. */
module Counters {
  import opened GatewayState
  import opened Runs

  datatype Counter =
    | Attempts | Fallbacks | Hits | Misses | Stores
    // one model's
    | AttemptsOf(alias: string) | SuccessesOf(alias: string) | FailuresOf(alias: string) | TimeoutsOf(alias: string)
    | FallbacksOf(alias: string) | LatencyOf(alias: string)

  function Reading(m: Metrics, c: Counter): int {
    match c
    case Attempts => m.attempts
    case Fallbacks => m.fallbacks
    case Hits => m.hits
    case Misses => m.misses
    case Stores => m.stores
    case AttemptsOf(alias) => MetricOf(m.models, alias).attempts
    case SuccessesOf(alias) => MetricOf(m.models, alias).successes
    case FailuresOf(alias) => MetricOf(m.models, alias).failures
    case TimeoutsOf(alias) => MetricOf(m.models, alias).timeouts
    case FallbacksOf(alias) => MetricOf(m.models, alias).fallbacks
    case LatencyOf(alias) => MetricOf(m.models, alias).totalLatency
  }

  function One(b: bool): nat { if b then 1 else 0 }

  // What an action is worth to a counter. A fallback from a model without an alias is charged to none.
  function Worth(c: Counter, a: Action): int {
    match c
    case Attempts => One(a.CountAttempt?)
    case Fallbacks => One(a.CountFallback?)
    case Hits => One(a.CountHit?)
    case Misses => One(a.CountMiss?)
    case Stores => One(a.CountStore?)
    case AttemptsOf(alias) => One(a.Record? && a.alias == alias)
    case SuccessesOf(alias) => One(a.Record? && a.alias == alias && a.success)
    case FailuresOf(alias) => One(a.Record? && a.alias == alias && !a.success)
    case TimeoutsOf(alias) => One(a.Record? && a.alias == alias && a.timeout)
    case FallbacksOf(alias) => One(a.ModelFallback? && a.alias == alias && alias != "")
    case LatencyOf(alias) => if a.Record? && a.alias == alias then a.latency else 0
  }

  ghost function Tally(h: seq<Event>, c: Counter): int {
    if h == [] then 0 else Tally(h[..|h| - 1], c) + Worth(c, h[|h| - 1].action)
  }

  lemma ActionMovesCounter(g: Setup, m: Shared, a: Action, c: Counter)
    requires Apply(g, m, a).Some?
    ensures Reading(Apply(g, m, a).value.metrics, c) == Reading(m.metrics, c) + Worth(c, a)
  {
    if Counts(a) {
      CountApplies(g, m, a);
    }
  }

  /** In every interleaving each counter has grown by exactly what was done: global ones by attempts, fallbacks,
      hits, misses and stores, a model's by its recorded attempts, successes, failures, timeouts and latencies and
      the fallbacks charged to it. */
  lemma {:induction false} CountersTell(g: Setup, w: World, h: seq<Event>, c: Counter)
    requires Run(g, w, h).Some?
    ensures Reading(Run(g, w, h).value.shared.metrics, c) == Reading(w.shared.metrics, c) + Tally(h, c)
  {
    if h != [] {
      var front, e := h[..|h| - 1], h[|h| - 1];
      CountersTell(g, w, front, c);
      ActionMovesCounter(g, Run(g, w, front).value.shared, e.action, c);
    }
  }
}
