/** What one request routed by internal/gateway/server.go may do next, given what it has done. */
module Protocol {
  import opened Prelude
  import opened Config
  import opened KeyFraming
  import opened GatewayState
  import Text
  import Breaker = CircuitBreaker
  import Cache = ResponseCache
  import Body = Completions
  import Provider

  const CHAT := "/v1/chat/completions"
  const ERROR_BODY_LIMIT: nat := 1024 * 1024
  const TRANSPORT_COOLDOWN := 5 * SECOND
  const KEY_COOLDOWN := 10 * SECOND

  // Where a request stands in the candidate loop and the key loop inside it.
  datatype Point =
    | Fresh | Started
    | Between                 // top of the candidate loop
    | Charged                 // the fallback counted, its model not yet
    | Arrived                 // ready to visit candidate ci
    | Consulting | Consulted  // the cache, and its counter
    | Replaying               // a hit, counted
    | Trying                  // top of the key loop
    | Drawn | Calling         // a key drawn; the attempt counted and in flight
    | Answered                // answered, the model's counters pending
    | Noted                   // counted, health facts pending
    | Cooled                  // a rate-limited key cooled, the model's blame pending
    | Pleased                 // success: the breaker told, the cache pending
    | Stored                  // stored, the store not yet counted
    | Delivering
    | Leaving                 // done with this candidate
    | Done

  // What the request has added to each counter.
  datatype Ledger = Ledger(
    attempts: nat, recorded: nat, successes: nat, fallbacks: nat, charged: nat, nameless: nat,
    hits: nat, misses: nat, stores: nat)

  datatype Session = Session(
    at: Point, request: Request, start: Time, deadline: Time, clock: Time, overhead: nat,
    candidates: seq<Breaker.Candidate>, ci: nat,
    visit: Visit, entered: Time, enteredOverhead: nat, draws: nat, calls: nat, events: nat,
    key: nat, exchange: Exchange, open: bool, hit: Option<Cache.Response>, result: Outcome,
    ledger: Ledger, disabled: set<(string, nat)>, cooled: set<(string, nat, Time)>,
    allowance: nat, widest: nat)

  const NO_IDENTITY := Identity([], [], [], [], [], [])
  const NO_VISIT := Visit(Breaker.Candidate("", "", ""), 0, 0, NO_IDENTITY, false)

  const FRESH := Session(
    Fresh, Request("", "", "", [], false, ""), 0, 0, 0, 0, [], 0,
    NO_VISIT, 0, 0, 0, 0, 0, 0, Cancelled(0), false, None, NoRoute,
    Ledger(0, 0, 0, 0, 0, 0, 0, 0, 0), {}, {}, 0, 0)

  // ---- the pure decisions of the engine ----

  function EffectiveTimeout(model: Duration, remaining: Duration): Duration {
    if model <= 0 || model > remaining then remaining else model
  }

  function MinPositive(a: Duration, b: Duration): Duration {
    if a <= 0 then b else if a < b then a else b
  }

  predicate CachesKind(c: ResponseCache, kind: string) {
    exists i :: 0 <= i < |c.providerKinds| && Text.Lower(Text.TrimSpace(c.providerKinds[i])) == Text.Lower(kind)
  }

  function KindOf(g: Setup, provider: string): string {
    Provider.Kind(if provider in g.cfg.providers then g.cfg.providers[provider].kind else "")
  }

  function SentFor(g: Setup, r: Request, c: Breaker.Candidate, patched: Bytes): Identity {
    var b := g.codec.bytesOf;
    Identity(b(c.provider), b(c.upstreamModel), b(r.verb), b(r.path), b(r.query), patched)
  }

  predicate Cacheable(g: Setup, r: Request, c: Breaker.Candidate, patched: Bytes) {
    && g.cfg.cache.enabled && !r.stream && r.path == CHAT
    && CachesKind(g.cfg.cache, KindOf(g, c.provider))
    && Body.AllowsCache(g.codec, patched)
  }

  function PatchFor(g: Setup, r: Request, c: Breaker.Candidate): Option<Bytes> {
    Body.Patched(g.codec, r.body, c.upstreamModel, ModelNamed(g.cfg, c.alias).params)
  }

  // The visit to candidate c with `remaining` of the request's time left. The timeout is fixed here,
  // once for all the keys tried.
  function VisitTo(g: Setup, r: Request, c: Breaker.Candidate, limit: nat, remaining: Duration, patched: Bytes): Visit {
    Visit(c, limit, EffectiveTimeout(ModelNamed(g.cfg, c.alias).attemptTimeout, remaining),
      SentFor(g, r, c, patched), Cacheable(g, r, c, patched))
  }

  function KeyFor(g: Setup, id: Identity): string { g.codec.digest(Preimage(Parts(id))) }

  predicate Successful(status: int) { 200 <= status < 300 }

  // Whether a success is read and judged before it is passed on.
  predicate Probes(r: Request) { !r.stream && r.path == CHAT }

  datatype Verdict =
    | Gone | Late | Down                          // the client left, the attempt timed out, or never connected
    | Unusable(reason: string)                    // a success that is no use
    | Accepted
    | Rejected(decision: Provider.Decision)

  function ErrorBody(x: Exchange): Bytes
    requires x.Answer?
  {
    x.body[..Min(|x.body|, ERROR_BODY_LIMIT)]
  }

  function VerdictOn(g: Setup, r: Request, v: Visit, x: Exchange): Verdict {
    match x
    case Cancelled(_) => Gone
    case TimedOut(_) => Late
    case Unreachable(_) => Down
    case Answer(_, status, _, body, broken, retryAfter) =>
      if Successful(status) then
        if !Probes(r) || |body| > Body.PROBE_LIMIT then Accepted
        else if broken then Unusable("invalid_success_response")
        else
          match Body.Judged(g.codec, body, v.sent.body)
          case Useful => Accepted
          case Useless(reason) => Unusable(reason)
      else
        Rejected(Provider.Classify(KindOf(g, v.candidate.provider), status, g.codec.asText(ErrorBody(x)), retryAfter))
  }

  function Judgement(g: Setup, s: Session): Verdict { VerdictOn(g, s.request, s.visit, s.exchange) }

  function ReasonFor(d: Provider.Decision, status: int): string {
    if d.reason == "" then Text.Decimal(status) else d.reason
  }

  // What is recorded of the attempt: status, success, timeout and reason.
  function Recorded(v: Verdict, x: Exchange): (int, bool, bool, string) {
    var status := if x.Answer? then x.status else 0;
    match v
    case Gone => (status, false, false, "client_canceled")
    case Late => (status, false, true, "attempt_timeout")
    case Down => (status, false, false, "upstream_error")
    case Unusable(reason) => (status, false, false, reason)
    case Accepted => (status, true, false, "")
    case Rejected(d) => (status, false, false, d.reason)
  }

  // The breaker failure the verdict calls for: its reason and Retry-After.
  function Blames(v: Verdict, x: Exchange): Option<(string, Duration)> {
    match v
    case Late => Some(("attempt_timeout", 0))
    case Unusable(reason) => Some((reason, 0))
    case Rejected(d) =>
      if d.action.FallbackModel? then Some((ReasonFor(d, if x.Answer? then x.status else 0), d.retryAfter)) else None
    case _ => None
  }

  // How long the key is cooled by this verdict.
  function CoolsFor(v: Verdict): Option<Duration> {
    match v
    case Down => Some(TRANSPORT_COOLDOWN)
    case Rejected(d) =>
      if d.action.RetryKey? then Some(Max(d.retryAfter, KEY_COOLDOWN))
      else if d.action.FallbackModel? && d.cooldownCredential then Some(MinPositive(d.retryAfter, KEY_COOLDOWN))
      else None
    case _ => None
  }

  // The response to keep: an accepted, cacheable one whose whole body is within the limit.
  predicate Keeps(g: Setup, s: Session) {
    s.visit.cacheable && s.exchange.Answer? && !s.exchange.broken && |s.exchange.body| <= g.cfg.cache.maxBodyBytes
  }

  function Received(x: Exchange): Cache.Response
    requires x.Answer?
  {
    Cache.Response(x.status, x.header, x.body)
  }

  // ---- the steps ----

  predicate InTime(s: Session, x: Exchange) {
    match x
    case TimedOut(took) => took == s.visit.timeout
    case Answer(took, _, _, _, _, _) => took <= s.visit.timeout || s.request.stream
    case _ => x.took < s.visit.timeout
  }

  predicate AtCandidate(s: Session) {
    s.ci < |s.candidates| && (s.at.Arrived? || (s.at.Between? && s.ci == 0))
  }

  // The candidate at hand has a provider.
  predicate Served(g: Setup, s: Session)
    requires s.ci < |s.candidates|
  {
    s.candidates[s.ci].provider in g.cfg.providers
  }

  // The upstream body is still open when the attempt is recorded: it is of an accepted answer which the
  // probe has not read to its end.
  predicate StaysOpen(g: Setup, s: Session) {
    s.exchange.Answer? && Judgement(g, s).Accepted? && !(Probes(s.request) && |s.exchange.body| <= Body.PROBE_LIMIT)
  }

  // The whole answer, as it came.
  predicate HandsOn(s: Session, response: Cache.Response, fails: bool, live: bool) {
    s.exchange.Answer? && response == Received(s.exchange) && fails == s.exchange.broken && live == s.open
  }

  predicate MayFinish(g: Setup, s: Session, r: Outcome) {
    match r
    case NoRoute => s.at.Between? && s.candidates == []
    case Exhausted => s.at.Between? && s.candidates != [] && s.ci == |s.candidates|
    case Expired => AtCandidate(s) && Served(g, s) && s.clock >= s.deadline
    case Unpatchable =>
      AtCandidate(s) && Served(g, s) && s.clock < s.deadline && PatchFor(g, s.request, s.candidates[s.ci]).None?
    case ClientGone => s.at.Noted? && Judgement(g, s).Gone?
    case Reply(response, fails, live) =>
      match s.at
      case Replaying => s.hit == Some(response) && !fails && !live
      case Pleased => !Keeps(g, s) && HandsOn(s, response, fails, live)
      case Delivering => HandsOn(s, response, fails, live)
      case Noted =>
        && Judgement(g, s).Rejected? && Judgement(g, s).decision.action.Terminal? && s.exchange.Answer?
        && response == Cache.Response(s.exchange.status, s.exchange.header, ErrorBody(s.exchange)) && !fails && !live
      case _ => false
  }

  function If(b: bool, s: Session): Option<Session> { if b then Some(s) else None }

  // Where the request goes once the attempt is recorded and no health fact is due.
  predicate MayLeave(g: Setup, s: Session) {
    || s.at.Leaving?
    || (s.at.Trying? && s.draws == s.visit.limit)
    || (s.at.Noted? && Judgement(g, s).Rejected? && Judgement(g, s).decision.action.SkipModel?)
  }

  /** The request's next state, or None if the action is not the request's to take now. */
  function Advance(g: Setup, s: Session, a: Action): Option<Session> {
    match a
    case Begin(r, now) =>
      If(s.at.Fresh?,
        s.(at := Started, request := r, start := now, clock := now, deadline := now + g.cfg.requestTimeout))
    case Wait(d) =>
      If(!s.at.Fresh? && !s.at.Calling? && !s.at.Done?, s.(clock := s.clock + d, overhead := s.overhead + d))
    case Select(model, now, found) =>
      If(s.at.Started? && model == s.request.model && now == s.clock, s.(at := Between, candidates := found, ci := 0))
    case CountFallback =>
      If(s.at.Between? && 0 < s.ci < |s.candidates|,
        s.(at := Charged, ledger := s.ledger.(fallbacks := s.ledger.fallbacks + 1)))
    case ModelFallback(alias, reason) =>
      If(&& s.at.Charged? && 0 < s.ci <= |s.candidates| && alias == s.candidates[s.ci - 1].alias
         && reason == "route_fallback",
        s.(at := Arrived, ledger := if alias == "" then s.ledger.(nameless := s.ledger.nameless + 1)
                                    else s.ledger.(charged := s.ledger.charged + 1)))
    case Skip =>
      If(AtCandidate(s) && !Served(g, s), s.(at := Between, ci := s.ci + 1))
    case Enter(v, now) =>
      If(&& AtCandidate(s) && Served(g, s) && now == s.clock < s.deadline
         && PatchFor(g, s.request, s.candidates[s.ci]).Some?
         && v == VisitTo(g, s.request, s.candidates[s.ci], v.limit, s.deadline - now,
                         PatchFor(g, s.request, s.candidates[s.ci]).value),
        s.(at := if v.cacheable then Consulting else Trying, visit := v, entered := now, enteredOverhead := s.overhead,
           draws := 0, calls := 0, events := 0, ci := s.ci + 1,
           allowance := s.allowance + v.limit, widest := Max(s.widest, v.limit)))
    case LookUp(key, now, hit) =>
      If(s.at.Consulting? && key == KeyFor(g, s.visit.sent) && now == s.clock, s.(at := Consulted, hit := hit))
    case CountHit =>
      If(s.at.Consulted? && s.hit.Some?, s.(at := Replaying, ledger := s.ledger.(hits := s.ledger.hits + 1)))
    case CountMiss =>
      If(s.at.Consulted? && s.hit.None?, s.(at := Trying, ledger := s.ledger.(misses := s.ledger.misses + 1)))
    case Draw(provider, now, picked) =>
      If(s.at.Trying? && s.draws < s.visit.limit && provider == s.visit.candidate.provider && now == s.clock,
        if picked.None? then s.(at := Leaving)
        else s.(at := Drawn, key := picked.value, draws := s.draws + 1))
    case CountAttempt =>
      If(s.at.Drawn?, s.(at := Calling, ledger := s.ledger.(attempts := s.ledger.attempts + 1)))
    case Exchanged(sent, key, x) =>
      If(s.at.Calling? && sent == s.visit.sent && key == s.key && InTime(s, x),
        s.(at := Answered, exchange := x, calls := s.calls + 1, clock := s.clock + x.took, open := x.Answer?))
    case Close =>
      If(s.open && ((s.at.Answered? && !StaysOpen(g, s)) || (s.at.Pleased? && Keeps(g, s))), s.(open := false))
    case Record(alias, latency, status, success, timeout, reason) =>
      If(&& s.at.Answered? && alias == s.visit.candidate.alias
         && (status, success, timeout, reason) == Recorded(Judgement(g, s), s.exchange)
         && latency == s.exchange.took && s.open == StaysOpen(g, s),
        s.(at := Noted, ledger := s.ledger.(recorded := s.ledger.recorded + 1,
                                            successes := s.ledger.successes + if success then 1 else 0)))
    case Cool(provider, idx, until) =>
      var d := CoolsFor(Judgement(g, s));
      If(s.at.Noted? && d.Some? && provider == s.visit.candidate.provider && idx == s.key && until == s.clock + d.value,
        s.(at := if Judgement(g, s).Rejected? && Judgement(g, s).decision.action.FallbackModel? then Cooled else Trying,
           cooled := s.cooled + {(provider, s.key, until)}))
    case Disable(provider, idx) =>
      If(&& s.at.Noted? && Judgement(g, s).Rejected? && Judgement(g, s).decision.action.DisableKey?
         && provider == s.visit.candidate.provider && idx == s.key,
        s.(at := Trying, disabled := s.disabled + {(provider, s.key)}))
    case Blame(alias, reason, now, retryAfter) =>
      var v := Judgement(g, s);
      If(&& Blames(v, s.exchange) == Some((reason, retryAfter)) && alias == s.visit.candidate.alias && now == s.clock
         && (s.at.Cooled? || (s.at.Noted? && CoolsFor(v).None?)),
        s.(at := Leaving, events := s.events + 1))
    case Praise(alias) =>
      If(s.at.Noted? && Judgement(g, s).Accepted? && alias == s.visit.candidate.alias,
        s.(at := Pleased, events := s.events + 1))
    case Store(key, value, ttl, now, stored, _) =>
      If(&& s.at.Pleased? && !s.open && Keeps(g, s) && key == KeyFor(g, s.visit.sent)
         && value == Received(s.exchange) && ttl == g.cfg.cache.ttl && now == s.clock,
        s.(at := if stored then Stored else Delivering))
    case CountStore =>
      If(s.at.Stored?, s.(at := Delivering, ledger := s.ledger.(stores := s.ledger.stores + 1)))
    case Leave =>
      If(MayLeave(g, s), s.(at := Between))
    case Finish(r) =>
      If(MayFinish(g, s, r), s.(at := Done, result := r))
    case Prune(_) => None
  }

  lemma WaitAdvances(g: Setup, s: Session, time: nat)
    requires !s.at.Fresh? && !s.at.Calling? && !s.at.Done?
    ensures Advance(g, s, Wait(time)) == Some(s.(clock := s.clock + time, overhead := s.overhead + time))
  {
  }

  lemma EnterAdvances(g: Setup, s: Session, v: Visit, r: Request, c: Breaker.Candidate, remaining: Duration,
                      patched: Bytes)
    requires AtCandidate(s) && Served(g, s) && c == s.candidates[s.ci] && r == s.request
    requires remaining == s.deadline - s.clock > 0 && PatchFor(g, r, c) == Some(patched)
    requires v == VisitTo(g, r, c, v.limit, remaining, patched)
    ensures Advance(g, s, Enter(v, s.clock)).Some? && Entered(s, Advance(g, s, Enter(v, s.clock)).value, v)
  {
  }

  // t is s just come to visit v.
  predicate Entered(s: Session, t: Session, v: Visit) {
    && t.at == (if v.cacheable then Consulting else Trying) && t.visit == v && t.ci == s.ci + 1 && t.draws == 0
    && t.open == s.open && t.clock == s.clock && t.overhead == s.overhead
    && t.request == s.request && t.start == s.start && t.deadline == s.deadline && t.candidates == s.candidates
  }

  // The record an attempt calls for.
  function RecordOf(g: Setup, s: Session): Action {
    var (status, success, timeout, reason) := Recorded(Judgement(g, s), s.exchange);
    Record(s.visit.candidate.alias, s.exchange.took, status, success, timeout, reason)
  }

  lemma RecordAdvances(g: Setup, s: Session)
    requires s.at.Answered? && s.open == StaysOpen(g, s)
    ensures Advance(g, s, RecordOf(g, s)).Some?
    ensures var t := Advance(g, s, RecordOf(g, s)).value; t == s.(at := Noted, ledger := t.ledger)
  {
  }

  lemma CountingTakesNoTime(g: Setup, s: Session, a: Action)
    requires Counts(a) && Advance(g, s, a).Some?
    ensures Advance(g, s, a).value.clock == s.clock && !s.at.Fresh? && !Advance(g, s, a).value.at.Fresh?
  {
  }
}
