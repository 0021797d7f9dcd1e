/** What the world outside does to one request: how upstream answers it, how long it is held up, and what
    other requests do meanwhile. */
module Scripts {
  import opened Prelude
  import opened GatewayState
  import opened Protocol
  import opened Runs
  import Cache = ResponseCache

  // What upstream and the client do with one attempt, left to themselves.
  datatype Raw =
    | Vanish(after: nat)   // the client goes away
    | Break(after: nat)    // the connection fails
    | Respond(after: nat, reading: nat, status: int, header: Cache.Header, body: Bytes, broken: bool, retryAfter: nat)

  // A call some other request makes on the shared state.
  datatype Op =
    | Next(provider: string, now: Time)
    | Cooldown(provider: string, idx: int, until: Time)
    | Disabling(provider: string, idx: int)
    | Success(alias: string)
    | Failure(alias: string, reason: string, now: Time, retryAfter: Duration)
    | Get(key: string, now: Time)
    | Set(key: string, value: Cache.Response, ttl: Duration, now: Time)
    | Size(now: Time)
    | Counting(action: Action)

  datatype Call = Call(who: nat, op: Op)

  // One turn of the world: how long it holds the request up, and what others do meanwhile.
  datatype Turn = Turn(wait: nat, others: seq<Call>)

  // The request's k-th attempt meets upstream(k), and its k-th wait is script(k).
  type Upstream = nat -> Raw
  type Script = nat -> Turn

  // An attempt under its timeout: the header wait is cut off at the timeout, and so, unless the request
  // streams, is the reading of the body.
  function Settled(raw: Raw, timeout: nat, r: Request): Exchange {
    if raw.after >= timeout then TimedOut(timeout)
    else
      match raw
      case Vanish(after) => Cancelled(after)
      case Break(after) => Unreachable(after)
      case Respond(after, reading, status, header, body, broken, retryAfter) =>
        var took := after + if Probes(r) || !Successful(status) then reading else 0;
        if !r.stream && took > timeout then Answer(timeout, status, header, body, true, retryAfter)
        else Answer(took, status, header, body, broken, retryAfter)
  }

  /** An attempt times out exactly when nothing has come by then; otherwise it ends as it was going to, except that
      a body still being read at the timeout breaks off there, unless the request streams. */
  lemma SettledIs(raw: Raw, timeout: nat, r: Request)
    ensures var x := Settled(raw, timeout, r);
      && (x.TimedOut? <==> raw.after >= timeout) && (x.TimedOut? ==> x.took == timeout)
      && (x.Cancelled? <==> raw.after < timeout && raw.Vanish?) && (x.Cancelled? ==> x.took == raw.after)
      && (x.Unreachable? <==> raw.after < timeout && raw.Break?) && (x.Unreachable? ==> x.took == raw.after)
      && (x.Answer? <==> raw.after < timeout && raw.Respond?)
    ensures var x := Settled(raw, timeout, r);
      x.Answer? ==>
        var read := (!r.stream && r.path == "/v1/chat/completions") || x.status < 200 || x.status >= 300;
        var late := !r.stream && read && raw.after + raw.reading > timeout;
        && x.status == raw.status && x.header == raw.header && x.body == raw.body && x.retryAfter == raw.retryAfter
        && (x.broken <==> raw.broken || late)
        && x.took == if late then timeout else if read then raw.after + raw.reading else raw.after
  {
  }

  // What becomes of an attempt under way is the request's to take.
  lemma SettledAdvances(g: Setup, s: Session, raw: Raw)
    requires s.at.Calling? && 0 < s.visit.timeout
    ensures var x := Settled(raw, s.visit.timeout, s.request);
      && InTime(s, x)
      && Advance(g, s, Exchanged(s.visit.sent, s.key, x)) ==
           Some(s.(at := Answered, exchange := x, calls := s.calls + 1, clock := s.clock + x.took, open := x.Answer?))
  {
  }

  // The exchanges request r has had, in order.
  ghost function Exchanges(h: seq<Event>, r: nat): seq<Exchange> {
    if h == [] then []
    else
      var e := h[|h| - 1];
      Exchanges(h[..|h| - 1], r) + if e.who == r && e.action.Exchanged? then [e.action.exchange] else []
  }

  // How often it has waited.
  ghost function Waits(h: seq<Event>, r: nat): nat {
    if h == [] then 0
    else
      var e := h[|h| - 1];
      Waits(h[..|h| - 1], r) + if e.who == r && e.action.Wait? then 1 else 0
  }

  ghost predicate Crowded(script: Script) { exists t :: script(t).others != [] }

  // Event e, coming after h, is the request's own and as the world has it, or another's.
  ghost predicate Follows(g: Setup, w: World, h: seq<Event>, e: Event, r: nat, upstream: Upstream, script: Script) {
    if e.who != r then Crowded(script)
    else
      match e.action
      case Wait(time) => time == script(Waits(h, r)).wait
      case Exchanged(_, _, x) =>
        && Run(g, w, h).Some? && r in Run(g, w, h).value.sessions
        && var s := Run(g, w, h).value.sessions[r];
           s.visit.timeout >= 0 && x == Settled(upstream(|Exchanges(h, r)|), s.visit.timeout, s.request)
      case _ => true
  }

  /** Upstream answered every attempt of the request as `upstream` says, every wait was as `script` says,
      and nobody else did anything unless `script` says so. */
  ghost predicate Scripted(g: Setup, w: World, h: seq<Event>, r: nat, upstream: Upstream, script: Script) {
    h == [] ||
    (&& Scripted(g, w, h[..|h| - 1], r, upstream, script)
     && Follows(g, w, h[..|h| - 1], h[|h| - 1], r, upstream, script))
  }

  lemma OneMoreScripted(g: Setup, w: World, h: seq<Event>, e: Event, r: nat, upstream: Upstream, script: Script)
    ensures Scripted(g, w, h + [e], r, upstream, script) <==>
      Scripted(g, w, h, r, upstream, script) && Follows(g, w, h, e, r, upstream, script)
    ensures Waits(h + [e], r) == Waits(h, r) + if e.who == r && e.action.Wait? then 1 else 0
    ensures Exchanges(h + [e], r) ==
      Exchanges(h, r) + if e.who == r && e.action.Exchanged? then [e.action.exchange] else []
  {
    assert (h + [e])[..|h|] == h;
  }

  lemma NothingYet(g: Setup, shared: Shared, r: nat, upstream: Upstream, script: Script)
    ensures var w := Following(shared, {r});
      Run(g, w, []) == Some(w) && Scripted(g, w, [], r, upstream, script) && w.sessions == map[r := FRESH]
    ensures Exchanges([], r) == [] && Waits([], r) == 0
  {
  }

  /** A run the engine may make of request q, begun at `start` and now over, in this world. */
  ghost predicate Serves(g: Setup, w: World, h: seq<Event>, r: nat, q: Request, start: Time, upstream: Upstream,
                         script: Script) {
    && Run(g, w, h).Some? && r in Run(g, w, h).value.sessions
    && Scripted(g, w, h, r, upstream, script)
    && var s := Run(g, w, h).value.sessions[r]; s.at.Done? && s.request == q && s.start == start
  }

  // Nothing holds the request up, and nobody else does anything.
  ghost predicate Quiet(script: Script) {
    forall t :: script(t) == Turn(0, [])
  }
}
