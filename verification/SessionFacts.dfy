/** What holds of a request at every point of its run, whatever the other requests do. */
module SessionFacts {
  import opened Prelude
  import opened GatewayState
  import opened Protocol
  import Provider

  predicate InKeyLoop(p: Point) {
    p in {Trying, Drawn, Calling, Answered, Noted, Cooled, Pleased, Stored, Delivering, Leaving}
  }

  predicate InVisit(p: Point) { InKeyLoop(p) || p in {Consulting, Consulted} }

  predicate InFlight(s: Session) { s.at in {Calling, Answered} }

  // ---- counters ----

  /** A request's own counters balance: attempts against recorded attempts, fallbacks against charged
      models, at most one success and one store, and no store without a miss. */
  ghost predicate Balanced(g: Setup, s: Session) {
    CountsBalance(s) && MissesFirst(s) && StoresOnce(s) && SucceedsOnce(g, s)
  }

  ghost predicate CountsBalance(s: Session) {
    && s.ledger.attempts == s.ledger.recorded + (if InFlight(s) then 1 else 0)
    && s.ledger.fallbacks == s.ledger.charged + s.ledger.nameless + (if s.at.Charged? then 1 else 0)
  }

  ghost predicate StoresOnce(s: Session) {
    && s.ledger.stores <= 1
    && (s.ledger.stores == 1 ==> s.ledger.misses > 0 && s.at in {Delivering, Done})
    && (s.at.Stored? ==> s.ledger.misses > 0)
  }

  ghost predicate MissesFirst(s: Session) {
    InKeyLoop(s.at) && s.visit.cacheable ==> s.ledger.misses > 0
  }

  ghost predicate SucceedsOnce(g: Setup, s: Session) {
    && s.ledger.successes <= 1
    && (s.ledger.successes == 1 ==>
          || s.at in {Pleased, Stored, Delivering, Done}
          || (s.at.Noted? && Judgement(g, s).Accepted?))
  }

  lemma AdvanceKeepsBalance(g: Setup, s: Session, a: Action)
    requires Balanced(g, s) && Advance(g, s, a).Some?
    ensures Balanced(g, Advance(g, s, a).value)
  {
    AdvanceKeepsCounts(g, s, a);
    AdvanceKeepsMisses(g, s, a);
    AdvanceKeepsStores(g, s, a);
    AdvanceKeepsSuccess(g, s, a);
  }

  lemma AdvanceKeepsCounts(g: Setup, s: Session, a: Action)
    requires CountsBalance(s) && Advance(g, s, a).Some?
    ensures CountsBalance(Advance(g, s, a).value)
  {
  }

  lemma AdvanceKeepsMisses(g: Setup, s: Session, a: Action)
    requires MissesFirst(s) && Advance(g, s, a).Some?
    ensures MissesFirst(Advance(g, s, a).value)
  {
  }

  lemma AdvanceKeepsStores(g: Setup, s: Session, a: Action)
    requires StoresOnce(s) && MissesFirst(s) && Advance(g, s, a).Some?
    ensures StoresOnce(Advance(g, s, a).value)
  {
    if !a.CountStore? && !a.CountMiss? {
      NothingStored(g, s, a);
    }
  }

  lemma NothingStored(g: Setup, s: Session, a: Action)
    requires !a.CountStore? && !a.CountMiss? && Advance(g, s, a).Some?
    ensures var t := Advance(g, s, a).value;
      && t.ledger.stores == s.ledger.stores && t.ledger.misses == s.ledger.misses
      && (s.at in {Delivering, Done} ==> t.at in {Delivering, Done})
      && (t.at.Stored? ==> s.at.Stored? || (s.at.Pleased? && s.visit.cacheable))
  {
  }

  lemma AdvanceKeepsSuccess(g: Setup, s: Session, a: Action)
    requires SucceedsOnce(g, s) && Advance(g, s, a).Some?
    ensures SucceedsOnce(g, Advance(g, s, a).value)
  {
  }

  /** Every candidate come to but the first has counted one fallback from the one before it. */
  ghost predicate FallsBack(s: Session) {
    s.ledger.fallbacks ==
      if s.at in {Charged, Arrived} || (s.at.Done? && s.result in {Expired, Unpatchable}) then s.ci
      else if s.ci == 0 then 0 else s.ci - 1
  }

  lemma AdvanceKeepsFallbacks(g: Setup, s: Session, a: Action)
    requires FallsBack(s) && (s.at in {Fresh, Started} ==> s.ci == 0) && Advance(g, s, a).Some?
    ensures FallsBack(Advance(g, s, a).value)
    ensures Advance(g, s, a).value.at in {Fresh, Started} ==> Advance(g, s, a).value.ci == 0
  {
    if a.Finish? {
      FinishKeepsFallbacks(g, s, a.result);
    } else if !a.CountFallback? && !a.Select? && !a.Skip? && !a.Enter? && !a.ModelFallback? {
      NoFallbackMeanwhile(g, s, a);
    }
  }

  lemma FinishKeepsFallbacks(g: Setup, s: Session, r: Outcome)
    requires FallsBack(s) && MayFinish(g, s, r)
    ensures FallsBack(s.(at := Done, result := r))
  {
  }

  lemma NoFallbackMeanwhile(g: Setup, s: Session, a: Action)
    requires !a.Finish? && !a.CountFallback? && !a.Select? && !a.Skip? && !a.Enter? && !a.ModelFallback?
    requires Advance(g, s, a).Some?
    ensures var t := Advance(g, s, a).value;
      && t.ledger.fallbacks == s.ledger.fallbacks && t.ci == s.ci && !t.at.Done? && !s.at.Done?
      && (t.at in {Charged, Arrived} <==> s.at in {Charged, Arrived})
      && (t.at in {Fresh, Started} ==> s.at in {Fresh, Started})
  {
  }

  // ---- ends ----

  /** A request ends only for the reason it gives: it has no candidate, it is through with all of them, its time
      is up, its body is no object, or its client is gone. */
  lemma EndingsHaveReasons(g: Setup, s: Session, r: Outcome)
    requires MayFinish(g, s, r)
    ensures r.NoRoute? ==> s.candidates == []
    ensures r.Exhausted? ==> s.candidates != [] && s.ci == |s.candidates|
    ensures r.Expired? ==> s.ci < |s.candidates| && s.clock >= s.deadline
    ensures r.Unpatchable? ==> s.ci < |s.candidates| && s.clock < s.deadline && g.codec.fields(s.request.body).None?
    ensures r.ClientGone? ==> s.exchange.Cancelled?
  {
  }

  /** A candidate is left only after a draw that failed or a blame, when each of its keys has been drawn for, or
      when the request is beyond its model's context limit. */
  lemma LeavingHasReasons(g: Setup, s: Session)
    requires MayLeave(g, s)
    ensures s.at.Leaving? || (s.at.Trying? && s.draws == s.visit.limit)
      || (s.at.Noted? && s.exchange.Answer? && s.exchange.status == 400
          && Provider.MentionsContextLimit(g.codec.asText(ErrorBody(s.exchange))))
  {
    var x := s.exchange;
    if x.Answer? {
      var kind := KindOf(g, s.visit.candidate.provider);
      Provider.FactsAreSeparate(kind, x.status, g.codec.asText(ErrorBody(x)), x.retryAfter);
    }
  }

  lemma WaysToLeave(g: Setup, s: Session, a: Action)
    requires Advance(g, s, a).Some? && Advance(g, s, a).value.at.Leaving? && !s.at.Leaving?
    ensures a.Blame? || (a.Draw? && a.picked.None?)
  {
  }

  // ---- attempts ----

  // Draws still allowed, plus the one drawn and not counted yet.
  function Headroom(s: Session): int {
    if InVisit(s.at) then s.visit.limit - s.draws + (if s.at.Drawn? then 1 else 0) else 0
  }

  /** Attempts stay within the pool lengths of the candidates visited. */
  ghost predicate Thrifty(s: Session) {
    && (InVisit(s.at) ==> s.calls <= s.draws <= s.visit.limit <= s.widest)
    && (s.at in {Drawn, Calling} ==> s.calls < s.draws)
    && s.ledger.attempts + Headroom(s) <= s.allowance
  }

  lemma AdvanceKeepsThrift(g: Setup, s: Session, a: Action)
    requires Thrifty(s) && Advance(g, s, a).Some?
    ensures Thrifty(Advance(g, s, a).value)
  {
    if !(a.Enter? || a.Draw? || a.CountAttempt? || a.Exchanged?) {
      assert InVisit(Advance(g, s, a).value.at) ==> InVisit(s.at);
    }
  }

  /** Each visit makes at most one breaker event. */
  ghost predicate OneEvent(s: Session) {
    && s.events <= 1
    && (s.at in {Consulting, Consulted, Trying, Drawn, Calling, Answered, Noted, Cooled} ==> s.events == 0)
  }

  lemma AdvanceKeepsOneEvent(g: Setup, s: Session, a: Action)
    requires OneEvent(s) && Advance(g, s, a).Some?
    ensures OneEvent(Advance(g, s, a).value)
  {
  }

  // ---- bodies ----

  /** An upstream body is open only while its answer is being dealt with or handed on. */
  ghost predicate Tidy(g: Setup, s: Session) {
    && (s.open ==> s.exchange.Answer?)
    && (s.open ==> s.at in {Answered, Noted, Pleased, Delivering, Done})
    && (s.open && s.at.Noted? ==> Judgement(g, s).Accepted?)
    && (s.open && s.at.Done? ==> s.result.Reply? && s.result.live)
    && (s.at.Done? && s.result.Reply? ==> s.result.live == s.open)
  }

  lemma AdvanceKeepsTidy(g: Setup, s: Session, a: Action)
    requires Tidy(g, s) && Advance(g, s, a).Some?
    ensures Tidy(g, Advance(g, s, a).value)
  {
    if a.Finish? {
      FinishKeepsTidy(g, s, a.result);
    }
  }

  lemma FinishKeepsTidy(g: Setup, s: Session, r: Outcome)
    requires Tidy(g, s) && MayFinish(g, s, r)
    ensures Tidy(g, s.(at := Done, result := r))
  {
  }

  // ---- time ----

  // Time spent since the visit began, other than waiting.
  ghost predicate OnTime(g: Setup, s: Session) {
    && (!s.at.Fresh? ==> s.deadline == s.start + g.cfg.requestTimeout)
    && s.start <= s.clock
    && (InVisit(s.at) ==> WithinVisit(s))
    && s.clock <= s.start + s.overhead + Max(1, s.widest) * g.cfg.requestTimeout
  }

  ghost predicate WithinVisit(s: Session) {
    && s.start <= s.entered && s.entered + s.visit.timeout <= s.deadline && 0 < s.visit.timeout
    && s.enteredOverhead <= s.overhead
    && s.visit.limit <= s.widest
    && s.clock <= s.entered + s.calls * s.visit.timeout + (s.overhead - s.enteredOverhead)
  }

  lemma TimesMore(a: int, b: int, t: int)
    requires a <= b && 0 <= t
    ensures a * t <= b * t && t * a <= t * b
  {
  }

  lemma TimesSum(n: int, x: int, y: int)
    ensures n * (x - y) == n * x - n * y
  {
  }

  // k attempts begun at e, each within what was left of budget b at e, end within k budgets of t.
  lemma Stretch(t: int, e: int, timeout: int, b: int, k: nat, most: nat)
    requires t <= e && 0 < timeout && e + timeout <= t + b && k <= most
    ensures e + k * timeout <= t + Max(1, most) * b
  {
    var n := Max(1, most);
    TimesMore(k, n, timeout);
    TimesMore(timeout, b - (e - t), n);
    TimesSum(n, b, e - t);
    TimesMore(1, n, e - t);
  }

  lemma VisitEndsInTime(g: Setup, s: Session)
    requires WithinVisit(s) && s.calls <= s.visit.limit && s.deadline == s.start + g.cfg.requestTimeout
    ensures s.clock <= s.start + s.overhead + Max(1, s.widest) * g.cfg.requestTimeout
  {
    Stretch(s.start, s.entered, s.visit.timeout, g.cfg.requestTimeout, s.calls, s.widest);
  }

  lemma Wider(a: nat, b: nat, t: int)
    requires t >= 0
    ensures Max(1, a) * t <= Max(1, Max(a, b)) * t
  {
  }

  lemma OneMoreCall(calls: nat, timeout: int)
    ensures (calls + 1) * timeout == calls * timeout + timeout
  {
  }

  /** Non-streaming requests keep to the clock. */
  lemma AdvanceKeepsTime(g: Setup, s: Session, a: Action)
    requires OnTime(g, s) && Thrifty(s) && g.cfg.requestTimeout > 0 && Advance(g, s, a).Some?
    requires !Advance(g, s, a).value.request.stream
    ensures OnTime(g, Advance(g, s, a).value)
  {
    if a.Exchanged? {
      AttemptKeepsTime(g, s, a);
    } else if a.Enter? {
      EnterKeepsTime(g, s, a);
    }
  }

  lemma AttemptKeepsTime(g: Setup, s: Session, a: Action)
    requires OnTime(g, s) && Thrifty(s) && a.Exchanged? && Advance(g, s, a).Some? && !s.request.stream
    ensures OnTime(g, Advance(g, s, a).value)
  {
    OneMoreCall(s.calls, s.visit.timeout);
    VisitEndsInTime(g, Advance(g, s, a).value);
  }

  lemma EnterKeepsTime(g: Setup, s: Session, a: Action)
    requires OnTime(g, s) && g.cfg.requestTimeout > 0 && a.Enter? && Advance(g, s, a).Some?
    ensures OnTime(g, Advance(g, s, a).value)
  {
    Wider(s.widest, a.visit.limit, g.cfg.requestTimeout);
  }

  // ---- health facts ----

  predicate Unauthorized(x: Exchange) { x.Answer? && x.status == 401 }

  // A failure of the connection or of the upstream server, after which another key is tried.
  predicate ServerTrouble(x: Exchange) { x.Unreachable? || (x.Answer? && Provider.ServerError(x.status)) }

  predicate RateLimited(x: Exchange) { x.Answer? && x.status == 429 }

  /** Credential facts and model facts have separate causes: a key is disabled by 401 only, and cooled
      by a transport error, a server error or 429 only; the breaker hears of failure on a timeout, an
      unusable success or a capacity error only, and of success on an accepted success only. */
  lemma HealthHasSeparateCauses(g: Setup, s: Session, a: Action)
    requires Advance(g, s, a).Some?
    ensures a.Disable? ==> Unauthorized(s.exchange)
    ensures a.Cool? ==> ServerTrouble(s.exchange) || RateLimited(s.exchange)
    ensures a.Blame? ==>
      || s.exchange.TimedOut?
      || (s.exchange.Answer? && Successful(s.exchange.status) && Judgement(g, s).Unusable?)
      || (s.exchange.Answer? && Provider.CapacityError(KindOf(g, s.visit.candidate.provider), s.exchange.status))
    ensures a.Praise? ==> s.exchange.Answer? && Successful(s.exchange.status) && Judgement(g, s).Accepted?
    ensures a.Disable? || a.Cool? || a.Blame? || a.Praise? ==> a.Praise? || !Judgement(g, s).Accepted?
  {
    var x := s.exchange;
    if x.Answer? {
      var kind := KindOf(g, s.visit.candidate.provider);
      Provider.FactsAreSeparate(kind, x.status, g.codec.asText(ErrorBody(x)), x.retryAfter);
    }
  }
}
