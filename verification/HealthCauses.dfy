/** In every interleaved run, what a request records of an attempt, and each change it makes to a key or a model,
    has its cause in an upstream exchange of that request; and every exchange has its effect. */
module HealthCauses {
  import opened Prelude
  import opened KeyFraming
  import opened GatewayState
  import opened Protocol
  import opened SessionFacts
  import opened Runs
  import opened SentRequests
  import CacheCoherence
  import KeySafety
  import Breaker = CircuitBreaker
  import Provider
  import Body = Completions

  predicate Fact(a: Action) { a.Disable? || a.Cool? || a.Blame? || a.Praise? || a.Record? || a.Store? }

  predicate Success(x: Exchange) { x.Answer? && 200 <= x.status < 300 }

  // A success that is read before it is passed on: a chat completion that is not streamed, up to 8 MiB.
  predicate IsRead(q: Request, x: Exchange) {
    Success(x) && !q.stream && q.path == "/v1/chat/completions" && |x.body| <= 8 * 1024 * 1024
  }

  // A success that was read, and broke off or was found useless for this reason.
  ghost predicate NoUse(g: Setup, q: Request, sent: Identity, x: Exchange, reason: string) {
    && IsRead(q, x)
    && if x.broken then reason == "invalid_success_response"
       else Body.JudgedRightly(g.codec, x.body, sent.body, Body.Useless(reason))
  }

  // A success passed on unread, or read whole and found useful.
  ghost predicate OfUse(g: Setup, q: Request, sent: Identity, x: Exchange) {
    Success(x) && (IsRead(q, x) ==> !x.broken && Body.Worthwhile(g.codec, x.body, sent.body))
  }

  ghost predicate Refused(g: Setup, c: Breaker.Candidate, x: Exchange) {
    x.Answer? && Provider.CapacityError(KindOf(g, c.provider), x.status)
  }

  // How long a key is cooled after this exchange.
  ghost predicate CoolingTime(x: Exchange, time: Duration) {
    || (x.Unreachable? && time == 5 * SECOND)
    || (&& x.Answer? && Provider.ServerError(x.status)
        && time == if x.retryAfter < 10 * SECOND then 10 * SECOND else x.retryAfter)
    || (RateLimited(x) && time == if 0 < x.retryAfter < 10 * SECOND then x.retryAfter else 10 * SECOND)
  }

  // The reason a model is blamed for after this exchange, and the delay upstream asked for.
  ghost predicate BlamedFor(g: Setup, q: Request, c: Breaker.Candidate, sent: Identity, x: Exchange, reason: string,
                            delay: Duration) {
    || (x.TimedOut? && reason == "attempt_timeout" && delay == 0)
    || (NoUse(g, q, sent, x, reason) && delay == 0)
    || (&& Refused(g, c, x) && delay == (if x.status == 404 then 0 else x.retryAfter)
        && reason == if x.status == 429 then "rate limited"
                     else if x.status == 403 then "nvidia authorization or entitlement"
                     else if x.status == 404 then "nvidia model or entitlement unavailable"
                     else "provider capacity")
  }

  ghost function DecisionOn(g: Setup, c: Breaker.Candidate, x: Exchange): Provider.Decision
    requires x.Answer?
  {
    Provider.Classify(KindOf(g, c.provider), x.status, g.codec.asText(ErrorBody(x)), x.retryAfter)
  }

  // The reason noted with the attempt.
  ghost predicate NotedFor(g: Setup, q: Request, c: Breaker.Candidate, sent: Identity, x: Exchange, reason: string) {
    match x
    case Cancelled(_) => reason == "client_canceled"
    case TimedOut(_) => reason == "attempt_timeout"
    case Unreachable(_) => reason == "upstream_error"
    case Answer(_, _, _, _, _, _) =>
      if OfUse(g, q, sent, x) then reason == ""
      else if Success(x) then NoUse(g, q, sent, x, reason)
      else reason == DecisionOn(g, c, x).reason
  }

  // A whole answer worth keeping, to a request that may be answered from the cache.
  ghost predicate Keepable(g: Setup, q: Request, c: Breaker.Candidate, sent: Identity, x: Exchange) {
    CacheCoherence.Eligible(g, q, c, sent) && CacheCoherence.Worthy(g, sent, x)
  }

  // What may follow exchange x of request q with candidate c, at this time.
  ghost predicate Warrants(g: Setup, q: Request, c: Breaker.Candidate, sent: Identity, x: Exchange, now: Time,
                           a: Action) {
    match a
    case Disable(_, _) => Unauthorized(x)
    case Cool(_, _, until) => CoolingTime(x, until - now)
    case Blame(_, reason, at, delay) => at == now && BlamedFor(g, q, c, sent, x, reason, delay)
    case Praise(_) => OfUse(g, q, sent, x)
    case Record(_, latency, status, success, timeout, reason) =>
      && latency == x.took && status == (if x.Answer? then x.status else 0)
      && (success <==> OfUse(g, q, sent, x)) && (timeout <==> x.TimedOut?)
      && NotedFor(g, q, c, sent, x, reason)
    case Store(key, value, ttl, at, _, _) =>
      && key == g.codec.digest(Preimage(Parts(sent))) && ttl == g.cfg.cache.ttl && at == now
      && Keepable(g, q, c, sent, x) && CacheCoherence.Holds(value, x)
    case _ => false
  }

  // It concerns the very key or model of the exchange.
  ghost predicate About(c: Breaker.Candidate, k: nat, a: Action) {
    && (a.Disable? ==> a.provider == c.provider && a.idx == k)
    && (a.Cool? ==> a.provider == c.provider && a.idx == k)
    && (a.Blame? ==> a.alias == c.alias)
    && (a.Praise? ==> a.alias == c.alias)
    && (a.Record? ==> a.alias == c.alias)
  }

  // Event j is the exchange behind event i: made by the same request, which began at event b, with the
  // configured candidate c.
  ghost predicate Cause(g: Setup, h: seq<Event>, i: nat, j: nat, b: nat, c: Breaker.Candidate) {
    && j < i < |h| && h[j].who == h[i].who && h[j].action.Exchanged?
    && b < i && h[b].who == h[i].who && h[b].action.Begin?
    && Configured(g, h[b].action.request.model, c)
    && h[j].action.sent == SentFor(g, h[b].action.request, c, h[j].action.sent.body)
    && Warrants(g, h[b].action.request, c, h[j].action.sent, h[j].action.exchange, TimeOf(h[..i], h[i].who),
         h[i].action)
    && About(c, h[j].action.drawn, h[i].action)
  }

  // ---- verdicts ----

  lemma SuccessesAreJudged(g: Setup, q: Request, v: Visit, x: Exchange)
    requires Success(x)
    ensures var verdict := VerdictOn(g, q, v, x);
      && (verdict.Accepted? || verdict.Unusable?)
      && (verdict.Accepted? <==> OfUse(g, q, v.sent, x))
      && (verdict.Unusable? ==> NoUse(g, q, v.sent, x, verdict.reason))
  {
    if IsRead(q, x) {
      Body.JudgementIsRight(g.codec, x.body, v.sent.body);
    }
  }

  lemma FailuresAreSorted(g: Setup, q: Request, v: Visit, x: Exchange)
    requires !Success(x)
    ensures var verdict := VerdictOn(g, q, v, x);
      && (verdict.Gone? <==> x.Cancelled?) && (verdict.Late? <==> x.TimedOut?) && (verdict.Down? <==> x.Unreachable?)
      && (verdict.Rejected? <==> x.Answer?) && !verdict.Accepted? && !verdict.Unusable?
      && (x.Answer? ==> verdict.decision == DecisionOn(g, v.candidate, x))
  {
  }

  lemma CooledAsDue(g: Setup, q: Request, v: Visit, x: Exchange)
    ensures var d := CoolsFor(VerdictOn(g, q, v, x));
      && (d.Some? <==> ServerTrouble(x) || RateLimited(x))
      && (d.Some? ==> CoolingTime(x, d.value))
  {
    if Success(x) {
      SuccessesAreJudged(g, q, v, x);
    } else {
      FailuresAreSorted(g, q, v, x);
      if x.Answer? {
        var kind, text := KindOf(g, v.candidate.provider), g.codec.asText(ErrorBody(x));
        Provider.FactsAreSeparate(kind, x.status, text, x.retryAfter);
        Provider.DelaysAndReasons(kind, x.status, text, x.retryAfter);
      }
    }
  }

  lemma BlamedAsDue(g: Setup, q: Request, v: Visit, x: Exchange)
    ensures var d := Blames(VerdictOn(g, q, v, x), x);
      && (d.Some? <==> x.TimedOut? || (Success(x) && !OfUse(g, q, v.sent, x)) || Refused(g, v.candidate, x))
      && (d.Some? ==> BlamedFor(g, q, v.candidate, v.sent, x, d.value.0, d.value.1))
  {
    if Success(x) {
      SuccessesAreJudged(g, q, v, x);
    } else {
      FailuresAreSorted(g, q, v, x);
      if x.Answer? {
        var kind, text := KindOf(g, v.candidate.provider), g.codec.asText(ErrorBody(x));
        Provider.FactsAreSeparate(kind, x.status, text, x.retryAfter);
        Provider.DelaysAndReasons(kind, x.status, text, x.retryAfter);
        Provider.OtherReasons(kind, x.status, text, x.retryAfter);
      }
    }
  }

  lemma NotedAsDue(g: Setup, q: Request, v: Visit, x: Exchange)
    ensures var (status, success, timeout, reason) := Recorded(VerdictOn(g, q, v, x), x);
      && status == (if x.Answer? then x.status else 0)
      && (success <==> OfUse(g, q, v.sent, x)) && (timeout <==> x.TimedOut?)
      && NotedFor(g, q, v.candidate, v.sent, x, reason)
  {
    if Success(x) {
      SuccessesAreJudged(g, q, v, x);
    } else {
      FailuresAreSorted(g, q, v, x);
    }
  }

  // ---- the causes ----

  lemma FactsAreWarranted(g: Setup, s: Session, a: Action)
    requires Fact(a) && Advance(g, s, a).Some? && CacheCoherence.Vetted(g, s)
    ensures Warrants(g, s.request, s.visit.candidate, s.visit.sent, s.exchange, s.clock, a)
    ensures About(s.visit.candidate, s.key, a) && InKeyLoop(s.at) && CacheCoherence.Hearing(s.at)
  {
    if a.Store? {
      CacheCoherence.StoresTheAnswer(g, s, a);
    } else {
      HealthFactsAreWarranted(g, s, a);
    }
  }

  lemma HealthFactsAreWarranted(g: Setup, s: Session, a: Action)
    requires Fact(a) && Advance(g, s, a).Some? && !a.Store?
    ensures Warrants(g, s.request, s.visit.candidate, s.visit.sent, s.exchange, s.clock, a)
    ensures About(s.visit.candidate, s.key, a) && InKeyLoop(s.at) && CacheCoherence.Hearing(s.at)
  {
    HealthHasSeparateCauses(g, s, a);
    CooledAsDue(g, s.request, s.visit, s.exchange);
    BlamedAsDue(g, s.request, s.visit, s.exchange);
    NotedAsDue(g, s.request, s.visit, s.exchange);
    if a.Praise? {
      SuccessesAreJudged(g, s.request, s.visit, s.exchange);
    }
  }

  /** Whatever else runs meanwhile: a request disables a key only after upstream answered 401 to it with that key,
      and cools one, for as long as is due, only after a connection failure, a server error or 429 with that key; it
      blames a model, for its reason, only after a timeout, a success it could not use or a capacity error of that
      model, and praises one only after a success of that model it accepted; what it records of an attempt is what
      came of it; and it stores only the whole answer to a request that may be answered from the cache. */
  lemma EveryFactHasACause(g: Setup, w: World, h: seq<Event>, i: nat)
    requires Opening(w) && Run(g, w, h).Some? && i < |h| && h[i].who in w.sessions && Fact(h[i].action)
    ensures exists j: nat, b: nat, c: Breaker.Candidate :: Cause(g, h, i, j, b, c)
  {
    ActedFrom(g, w, h, i);
    FactHasACause(g, h, i, Run(g, w, h[..i]).value.sessions[h[i].who]);
  }

  lemma FactHasACause(g: Setup, h: seq<Event>, i: nat, s: Session)
    requires ActsFrom(g, h, i, s) && Fact(h[i].action)
    ensures exists j: nat, b: nat, c: Breaker.Candidate :: Cause(g, h, i, j, b, c)
  {
    FactsAreWarranted(g, s, h[i].action);
    var j: nat :| CacheCoherence.HeardAt(h[..i], h[i].who, s, j);
    var b: nat :| CacheCoherence.BegunAt(h[..i], h[i].who, s, b);
    assert h[..i][j] == h[j] && h[..i][b] == h[b];
    assert Cause(g, h, i, j, b, s.visit.candidate);
  }

  // ---- the effects ----

  // A kind of step that an exchange may call for.
  datatype Duty = ToRecord | ToDisable | ToCool | ToBlame | ToPraise | ToStore

  predicate Meets(a: Action, d: Duty) {
    match d
    case ToRecord => a.Record?
    case ToDisable => a.Disable?
    case ToCool => a.Cool?
    case ToBlame => a.Blame?
    case ToPraise => a.Praise?
    case ToStore => a.Store?
  }

  // What exchange x of request q with candidate c calls for.
  ghost predicate CallsFor(g: Setup, q: Request, c: Breaker.Candidate, sent: Identity, x: Exchange, d: Duty) {
    match d
    case ToRecord => true
    case ToDisable => Unauthorized(x)
    case ToCool => ServerTrouble(x) || RateLimited(x)
    case ToBlame => x.TimedOut? || (Success(x) && !OfUse(g, q, sent, x)) || Refused(g, c, x)
    case ToPraise => OfUse(g, q, sent, x)
    case ToStore => Keepable(g, q, c, sent, x)
  }

  // It concerns the visit, the key drawn or the answer.
  ghost predicate Minds(g: Setup, v: Visit, k: nat, x: Exchange, a: Action) {
    && About(v.candidate, k, a)
    && (a.Store? ==> a.key == g.codec.digest(Preimage(Parts(v.sent))) && CacheCoherence.Holds(a.value, x))
  }

  // The request has done so since event i.
  ghost predicate Met(g: Setup, h: seq<Event>, i: nat, v: Visit, k: nat, x: Exchange, d: Duty) {
    exists j :: i < j < |h| && h[j].who == h[i].who && Meets(h[j].action, d) && Minds(g, v, k, x, h[j].action)
  }

  // Still to be done, of what an exchange calls for.
  predicate Ahead(at: Point, d: Duty) {
    match at
    case Answered => true
    case Noted => !d.ToRecord?
    case Cooled => d.ToBlame?
    case Pleased => d.ToStore?
    case _ => false
  }

  // Done, or still ahead of the request where it stands.
  ghost predicate Kept(g: Setup, h: seq<Event>, i: nat, q: Request, v: Visit, k: nat, s: Session, d: Duty) {
    && i < |h| && h[i].action.Exchanged?
    && (CallsFor(g, q, v.candidate, v.sent, h[i].action.exchange, d) ==>
          || Met(g, h, i, v, k, h[i].action.exchange, d)
          || (Ahead(s.at, d) && Concerns(s, q, v, k, h[i].action.exchange)))
  }

  predicate Concerns(s: Session, q: Request, v: Visit, k: nat, x: Exchange) {
    s.request == q && s.visit == v && s.key == k && s.exchange == x
  }

  // What the visit says of its request is so.
  ghost predicate Marked(g: Setup, q: Request, v: Visit) {
    && v.sent == SentFor(g, q, v.candidate, v.sent.body)
    && (v.cacheable <==> Cacheable(g, q, v.candidate, v.sent.body))
  }

  lemma DutyIsKept(g: Setup, s: Session, a: Action, d: Duty)
    requires Marked(g, s.request, s.visit)
    requires Ahead(s.at, d) && CallsFor(g, s.request, s.visit.candidate, s.visit.sent, s.exchange, d)
    requires Advance(g, s, a).Some?
    ensures var t := Advance(g, s, a).value;
      || (Meets(a, d) && Minds(g, s.visit, s.key, s.exchange, a))
      || (Ahead(t.at, d) && Concerns(t, s.request, s.visit, s.key, s.exchange))
  {
    if s.at.Answered? {
      AnsweredStays(g, s, a);
    } else if s.at.Pleased? {
      PleasedStays(g, s, a);
    } else {
      NotedStays(g, s, a, d);
    }
  }

  lemma AnsweredStays(g: Setup, s: Session, a: Action)
    requires s.at.Answered? && Advance(g, s, a).Some?
    ensures var t := Advance(g, s, a).value;
      && Concerns(t, s.request, s.visit, s.key, s.exchange)
      && (if a.Record? then t.at.Noted? && a.alias == s.visit.candidate.alias else t.at.Answered?)
  {
    KeySafety.AnsweredStepsAreFew(g, s, a);
  }

  // What a request may do about an attempt once it is recorded.
  lemma DealingStepsAreFew(g: Setup, s: Session, a: Action)
    requires s.at in {Noted, Cooled} && Advance(g, s, a).Some?
    ensures a.Wait? || a.Cool? || a.Disable? || a.Blame? || a.Praise? || a.Leave? || a.Finish?
    ensures a.Leave? || a.Finish? || a.Disable? || a.Praise? || a.Cool? ==> s.at.Noted?
    ensures About(s.visit.candidate, s.key, a)
    ensures a.Leave? ==> Judgement(g, s).Rejected? && Judgement(g, s).decision.action.SkipModel?
    ensures a.Finish? ==>
      Judgement(g, s).Gone? || (Judgement(g, s).Rejected? && Judgement(g, s).decision.action.Terminal?)
  {
  }

  lemma PleasedStays(g: Setup, s: Session, a: Action)
    requires s.at.Pleased? && Advance(g, s, a).Some? && Marked(g, s.request, s.visit)
    requires Keepable(g, s.request, s.visit.candidate, s.visit.sent, s.exchange)
    ensures var t := Advance(g, s, a).value;
      || (a.Store? && Minds(g, s.visit, s.key, s.exchange, a))
      || (t.at.Pleased? && Concerns(t, s.request, s.visit, s.key, s.exchange))
  {
    CacheCoherence.CacheableIsEligible(g, s.request, s.visit.candidate, s.visit.sent);
    assert Keeps(g, s);
  }

  // A success worth keeping is of use.
  lemma KeepableIsOfUse(g: Setup, q: Request, c: Breaker.Candidate, sent: Identity, x: Exchange)
    requires Keepable(g, q, c, sent, x)
    ensures OfUse(g, q, sent, x)
  {
  }

  lemma NotedStays(g: Setup, s: Session, a: Action, d: Duty)
    requires s.at in {Noted, Cooled} && Ahead(s.at, d) && Advance(g, s, a).Some?
    requires CallsFor(g, s.request, s.visit.candidate, s.visit.sent, s.exchange, d)
    ensures var t := Advance(g, s, a).value;
      || (Meets(a, d) && Minds(g, s.visit, s.key, s.exchange, a))
      || (Ahead(t.at, d) && Concerns(t, s.request, s.visit, s.key, s.exchange))
  {
    if a.Wait? {
      WaitAdvances(g, s, a.time);
    } else {
      NotedActs(g, s, a, d);
      if !Meets(a, d) {
        if a.Cool? {
          BlameIsLeft(g, s, a);
        } else {
          StoreIsLeft(g, s, a);
        }
      }
    }
  }

  // A step that leads on to it.
  ghost predicate Leads(g: Setup, s: Session, a: Action, d: Duty) {
    || (a.Cool? && d.ToBlame? && Refused(g, s.visit.candidate, s.exchange))
    || (a.Praise? && d.ToStore?)
  }

  lemma NotedActs(g: Setup, s: Session, a: Action, d: Duty)
    requires s.at in {Noted, Cooled} && Ahead(s.at, d) && Advance(g, s, a).Some? && !a.Wait?
    requires CallsFor(g, s.request, s.visit.candidate, s.visit.sent, s.exchange, d)
    ensures About(s.visit.candidate, s.key, a)
    ensures Meets(a, d) || Leads(g, s, a, d)
  {
    if Success(s.exchange) {
      SuccessActs(g, s, a, d);
    } else {
      FailureActs(g, s, a, d);
    }
    DealingStepsAreFew(g, s, a);
  }

  lemma SuccessActs(g: Setup, s: Session, a: Action, d: Duty)
    requires s.at in {Noted, Cooled} && Ahead(s.at, d) && Advance(g, s, a).Some? && !a.Wait? && Success(s.exchange)
    requires CallsFor(g, s.request, s.visit.candidate, s.visit.sent, s.exchange, d)
    ensures Meets(a, d) || Leads(g, s, a, d)
  {
    DealingStepsAreFew(g, s, a);
    if d.ToStore? {
      KeepableIsOfUse(g, s.request, s.visit.candidate, s.visit.sent, s.exchange);
    }
    CooledAsDue(g, s.request, s.visit, s.exchange);
    BlamedAsDue(g, s.request, s.visit, s.exchange);
    SuccessesAreJudged(g, s.request, s.visit, s.exchange);
  }

  lemma FailureActs(g: Setup, s: Session, a: Action, d: Duty)
    requires s.at in {Noted, Cooled} && Ahead(s.at, d) && Advance(g, s, a).Some? && !a.Wait? && !Success(s.exchange)
    requires CallsFor(g, s.request, s.visit.candidate, s.visit.sent, s.exchange, d)
    ensures Meets(a, d) || Leads(g, s, a, d)
  {
    var q, v, x := s.request, s.visit, s.exchange;
    DealingStepsAreFew(g, s, a);
    CooledAsDue(g, q, v, x);
    BlamedAsDue(g, q, v, x);
    FailuresAreSorted(g, q, v, x);
    if x.Answer? {
      Provider.FactsAreSeparate(KindOf(g, v.candidate.provider), x.status, g.codec.asText(ErrorBody(x)), x.retryAfter);
    }
  }

  lemma BlameIsLeft(g: Setup, s: Session, a: Action)
    requires a.Cool? && Advance(g, s, a).Some? && Refused(g, s.visit.candidate, s.exchange)
    ensures var t := Advance(g, s, a).value;
      t.at.Cooled? && Concerns(t, s.request, s.visit, s.key, s.exchange)
  {
    var x := s.exchange;
    Provider.FactsAreSeparate(KindOf(g, s.visit.candidate.provider), x.status, g.codec.asText(ErrorBody(x)),
      x.retryAfter);
    FailuresAreSorted(g, s.request, s.visit, x);
  }

  lemma StoreIsLeft(g: Setup, s: Session, a: Action)
    requires a.Praise? && Advance(g, s, a).Some?
    ensures var t := Advance(g, s, a).value;
      t.at.Pleased? && Concerns(t, s.request, s.visit, s.key, s.exchange)
  {
  }

  lemma MetStill(g: Setup, h: seq<Event>, e: Event, i: nat, v: Visit, k: nat, x: Exchange, d: Duty)
    requires i < |h| && Met(g, h, i, v, k, x, d)
    ensures Met(g, h + [e], i, v, k, x, d)
  {
    var j :| i < j < |h| && h[j].who == h[i].who && Meets(h[j].action, d) && Minds(g, v, k, x, h[j].action);
    assert (h + [e])[j] == h[j] && (h + [e])[i] == h[i];
  }

  lemma MetNow(g: Setup, h: seq<Event>, e: Event, i: nat, v: Visit, k: nat, x: Exchange, d: Duty)
    requires i < |h| && e.who == h[i].who && Meets(e.action, d) && Minds(g, v, k, x, e.action)
    ensures Met(g, h + [e], i, v, k, x, d)
  {
    assert (h + [e])[|h|] == e && (h + [e])[i] == h[i];
  }

  lemma StepKeepsDuty(g: Setup, h: seq<Event>, i: nat, q: Request, v: Visit, k: nat, s: Session, a: Action, d: Duty)
    requires Kept(g, h, i, q, v, k, s, d) && Advance(g, s, a).Some?
    requires Marked(g, q, v)
    ensures Kept(g, h + [Event(h[i].who, a)], i, q, v, k, Advance(g, s, a).value, d)
  {
    var e := Event(h[i].who, a);
    assert (h + [e])[i] == h[i];
    if CallsFor(g, q, v.candidate, v.sent, h[i].action.exchange, d) {
      if Met(g, h, i, v, k, h[i].action.exchange, d) {
        MetStill(g, h, e, i, v, k, h[i].action.exchange, d);
      } else {
        DutyIsKept(g, s, a, d);
        if Meets(a, d) && Minds(g, v, k, h[i].action.exchange, a) {
          MetNow(g, h, e, i, v, k, h[i].action.exchange, d);
        }
      }
    }
  }

  lemma OthersKeepDuty(g: Setup, h: seq<Event>, i: nat, q: Request, v: Visit, k: nat, s: Session, e: Event, d: Duty)
    requires Kept(g, h, i, q, v, k, s, d)
    ensures Kept(g, h + [e], i, q, v, k, s, d)
  {
    assert (h + [e])[i] == h[i];
    if Met(g, h, i, v, k, h[i].action.exchange, d) {
      MetStill(g, h, e, i, v, k, h[i].action.exchange, d);
    }
  }

  lemma DutyBegins(g: Setup, h: seq<Event>, s: Session, e: Event, d: Duty)
    requires e.action.Exchanged? && Advance(g, s, e.action).Some?
    ensures Kept(g, h + [e], |h|, s.request, s.visit, e.action.drawn, Advance(g, s, e.action).value, d)
  {
    assert (h + [e])[|h|] == e;
  }

  // Where the request stood that made the attempt of event i.
  ghost predicate Attempts(g: Setup, w: World, h: seq<Event>, i: nat, s: Session) {
    && i < |h| && h[i].action.Exchanged? && h[i].who in w.sessions
    && Run(g, w, h[..i]).Some? && h[i].who in Run(g, w, h[..i]).value.sessions
    && s == Run(g, w, h[..i]).value.sessions[h[i].who]
  }

  lemma {:induction false} DutiesAreKept(g: Setup, w: World, h: seq<Event>, i: nat, s: Session, d: Duty)
    requires Run(g, w, h).Some? && Attempts(g, w, h, i, s) && Marked(g, s.request, s.visit)
    ensures h[i].who in Run(g, w, h).value.sessions
    ensures Kept(g, h, i, s.request, s.visit, h[i].action.drawn, Run(g, w, h).value.sessions[h[i].who], d)
  {
    var front, e := h[..|h| - 1], h[|h| - 1];
    assert h == front + [e];
    if i == |h| - 1 {
      DutyBegins(g, front, s, e, d);
    } else {
      assert front[..i] == h[..i] && front[i] == h[i];
      DutiesAreKept(g, w, front, i, s, d);
      LastStepKeepsDuty(g, front, i, s, e, Run(g, w, front).value, Run(g, w, h).value, d);
    }
  }

  lemma LastStepKeepsDuty(g: Setup, h: seq<Event>, i: nat, s: Session, e: Event, before: World, after: World, d: Duty)
    requires i < |h| && h[i].action.Exchanged? && h[i].who in before.sessions && Marked(g, s.request, s.visit)
    requires Kept(g, h, i, s.request, s.visit, h[i].action.drawn, before.sessions[h[i].who], d)
    requires Step(g, before, e) == Some(after)
    ensures h[i].who in after.sessions
    ensures Kept(g, h + [e], i, s.request, s.visit, h[i].action.drawn, after.sessions[h[i].who], d)
  {
    var r := h[i].who;
    if e.who == r {
      StepKeepsDuty(g, h, i, s.request, s.visit, h[i].action.drawn, before.sessions[r], e.action, d);
    } else {
      OthersKeepDuty(g, h, i, s.request, s.visit, h[i].action.drawn, before.sessions[r], e, d);
    }
  }

  /** No exchange is left without its effects: once a request is past one, it has recorded it; and it has disabled
      the key after 401, cooled it after a connection failure, a server error or 429, blamed the model after a
      timeout, a success of no use or a capacity error, praised it after any other success, and offered a whole
      answer worth keeping to the cache. */
  lemma EveryExchangeHasItsEffects(g: Setup, w: World, h: seq<Event>, i: nat, s: Session, d: Duty)
    requires Opening(w) && Run(g, w, h).Some? && Attempts(g, w, h, i, s)
    requires CallsFor(g, s.request, s.visit.candidate, h[i].action.sent, h[i].action.exchange, d)
    ensures h[i].who in Run(g, w, h).value.sessions
    ensures Run(g, w, h).value.sessions[h[i].who].at !in {Answered, Noted, Cooled, Pleased} ==>
      Met(g, h, i, s.visit, h[i].action.drawn, h[i].action.exchange, d)
  {
    SendsItsOwn(g, w, h, i, s);
    DutiesAreKept(g, w, h, i, s, d);
  }

  lemma SendsItsOwn(g: Setup, w: World, h: seq<Event>, i: nat, s: Session)
    requires Opening(w) && Run(g, w, h).Some? && Attempts(g, w, h, i, s)
    ensures h[i].action.sent == s.visit.sent && Marked(g, s.request, s.visit)
  {
    ActedFrom(g, w, h, i);
  }
}
