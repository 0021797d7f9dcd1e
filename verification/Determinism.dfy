/** A request alone is decided by what upstream answers: two runs of it that meet the same answers take the
    same steps. */
module Determinism {
  import opened Prelude
  import opened GatewayState
  import opened Protocol
  import opened Runs
  import opened Scripts
  import opened OverrunRuns
  import Spending

  // The kind of an action.
  datatype Move =
    | Selecting | Skipping | Entering | Closing | Leaves | Ending | Praising | Blaming | Drawing | Cooling | Barring
    | LookingUp | Storing | Exchanging | CountingAttempt | CountingFallback | CountingHit | CountingMiss | CountingStore
    | Charging | Recording | Whatever

  function MoveOf(a: Action): Move {
    match a
    case Select(_, _, _) => Selecting
    case Skip => Skipping
    case Enter(_, _) => Entering
    case Close => Closing
    case Leave => Leaves
    case Finish(_) => Ending
    case Praise(_) => Praising
    case Blame(_, _, _, _) => Blaming
    case Draw(_, _, _) => Drawing
    case Cool(_, _, _) => Cooling
    case Disable(_, _) => Barring
    case LookUp(_, _, _) => LookingUp
    case Store(_, _, _, _, _, _) => Storing
    case Exchanged(_, _, _) => Exchanging
    case CountAttempt => CountingAttempt
    case CountFallback => CountingFallback
    case CountHit => CountingHit
    case CountMiss => CountingMiss
    case CountStore => CountingStore
    case ModelFallback(_, _) => Charging
    case Record(_, _, _, _, _, _) => Recording
    case _ => Whatever
  }

  // What comes next at a candidate with a place in the route.
  function AtCandidateNext(g: Setup, s: Session): Move
    requires s.ci < |s.candidates|
  {
    if !Served(g, s) then Skipping
    else if s.clock < s.deadline && PatchFor(g, s.request, s.candidates[s.ci]).Some? then Entering
    else Ending
  }

  // What comes next once the attempt is recorded.
  function NotedNext(v: Verdict): Move {
    match v
    case Gone => Ending
    case Late => Blaming
    case Down => Cooling
    case Unusable(_) => Blaming
    case Accepted => Praising
    case Rejected(d) =>
      match d.action
      case Terminal => Ending
      case DisableKey => Barring
      case RetryKey => Cooling
      case FallbackModel => if d.cooldownCredential then Cooling else Blaming
      case SkipModel => Leaves
  }

  // What a request does next, waiting aside.
  function Next(g: Setup, s: Session): Move {
    match s.at
    case Started => Selecting
    case Between =>
      if s.ci >= |s.candidates| then Ending else if s.ci > 0 then CountingFallback else AtCandidateNext(g, s)
    case Charged => Charging
    case Arrived => if s.ci < |s.candidates| then AtCandidateNext(g, s) else Whatever
    case Consulting => LookingUp
    case Consulted => if s.hit.Some? then CountingHit else CountingMiss
    case Replaying => Ending
    case Trying => if s.draws < s.visit.limit then Drawing else Leaves
    case Drawn => CountingAttempt
    case Calling => Exchanging
    case Answered => if s.open && !StaysOpen(g, s) then Closing else Recording
    case Noted => NotedNext(Judgement(g, s))
    case Cooled => Blaming
    case Pleased => if !Keeps(g, s) then Ending else if s.open then Closing else Storing
    case Stored => CountingStore
    case Delivering => Ending
    case Leaving => Leaves
    case _ => Whatever
  }

  lemma TheNextMove(g: Setup, s: Session, a: Action)
    requires Advance(g, s, a).Some? && !a.Wait? && !s.at.Fresh?
    requires s.at.Trying? ==> s.draws <= s.visit.limit
    ensures MoveOf(a) == Next(g, s)
  {
    if a.Finish? {
      EndingIsNext(g, s, a.result);
    } else if MoveOf(a) in {Praising, Blaming, Cooling, Barring} {
      FactIsNext(g, s, a);
    }
  }

  lemma FactIsNext(g: Setup, s: Session, a: Action)
    requires Advance(g, s, a).Some? && MoveOf(a) in {Praising, Blaming, Cooling, Barring}
    ensures MoveOf(a) == Next(g, s)
  {
  }

  lemma EndingIsNext(g: Setup, s: Session, r: Outcome)
    requires MayFinish(g, s, r)
    ensures Next(g, s) == Ending
  {
  }

  /** At each point only one step is legal, but for waiting, for what upstream answers and for which entries
      a store evicts. */
  lemma OneWayOn(g: Setup, m: Shared, s: Session, a: Action, b: Action)
    requires Apply(g, m, a).Some? && Advance(g, s, a).Some? && Apply(g, m, b).Some? && Advance(g, s, b).Some?
    requires !a.Wait? && !b.Wait? && !s.at.Fresh? && (s.at.Trying? ==> s.draws <= s.visit.limit)
    ensures a == b
      || (a.Store? && b.Store?)
      || (a.Exchanged? && b.Exchanged? && b == Exchanged(a.sent, a.drawn, b.exchange))
  {
    TheNextMove(g, s, a);
    TheNextMove(g, s, b);
    SameMoveSameStep(g, m, s, a, b);
  }

  lemma SameMoveSameStep(g: Setup, m: Shared, s: Session, a: Action, b: Action)
    requires Apply(g, m, a).Some? && Advance(g, s, a).Some? && Apply(g, m, b).Some? && Advance(g, s, b).Some?
    requires MoveOf(a) == MoveOf(b) != Whatever
    ensures a == b
      || (a.Store? && b.Store?)
      || (a.Exchanged? && b.Exchanged? && b == Exchanged(a.sent, a.drawn, b.exchange))
  {
    if a.Finish? {
      OneEnding(g, s, a.result, b.result);
    } else if MoveOf(a) in {Praising, Blaming, Cooling, Barring, Recording} {
      SameFact(g, s, a, b);
    }
  }

  lemma SameFact(g: Setup, s: Session, a: Action, b: Action)
    requires Advance(g, s, a).Some? && Advance(g, s, b).Some?
    requires MoveOf(a) == MoveOf(b) && MoveOf(a) in {Praising, Blaming, Cooling, Barring, Recording}
    ensures a == b
  {
  }

  lemma OneEnding(g: Setup, s: Session, r: Outcome, t: Outcome)
    requires MayFinish(g, s, r) && MayFinish(g, s, t)
    ensures r == t
  {
  }

  // ---- two runs that meet the same answers ----

  // r alone, from its start, met by `upstream`.
  ghost predicate Solo(g: Setup, w: World, h: seq<Event>, r: nat, upstream: Upstream, script: Script) {
    Run(g, w, h).Some? && r in w.sessions && Scripted(g, w, h, r, upstream, script)
  }

  lemma {:induction false} QuietMeansAlone(g: Setup, w: World, h: seq<Event>, r: nat, upstream: Upstream,
                                           script: Script)
    requires Scripted(g, w, h, r, upstream, script) && Quiet(script)
    ensures forall i :: 0 <= i < |h| ==> h[i].who == r && (h[i].action.Wait? ==> h[i].action.time == 0)
  {
    if h != [] {
      QuietMeansAlone(g, w, h[..|h| - 1], r, upstream, script);
    }
  }

  lemma {:induction false} PrefixScripted(g: Setup, w: World, h: seq<Event>, i: nat, r: nat, upstream: Upstream,
                                          script: Script)
    requires i <= |h| && Scripted(g, w, h, r, upstream, script)
    ensures Scripted(g, w, h[..i], r, upstream, script)
  {
    if i < |h| {
      assert h[..|h| - 1][..i] == h[..i];
      PrefixScripted(g, w, h[..|h| - 1], i, r, upstream, script);
    } else {
      assert h[..i] == h;
    }
  }

  // The step at place i of a run.
  lemma StepsAt(g: Setup, w: World, h: seq<Event>, i: nat, r: nat, upstream: Upstream, script: Script)
    requires i < |h| && Run(g, w, h).Some? && Scripted(g, w, h, r, upstream, script)
    ensures Run(g, w, h[..i]).Some? && Run(g, w, h[..i + 1]) == Step(g, Run(g, w, h[..i]).value, h[i])
    ensures Run(g, w, h[..i + 1]).Some? && Follows(g, w, h[..i], h[i], r, upstream, script)
    ensures h[..i + 1] == h[..i] + [h[i]]
  {
    PrefixRuns(g, w, h, i);
    PrefixRuns(g, w, h, i + 1);
    PrefixScripted(g, w, h, i + 1, r, upstream, script);
    assert h[..i + 1][..i] == h[..i];
  }

  // A wait of no time changes nothing.
  lemma NoWait(g: Setup, w: World, r: nat)
    requires r in w.sessions && Advance(g, w.sessions[r], Wait(0)).Some?
    ensures Step(g, w, Event(r, Wait(0))) == Some(w)
  {
    assert w.sessions[r := w.sessions[r]] == w.sessions;
  }

  // Run h, over at last, has stood where v stands after i events, and v's request has a step to take: so h
  // takes one too, after some waits of no time.
  lemma {:induction false} SkipWaits(g: Setup, w: World, h: seq<Event>, i: nat, r: nat, upstream: Upstream,
                                     script: Script)
    returns (j: nat)
    requires Solo(g, w, h, r, upstream, script) && Quiet(script) && i <= |h|
    requires Run(g, w, h[..i]).Some? && r in Run(g, w, h[..i]).value.sessions
    requires !Run(g, w, h[..i]).value.sessions[r].at.Done? && !Run(g, w, h[..i]).value.sessions[r].at.Fresh?
    requires r in Run(g, w, h).value.sessions && Run(g, w, h).value.sessions[r].at.Done?
    ensures i <= j < |h| && h[j].who == r && !h[j].action.Wait?
    ensures Run(g, w, h[..j]) == Run(g, w, h[..i]) && Exchanges(h[..j], r) == Exchanges(h[..i], r)
    decreases |h| - i
  {
    QuietMeansAlone(g, w, h, r, upstream, script);
    assert h[..|h|] == h;
    if h[i].action.Wait? {
      StepsAt(g, w, h, i, r, upstream, script);
      NoWait(g, Run(g, w, h[..i]).value, r);
      OneMoreScripted(g, w, h[..i], h[i], r, upstream, script);
      j := SkipWaits(g, w, h, i + 1, r, upstream, script);
    } else {
      j := i;
    }
  }

  // The step run k takes next is the one run h takes.
  lemma SameStep(g: Setup, w: World, k: seq<Event>, h: seq<Event>, j: nat, r: nat, a: Action, upstream: Upstream,
                 script: Script, other: Script)
    requires Solo(g, w, h, r, upstream, script) && Run(g, w, k).Some?
    requires Follows(g, w, k, Event(r, a), r, upstream, other)
    requires j < |h| && h[j].who == r && !h[j].action.Wait? && Plain(a)
    requires Run(g, w, h[..j]) == Run(g, w, k) && Exchanges(h[..j], r) == Exchanges(k, r)
    requires r in Run(g, w, k).value.sessions && Step(g, Run(g, w, k).value, Event(r, a)).Some?
    requires var s := Run(g, w, k).value.sessions[r]; !s.at.Fresh? && (s.at.Trying? ==> s.draws <= s.visit.limit)
    ensures h[j] == Event(r, a)
  {
    StepsAt(g, w, h, j, r, upstream, script);
    var v := Run(g, w, k).value;
    OneWayOn(g, v.shared, v.sessions[r], a, h[j].action);
  }

  /** A run k that meets only refusals from `upstream` is where any run h in which the request is served by
      `upstream` comes by, waits of no time aside. */
  lemma {:induction false} ComesBy(g: Setup, w: World, k: seq<Event>, h: seq<Event>, r: nat, upstream: Upstream,
                                   script: Script, other: Script)
    returns (i: nat)
    requires g.cfg.requestTimeout > 0 && Opening(w) && Solo(g, w, h, r, upstream, script) && Quiet(script)
    requires r in Run(g, w, h).value.sessions && Run(g, w, h).value.sessions[r].at.Done?
    requires Solo(g, w, k, r, upstream, other) && Alone(k, r)
    requires k != [] && h != [] && k[0] == h[0]
    ensures i <= |h| && Run(g, w, h[..i]) == Run(g, w, k) && Exchanges(h[..i], r) == Exchanges(k, r)
    decreases |k|
  {
    var front, e := k[..|k| - 1], k[|k| - 1];
    if |k| == 1 {
      i := 1;
      assert k == h[..1];
    } else {
      assert front[0] == k[0];
      var i0 := ComesBy(g, w, front, h, r, upstream, script, other);
      AfterTheStart(g, w, front, r, e);
      var j := SkipWaits(g, w, h, i0, r, upstream, script);
      SameStep(g, w, front, h, j, r, e.action, upstream, script, other);
      StepsAt(g, w, h, j, r, upstream, script);
      i := j + 1;
      OneMoreScripted(g, w, h[..j], h[j], r, upstream, script);
    }
  }

  // A request under way, with a step to take.
  lemma {:induction false} AfterTheStart(g: Setup, w: World, k: seq<Event>, r: nat, e: Event)
    requires g.cfg.requestTimeout > 0 && Opening(w) && r in w.sessions && Run(g, w, k).Some? && Alone(k, r) && k != []
    requires e.who == r && Step(g, Run(g, w, k).value, e).Some?
    ensures r in Run(g, w, k).value.sessions
    ensures var s := Run(g, w, k).value.sessions[r];
      !s.at.Fresh? && !s.at.Done? && (s.at.Trying? ==> s.draws <= s.visit.limit)
  {
    RequestsAreSound(g, w, k, r);
    var before := k[..|k| - 1];
    SameRequests(g, w, before);
    NeverFreshAgain(g, Run(g, w, before).value.sessions[r], k[|k| - 1].action);
    if Run(g, w, k).value.sessions[r].at.Done? {
      NothingAfterDone(g, Run(g, w, k).value.sessions[r], e.action);
    }
  }

  lemma NeverFreshAgain(g: Setup, s: Session, a: Action)
    requires Advance(g, s, a).Some?
    ensures !Advance(g, s, a).value.at.Fresh?
  {
  }

  lemma NothingAfterDone(g: Setup, s: Session, a: Action)
    requires s.at.Done?
    ensures Advance(g, s, a).None?
  {
  }

  // ---- an upstream that answers as in a given run ----

  function RawOf(x: Exchange): Raw {
    if x.Answer? then Respond(0, x.took, x.status, x.header, x.body, x.broken, x.retryAfter) else Vanish(0)
  }

  function Answering(xs: seq<Exchange>): Upstream {
    (k: nat) => if k < |xs| then RawOf(xs[k]) else Vanish(0)
  }

  lemma DeclinedIsSettled(x: Exchange, timeout: nat, q: Request)
    requires Declined(x) && 0 < timeout && x.took <= timeout && !q.stream
    ensures Settled(RawOf(x), timeout, q) == x
  {
  }

  lemma {:induction false} AnsweredAsGiven(g: Setup, w: World, k: seq<Event>, r: nat, xs: seq<Exchange>, script: Script)
    requires g.cfg.requestTimeout > 0 && Opening(w) && r in w.sessions && Run(g, w, k).Some? && Alone(k, r)
    requires r in Run(g, w, k).value.sessions && !Run(g, w, k).value.sessions[r].request.stream
    requires Exchanges(k, r) <= xs
    ensures Scripted(g, w, k, r, Answering(xs), script)
  {
    if k != [] {
      var front, e := k[..|k| - 1], k[|k| - 1];
      RequestsAreSound(g, w, front, r);
      var s := Run(g, w, front).value.sessions[r];
      Spending.RequestStays(g, s, e.action);
      assert Exchanges(front, r) <= Exchanges(k, r);
      AnsweredAsGiven(g, w, front, r, xs, script);
      if e.action.Exchanged? {
        assert xs[|Exchanges(front, r)|] == e.action.exchange;
        AttemptInTime(g, s, e.action);
        DeclinedIsSettled(e.action.exchange, s.visit.timeout, s.request);
      }
    }
  }

  lemma AttemptInTime(g: Setup, s: Session, a: Action)
    requires a.Exchanged? && Advance(g, s, a).Some? && Sound(g, s) && Declined(a.exchange)
    requires !Advance(g, s, a).value.request.stream
    ensures 0 < s.visit.timeout && a.exchange.took <= s.visit.timeout && !s.request.stream
  {
  }

  // ---- what stays as it was at the start ----

  // t is where s can come to: later, and for the same request.
  predicate GoesOn(s: Session, t: Session) {
    && (!s.at.Fresh? ==>
          && !t.at.Fresh? && s.clock <= t.clock && s.deadline == t.deadline
          && s.request == t.request && s.start == t.start)
    && (!s.at.Fresh? && !s.at.Started? ==> !t.at.Started? && s.candidates == t.candidates)
  }

  lemma {:induction false} ClockGoesOn(g: Setup, w: World, h: seq<Event>, i: nat, r: nat)
    requires i <= |h| && Run(g, w, h).Some? && r in w.sessions && Run(g, w, h[..i]).Some?
    ensures r in Run(g, w, h).value.sessions && r in Run(g, w, h[..i]).value.sessions
    ensures GoesOn(Run(g, w, h[..i]).value.sessions[r], Run(g, w, h).value.sessions[r])
  {
    SameRequests(g, w, h[..i]);
    if i == |h| {
      assert h[..i] == h;
    } else {
      var front := h[..|h| - 1];
      assert front[..i] == h[..i];
      ClockGoesOn(g, w, front, i, r);
      if h[|h| - 1].who == r {
        StepGoesOn(g, Run(g, w, front).value.sessions[r], h[|h| - 1].action);
      }
    }
  }

  lemma StepGoesOn(g: Setup, s: Session, a: Action)
    requires Advance(g, s, a).Some?
    ensures GoesOn(s, Advance(g, s, a).value)
  {
  }

  lemma {:induction false} NoOverhead(g: Setup, w: World, h: seq<Event>, r: nat, upstream: Upstream, script: Script)
    requires Opening(w) && Solo(g, w, h, r, upstream, script) && Quiet(script)
    ensures r in Run(g, w, h).value.sessions && Run(g, w, h).value.sessions[r].overhead == 0
  {
    if h != [] {
      NoOverhead(g, w, h[..|h| - 1], r, upstream, script);
      OverheadIsWaiting(g, Run(g, w, h[..|h| - 1]).value.sessions[r], h[|h| - 1].action);
      QuietMeansAlone(g, w, h, r, upstream, script);
    }
  }

  lemma OverheadIsWaiting(g: Setup, s: Session, a: Action)
    requires Advance(g, s, a).Some?
    ensures Advance(g, s, a).value.overhead == s.overhead + if a.Wait? then a.time else 0
  {
  }

  // A request's first event.
  lemma {:induction false} FirstEvent(g: Setup, w: World, h: seq<Event>, r: nat, upstream: Upstream, script: Script)
    requires Opening(w) && Solo(g, w, h, r, upstream, script) && Quiet(script)
    requires r in Run(g, w, h).value.sessions && !Run(g, w, h).value.sessions[r].at.Fresh?
    ensures h != []
    ensures h[0] == Event(r, Begin(Run(g, w, h).value.sessions[r].request, Run(g, w, h).value.sessions[r].start))
  {
    QuietMeansAlone(g, w, h, r, upstream, script);
    StepsAt(g, w, h, 0, r, upstream, script);
    BeginsFirst(g, h[0].action);
    ClockGoesOn(g, w, h, 1, r);
  }

  lemma BeginsFirst(g: Setup, a: Action)
    requires Advance(g, FRESH, a).Some?
    ensures a.Begin?
    ensures Advance(g, FRESH, a).value.request == a.request && Advance(g, FRESH, a).value.start == a.now
    ensures !Advance(g, FRESH, a).value.at.Fresh?
  {
  }
}
