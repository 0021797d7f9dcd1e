/** What upstream is sent, in every interleaved run: the client's request, as the configuration has it for the
    model tried. */
module SentRequests {
  import opened Prelude
  import opened Config
  import opened KeyFraming
  import opened GatewayState
  import opened Protocol
  import opened SessionFacts
  import opened Runs
  import CacheCoherence
  import Breaker = CircuitBreaker
  import Body = Completions

  // A requested name stands for this alias: as a route, or else as a model, or, when there is no name, by the
  // default route.
  ghost predicate StandsFor(cfg: Config, requested: string, alias: string) {
    if requested in cfg.routes then alias in cfg.routes[requested]
    else if requested in cfg.models then alias == requested
    else requested == "" && "default" in cfg.routes && alias in cfg.routes["default"]
  }

  // The body reads back as: the model's own upstream name, everything else the client asked for, and the model's
  // parameters for the rest and nothing more.
  ghost predicate AsksFor(codec: Body.Codec, asked: Bytes, m: Model, body: Bytes) {
    && codec.fields(asked).Some? && codec.fields(body).Some?
    && var client, sent := codec.fields(asked).value, codec.fields(body).value;
       && sent.Keys == client.Keys + m.params.Keys + {"model"}
       && sent["model"] == codec.quote(m.upstreamModel)
       && (forall k :: k in client && k != "model" ==> sent[k] == client[k])
       && (forall k :: k in m.params && k !in client && k != "model" ==> sent[k] == m.params[k])
  }

  // What was written into this body is what is read back from it.
  ghost predicate ReadsBack(codec: Body.Codec, body: Bytes) {
    forall m :: codec.marshal(m) == body ==> codec.fields(body) == Some(m)
  }

  // How long an attempt may take: the model's own attempt timeout, if it has one, but no longer than what was
  // left of the request's time when its candidate was come to.
  ghost predicate InItsTime(q: Request, start: Time, budget: Duration, m: Model, entered: Time, x: Exchange) {
    var left := start + budget - entered;
    var most := if 0 < m.attemptTimeout <= left then m.attemptTimeout else left;
    && 0 < left
    && (x.TimedOut? ==> x.took == most)
    && (!x.TimedOut? ==> x.took <= most || (q.stream && x.Answer?))
  }

  // Request r came to the candidate it is at in event i with event e.
  ghost predicate CameAt(h: seq<Event>, i: nat, r: nat, e: nat) {
    && e < i <= |h| && h[e].who == r && h[e].action.Enter?
    && forall k :: e < k < i && h[k].who == r ==> !h[k].action.Enter? && !h[k].action.Skip?
  }

  // Sent as the configuration has it for the model `alias`, which request q stands for.
  ghost predicate SentAs(g: Setup, q: Request, alias: string, sent: Identity) {
    && StandsFor(g.cfg, q.model, alias) && alias in g.cfg.models
    && var m := g.cfg.models[alias];
       && sent.provider == g.codec.bytesOf(m.provider) && sent.model == g.codec.bytesOf(m.upstreamModel)
       && sent.verb == g.codec.bytesOf(q.verb) && sent.path == g.codec.bytesOf(q.path)
       && sent.query == g.codec.bytesOf(q.query)
       && (ReadsBack(g.codec, sent.body) ==> AsksFor(g.codec, q.body, m, sent.body))
  }

  ghost predicate TimedAs(g: Setup, q: Request, start: Time, entered: Time, alias: string, x: Exchange) {
    alias in g.cfg.models && InItsTime(q, start, g.cfg.requestTimeout, g.cfg.models[alias], entered, x)
  }

  /** Event i sends the request that began at event b on to the model `alias`, which it came to at event e. */
  ghost predicate SentOn(g: Setup, h: seq<Event>, i: nat, b: nat, e: nat, alias: string) {
    && b < i < |h| && h[i].action.Exchanged? && h[b].who == h[i].who && h[b].action.Begin?
    && CameAt(h, i, h[i].who, e) && h[e].action.visit.candidate.alias == alias
    && SentAs(g, h[b].action.request, alias, h[i].action.sent)
    && TimedAs(g, h[b].action.request, h[b].action.now, h[e].action.now, alias, h[i].action.exchange)
  }

  ghost predicate IsSentOn(g: Setup, h: seq<Event>, i: nat) {
    exists b: nat, e: nat, alias :: SentOn(g, h, i, b, e, alias)
  }

  // ---- candidates ----

  ghost predicate Configured(g: Setup, requested: string, c: Breaker.Candidate) {
    StandsFor(g.cfg, requested, c.alias) && c == Breaker.CandidateFor(g.cfg, c.alias)
  }

  ghost predicate Placed(g: Setup, s: Session) {
    && (forall c :: c in s.candidates ==> Configured(g, s.request.model, c))
    && (InVisit(s.at) ==> Configured(g, s.request.model, s.visit.candidate) && Timed(g, s))
    && (!s.at.Fresh? ==> s.deadline == s.start + g.cfg.requestTimeout)
  }

  ghost predicate Timed(g: Setup, s: Session) {
    && s.entered < s.deadline
    && s.visit.timeout ==
         EffectiveTimeout(ModelNamed(g.cfg, s.visit.candidate.alias).attemptTimeout, s.deadline - s.entered)
  }

  lemma StepKeepsPlaced(g: Setup, m: Shared, s: Session, a: Action)
    requires Placed(g, s) && (s.at in {Fresh, Started} ==> s.candidates == [])
    requires Apply(g, m, a).Some? && Advance(g, s, a).Some?
    ensures Placed(g, Advance(g, s, a).value)
    ensures Advance(g, s, a).value.at in {Fresh, Started} ==> Advance(g, s, a).value.candidates == []
  {
    if a.Select? {
      FoundAreConfigured(g, m, a);
    } else if !a.Enter? && !a.Begin? {
      StaysPlaced(g, s, a);
    }
  }

  lemma FoundAreConfigured(g: Setup, m: Shared, a: Action)
    requires a.Select? && Apply(g, m, a).Some?
    ensures forall c :: c in a.found ==> Configured(g, a.model, c)
  {
    var aliases := Breaker.Resolve(g.cfg, a.model);
    if aliases.Some? {
      Breaker.ClosedMembers(g.cfg, m.health, aliases.value, a.now);
    }
  }

  lemma StaysPlaced(g: Setup, s: Session, a: Action)
    requires !a.Select? && !a.Enter? && !a.Begin? && Advance(g, s, a).Some?
    ensures var t := Advance(g, s, a).value;
      && t.candidates == s.candidates && t.request == s.request && t.deadline == s.deadline && t.start == s.start
      && !s.at.Fresh? && (t.at in {Fresh, Started} ==> s.at in {Fresh, Started})
      && (InVisit(t.at) ==> InVisit(s.at) && t.visit == s.visit && t.entered == s.entered)
  {
  }

  lemma {:induction false} RequestsArePlaced(g: Setup, w: World, h: seq<Event>, r: nat)
    requires Opening(w) && r in w.sessions && Run(g, w, h).Some?
    ensures r in Run(g, w, h).value.sessions && Placed(g, Run(g, w, h).value.sessions[r])
    ensures Run(g, w, h).value.sessions[r].at in {Fresh, Started} ==> Run(g, w, h).value.sessions[r].candidates == []
  {
    if h != [] {
      var front, e := h[..|h| - 1], h[|h| - 1];
      RequestsArePlaced(g, w, front, r);
      var before := Run(g, w, front).value;
      if e.who == r {
        StepKeepsPlaced(g, before.shared, before.sessions[r], e.action);
      }
    }
  }

  // ---- where a request is, told from what it did ----

  // What a request's clock shows: when it began, and the time it has waited and has been answered in since.
  ghost function TimeOf(h: seq<Event>, r: nat): Time {
    if h == [] then 0
    else
      var t, e := TimeOf(h[..|h| - 1], r), h[|h| - 1];
      if e.who != r then t
      else
        match e.action
        case Begin(_, now) => now
        case Wait(d) => t + d
        case Exchanged(_, _, x) => t + x.took
        case _ => t
  }

  // How many candidates a request has come to.
  ghost function ComeTo(h: seq<Event>, r: nat): nat {
    if h == [] then 0
    else
      var e := h[|h| - 1];
      ComeTo(h[..|h| - 1], r) + if e.who == r && (e.action.Enter? || e.action.Skip?) then 1 else 0
  }

  ghost predicate SelectedAt(h: seq<Event>, r: nat, s: Session, k: nat) {
    k < |h| && h[k].who == r && h[k].action.Select? && h[k].action.found == s.candidates
  }

  ghost predicate EnteredAt(h: seq<Event>, r: nat, s: Session, e: nat) {
    && e < |h| && h[e] == Event(r, Enter(s.visit, s.entered))
    && forall k :: e < k < |h| && h[k].who == r ==> !h[k].action.Enter? && !h[k].action.Skip?
  }

  ghost predicate Tracked(h: seq<Event>, r: nat, s: Session) {
    && s.clock == TimeOf(h, r) && s.ci == ComeTo(h, r) && (s.at in {Fresh, Started} ==> s.ci == 0)
    && (s.at !in {Fresh, Started} ==> exists k: nat :: SelectedAt(h, r, s, k))
    && (InVisit(s.at) ==> exists e: nat :: EnteredAt(h, r, s, e))
  }

  lemma CameInPrefix(h: seq<Event>, i: nat, r: nat, s: Session, e: nat)
    requires i <= |h| && EnteredAt(h[..i], r, s, e)
    ensures CameAt(h, i, r, e) && h[e].action.visit == s.visit && h[e].action.now == s.entered
  {
    assert h[..i][e] == h[e];
    forall k | e < k < i && h[k].who == r ensures !h[k].action.Enter? && !h[k].action.Skip? {
      assert h[..i][k] == h[k];
    }
  }

  lemma OneMoreEvent(h: seq<Event>, e: Event, r: nat)
    ensures (h + [e])[..|h + [e]| - 1] == h && (h + [e])[|h + [e]| - 1] == e
  {
  }

  lemma OthersLeaveTracks(h: seq<Event>, r: nat, s: Session, e: Event)
    requires Tracked(h, r, s) && e.who != r
    ensures Tracked(h + [e], r, s)
  {
    OneMoreEvent(h, e, r);
    if s.at !in {Fresh, Started} {
      var k: nat :| SelectedAt(h, r, s, k);
      assert SelectedAt(h + [e], r, s, k);
    }
    if InVisit(s.at) {
      var k: nat :| EnteredAt(h, r, s, k);
      assert EnteredAt(h + [e], r, s, k);
    }
  }

  lemma StepKeepsTracks(g: Setup, h: seq<Event>, r: nat, s: Session, a: Action)
    requires Tracked(h, r, s) && Advance(g, s, a).Some?
    ensures Tracked(h + [Event(r, a)], r, Advance(g, s, a).value)
  {
    var t, e := Advance(g, s, a).value, Event(r, a);
    OneMoreEvent(h, e, r);
    StepMoves(g, s, a);
    if a.Select? {
      assert SelectedAt(h + [e], r, t, |h|);
    } else if t.at !in {Fresh, Started} {
      var k: nat :| SelectedAt(h, r, s, k);
      assert SelectedAt(h + [e], r, t, k);
    }
    if a.Enter? {
      assert EnteredAt(h + [e], r, t, |h|);
    } else if InVisit(t.at) {
      var k: nat :| EnteredAt(h, r, s, k);
      assert EnteredAt(h + [e], r, t, k);
    }
  }

  lemma StepMoves(g: Setup, s: Session, a: Action)
    requires Advance(g, s, a).Some?
    ensures var t := Advance(g, s, a).value;
      && t.clock == (match a
                     case Begin(_, now) => now
                     case Wait(d) => s.clock + d
                     case Exchanged(_, _, x) => s.clock + x.took
                     case _ => s.clock)
      && (a.Select? ==> s.at.Started? && t.candidates == a.found && t.ci == 0 && t.at.Between?)
      && (a.Enter? ==> t.visit == a.visit && t.entered == a.now)
      && (a.Begin? ==> t.at.Started? && s.at.Fresh?)
  {
    if !a.Select? && !a.Enter? && !a.Begin? {
      StaysPlaced(g, s, a);
    }
  }

  lemma {:induction false} RequestsAreTracked(g: Setup, w: World, h: seq<Event>, r: nat)
    requires Opening(w) && r in w.sessions && Run(g, w, h).Some?
    ensures r in Run(g, w, h).value.sessions && Tracked(h, r, Run(g, w, h).value.sessions[r])
  {
    if h != [] {
      var front, e := h[..|h| - 1], h[|h| - 1];
      assert h == front + [e];
      RequestsAreTracked(g, w, front, r);
      LastStepTracked(g, front, r, e, Run(g, w, front).value, Run(g, w, h).value);
    }
  }

  lemma LastStepTracked(g: Setup, h: seq<Event>, r: nat, e: Event, before: World, after: World)
    requires r in before.sessions && Tracked(h, r, before.sessions[r]) && Step(g, before, e) == Some(after)
    ensures r in after.sessions && Tracked(h + [e], r, after.sessions[r])
  {
    if e.who == r {
      StepKeepsTracks(g, h, r, before.sessions[r], e.action);
    } else {
      OthersLeaveTracks(h, r, before.sessions[r], e);
    }
  }

  // ---- the order ----

  // The request of event i chose its candidates at event k, and has come to `n` of them since.
  ghost predicate Chose(h: seq<Event>, i: nat, k: nat, n: nat) {
    && k < i < |h| && h[k].who == h[i].who && h[k].action.Select?
    && n == ComeTo(h[..i], h[i].who) && n <= |h[k].action.found|
  }

  /** Candidates are tried one by one in the order in which they were found, and every fallback is charged to the
      one tried before. */
  ghost predicate InTurn(h: seq<Event>, i: nat) {
    exists k: nat, n: nat ::
      && Chose(h, i, k, n)
      && (h[i].action.Enter? ==> n < |h[k].action.found| && h[i].action.visit.candidate == h[k].action.found[n])
      && (h[i].action.ModelFallback? ==>
            n > 0 && h[i].action.alias == h[k].action.found[n - 1].alias && h[i].action.reason == "route_fallback")
  }

  lemma CandidatesAreTriedInTurn(g: Setup, w: World, h: seq<Event>, i: nat)
    requires Opening(w) && Run(g, w, h).Some? && i < |h| && h[i].who in w.sessions
    requires h[i].action.Enter? || h[i].action.ModelFallback?
    ensures InTurn(h, i)
  {
    ActedFrom(g, w, h, i);
    TriedInTurn(g, h, i, Run(g, w, h[..i]).value.sessions[h[i].who]);
  }

  lemma TriedInTurn(g: Setup, h: seq<Event>, i: nat, s: Session)
    requires i < |h| && Advance(g, s, h[i].action).Some? && Tracked(h[..i], h[i].who, s)
    requires h[i].action.Enter? || h[i].action.ModelFallback?
    ensures InTurn(h, i)
  {
    var k: nat :| SelectedAt(h[..i], h[i].who, s, k);
    assert h[..i][k] == h[k];
    assert Chose(h, i, k, s.ci);
  }

  // What a name stands for when the circuits are in this state, whole and in order.
  ghost predicate FoundFor(g: Setup, health: map<string, Breaker.Health>, requested: string, now: Time,
                           found: seq<Breaker.Candidate>) {
    if requested in g.cfg.routes then
      exists idx :: Breaker.InRouteOrder(g.cfg, health, g.cfg.routes[requested], now, found, idx)
    else if requested in g.cfg.models then
      exists idx :: Breaker.InRouteOrder(g.cfg, health, [requested], now, found, idx)
    else if requested == "" && "default" in g.cfg.routes then
      exists idx :: Breaker.InRouteOrder(g.cfg, health, g.cfg.routes["default"], now, found, idx)
    else found == []
  }

  // Event i selects for the request that began at event b.
  ghost predicate Selects(g: Setup, w: World, h: seq<Event>, i: nat, b: nat) {
    && b < i < |h| && h[i].action.Select? && h[b].who == h[i].who && h[b].action.Begin?
    && h[i].action.now == TimeOf(h[..i], h[i].who) && Run(g, w, h[..i]).Some?
    && FoundFor(g, Run(g, w, h[..i]).value.shared.health, h[b].action.request.model, h[i].action.now,
         h[i].action.found)
  }

  lemma FoundInOrder(g: Setup, m: Shared, a: Action)
    requires a.Select? && Apply(g, m, a).Some?
    ensures FoundFor(g, m.health, a.model, a.now, a.found)
  {
    var aliases := Breaker.Resolve(g.cfg, a.model);
    if aliases.Some? {
      var idx := Breaker.ClosedInRouteOrder(g.cfg, m.health, aliases.value, a.now);
    }
  }

  /** Each request selects all that its name stands for whose circuit is closed just then, in the order of the
      route. */
  lemma EverySelectionIsWhole(g: Setup, w: World, h: seq<Event>, i: nat)
    requires Opening(w) && Run(g, w, h).Some? && i < |h| && h[i].who in w.sessions && h[i].action.Select?
    ensures exists b: nat :: Selects(g, w, h, i, b)
  {
    ActedFrom(g, w, h, i);
    var before := Run(g, w, h[..i]).value;
    var s := before.sessions[h[i].who];
    FoundInOrder(g, before.shared, h[i].action);
    SelectsFrom(g, h, i, s);
    var b: nat :| CacheCoherence.BegunAt(h[..i], h[i].who, s, b);
    assert h[..i][b] == h[b];
    assert Selects(g, w, h, i, b);
  }

  lemma SelectsFrom(g: Setup, h: seq<Event>, i: nat, s: Session)
    requires ActsFrom(g, h, i, s) && h[i].action.Select?
    ensures !s.at.Fresh? && h[i].action.now == TimeOf(h[..i], h[i].who) && h[i].action.model == s.request.model
  {
  }

  // ---- the body ----

  lemma PatchedAsksFor(g: Setup, q: Request, c: Breaker.Candidate, body: Bytes)
    requires PatchFor(g, q, c) == Some(body) && c.alias in g.cfg.models && c == Breaker.CandidateFor(g.cfg, c.alias)
    requires ReadsBack(g.codec, body)
    ensures AsksFor(g.codec, q.body, g.cfg.models[c.alias], body)
  {
    Body.ClientFieldsWin(g.codec, q.body, c.upstreamModel, ModelNamed(g.cfg, c.alias).params);
  }

  lemma StandsForAModel(cfg: Config, parsesURL: string -> bool, requested: string, alias: string)
    requires SoundConfig(cfg, parsesURL) && StandsFor(cfg, requested, alias)
    ensures alias in cfg.models
  {
  }

  /** In every interleaving each attempt of a request is sent on to a model its name stands for, at that model's
      provider and under its upstream name, with the client's method, path and query and the client's body under
      the model's name and parameters; and it is given its own time. */
  lemma EveryAttemptIsSentOn(g: Setup, parsesURL: string -> bool, w: World, h: seq<Event>, i: nat)
    requires SoundConfig(g.cfg, parsesURL)
    requires Opening(w) && Run(g, w, h).Some? && i < |h| && h[i].who in w.sessions && h[i].action.Exchanged?
    ensures IsSentOn(g, h, i)
  {
    ActedFrom(g, w, h, i);
    var s :| ActsFrom(g, h, i, s);
    SentOnFrom(g, parsesURL, h, i, s);
  }

  lemma SentOnFrom(g: Setup, parsesURL: string -> bool, h: seq<Event>, i: nat, s: Session)
    requires SoundConfig(g.cfg, parsesURL) && ActsFrom(g, h, i, s) && h[i].action.Exchanged?
    ensures IsSentOn(g, h, i)
  {
    AttemptIsSentOn(g, parsesURL, s, h[i].action);
    SentOnSometime(g, h, i, s);
  }

  lemma SentOnSometime(g: Setup, h: seq<Event>, i: nat, s: Session)
    requires i < |h| && h[i].action.Exchanged? && InVisit(s.at)
    requires CacheCoherence.Witnessed(h[..i], h[i].who, s) && Tracked(h[..i], h[i].who, s)
    requires SentAs(g, s.request, s.visit.candidate.alias, h[i].action.sent)
    requires TimedAs(g, s.request, s.start, s.entered, s.visit.candidate.alias, h[i].action.exchange)
    ensures IsSentOn(g, h, i)
  {
    var b: nat :| CacheCoherence.BegunAt(h[..i], h[i].who, s, b);
    var e: nat :| EnteredAt(h[..i], h[i].who, s, e);
    SentOnAt(g, h, i, s, b, e);
  }

  lemma SentOnAt(g: Setup, h: seq<Event>, i: nat, s: Session, b: nat, e: nat)
    requires i < |h| && h[i].action.Exchanged?
    requires CacheCoherence.BegunAt(h[..i], h[i].who, s, b) && EnteredAt(h[..i], h[i].who, s, e)
    requires SentAs(g, s.request, s.visit.candidate.alias, h[i].action.sent)
    requires TimedAs(g, s.request, s.start, s.entered, s.visit.candidate.alias, h[i].action.exchange)
    ensures SentOn(g, h, i, b, e, s.visit.candidate.alias)
  {
    assert h[..i][b] == h[b];
    CameInPrefix(h, i, h[i].who, s, e);
  }

  // Where a request stands that takes event i, and what it has behind it.
  ghost predicate ActsFrom(g: Setup, h: seq<Event>, i: nat, s: Session) {
    && i < |h| && Advance(g, s, h[i].action).Some?
    && CacheCoherence.Vetted(g, s) && Placed(g, s) && CacheCoherence.Witnessed(h[..i], h[i].who, s)
    && Tracked(h[..i], h[i].who, s)
  }

  lemma ActedFrom(g: Setup, w: World, h: seq<Event>, i: nat)
    requires Opening(w) && Run(g, w, h).Some? && i < |h| && h[i].who in w.sessions
    ensures Run(g, w, h[..i]).Some? && h[i].who in Run(g, w, h[..i]).value.sessions
    ensures ActsFrom(g, h, i, Run(g, w, h[..i]).value.sessions[h[i].who])
    ensures Apply(g, Run(g, w, h[..i]).value.shared, h[i].action).Some?
  {
    PrefixRuns(g, w, h, i + 1);
    assert h[..i + 1][..i] == h[..i];
    CacheCoherence.RequestsAreVetted(g, w, h[..i], h[i].who);
    RequestsArePlaced(g, w, h[..i], h[i].who);
    RequestsAreTracked(g, w, h[..i], h[i].who);
  }

  lemma AttemptIsSentOn(g: Setup, parsesURL: string -> bool, s: Session, a: Action)
    requires SoundConfig(g.cfg, parsesURL) && CacheCoherence.Vetted(g, s) && Placed(g, s)
    requires a.Exchanged? && Advance(g, s, a).Some?
    ensures InVisit(s.at)
    ensures SentAs(g, s.request, s.visit.candidate.alias, a.sent)
    ensures TimedAs(g, s.request, s.start, s.entered, s.visit.candidate.alias, a.exchange)
  {
    VisitIsSentAs(g, parsesURL, s);
  }

  lemma VisitIsSentAs(g: Setup, parsesURL: string -> bool, s: Session)
    requires SoundConfig(g.cfg, parsesURL) && CacheCoherence.Vetted(g, s) && Placed(g, s) && InVisit(s.at)
    ensures SentAs(g, s.request, s.visit.candidate.alias, s.visit.sent)
  {
    StandsForAModel(g.cfg, parsesURL, s.request.model, s.visit.candidate.alias);
    if ReadsBack(g.codec, s.visit.sent.body) {
      PatchedAsksFor(g, s.request, s.visit.candidate, s.visit.sent.body);
    }
  }

  // ---- hits ----

  // Event i answers its request, which began at event b and has come to the model `alias`, from the cache: with the
  // answer upstream gave, less than a lifetime before, to what would be sent on otherwise.
  ghost predicate AnsweredFor(g: Setup, h: seq<Event>, i: nat, b: nat, alias: string, id: Identity) {
    && b < i < |h| && h[i].action.LookUp? && h[i].action.hit.Some?
    && h[b].who == h[i].who && h[b].action.Begin?
    && SentAs(g, h[b].action.request, alias, id)
    && CacheCoherence.Replayed(g, h[..i], id, h[i].action.hit.value, h[i].action.now)
  }

  ghost predicate Answers(g: Setup, h: seq<Event>, i: nat) {
    exists b: nat, alias, id :: AnsweredFor(g, h, i, b, alias, id)
  }

  ghost predicate ShortVisits(h: seq<Event>) {
    forall i :: 0 <= i < |h| && h[i].action.Enter? ==> Short(Parts(h[i].action.visit.sent))
  }

  /** In every interleaving a hit answers what the request would have been sent on as. */
  lemma HitsAnswerTheRequest(g: Setup, parsesURL: string -> bool, w: World, h: seq<Event>, i: nat)
    requires SoundConfig(g.cfg, parsesURL)
    requires Opening(w) && w.shared.cache == map[] && AllFollowed(w, h) && Run(g, w, h).Some?
    requires CacheCoherence.ShortRequests(h) && ShortVisits(h)
    requires i < |h| && h[i].action.LookUp? && h[i].action.hit.Some?
    ensures Answers(g, h, i)
  {
    ActedFrom(g, w, h, i);
    var before := Run(g, w, h[..i]).value;
    HitAnswers(g, parsesURL, w, h, i, before, before.sessions[h[i].who]);
  }

  lemma HitAnswers(g: Setup, parsesURL: string -> bool, w: World, h: seq<Event>, i: nat, before: World, s: Session)
    requires SoundConfig(g.cfg, parsesURL) && ActsFrom(g, h, i, s)
    requires Opening(w) && w.shared.cache == map[] && AllFollowed(w, h) && Run(g, w, h[..i]) == Some(before)
    requires CacheCoherence.ShortRequests(h) && ShortVisits(h)
    requires h[i].action.LookUp? && h[i].action.hit.Some? && Apply(g, before.shared, h[i].action).Some?
    ensures Answers(g, h, i)
  {
    VisitIsShort(g, h, i, s);
    VisitIsSentAs(g, parsesURL, s);
    HitIsReplayed(g, w, h, i, before, s.visit.sent);
    HitIsFor(g, h, i, s);
  }

  lemma HitIsReplayed(g: Setup, w: World, h: seq<Event>, i: nat, before: World, id: Identity)
    requires Opening(w) && w.shared.cache == map[] && i < |h| && AllFollowed(w, h) && Run(g, w, h[..i]) == Some(before)
    requires h[i].action.LookUp? && h[i].action.hit.Some? && h[i].action.key == KeyFor(g, id)
    requires Apply(g, before.shared, h[i].action).Some?
    requires Short(Parts(id)) && CacheCoherence.ShortRequests(h[..i])
    ensures CacheCoherence.Replayed(g, h[..i], id, h[i].action.hit.value, h[i].action.now)
  {
    CacheCoherence.HitReplaysTheSameRequest(g, w, h[..i], id, h[i].action.now, h[i].action.hit.value);
  }

  lemma HitIsFor(g: Setup, h: seq<Event>, i: nat, s: Session)
    requires i < |h| && CacheCoherence.Witnessed(h[..i], h[i].who, s) && InVisit(s.at)
    requires h[i].action.LookUp? && h[i].action.hit.Some?
    requires SentAs(g, s.request, s.visit.candidate.alias, s.visit.sent)
    requires CacheCoherence.Replayed(g, h[..i], s.visit.sent, h[i].action.hit.value, h[i].action.now)
    ensures Answers(g, h, i)
  {
    var b: nat :| CacheCoherence.BegunAt(h[..i], h[i].who, s, b);
    assert h[..i][b] == h[b];
    assert AnsweredFor(g, h, i, b, s.visit.candidate.alias, s.visit.sent);
  }

  lemma VisitIsShort(g: Setup, h: seq<Event>, i: nat, s: Session)
    requires ActsFrom(g, h, i, s) && h[i].action.LookUp? && ShortVisits(h) && CacheCoherence.ShortRequests(h)
    ensures Short(Parts(s.visit.sent)) && CacheCoherence.ShortRequests(h[..i])
    ensures InVisit(s.at) && h[i].action.key == KeyFor(g, s.visit.sent)
  {
    var e: nat :| EnteredAt(h[..i], h[i].who, s, e);
    CameInPrefix(h, i, h[i].who, s, e);
    forall j | 0 <= j < i && h[..i][j].action.Exchanged? ensures Short(Parts(h[..i][j].action.sent)) {
      assert h[..i][j] == h[j];
    }
  }
}
