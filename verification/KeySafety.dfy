/** Credentials under many requests at once: bars hold, and attempts are bounded by the pools. */
module KeySafety {
  import opened Prelude
  import opened GatewayState
  import opened Protocol
  import opened SessionFacts
  import opened Runs
  import Pool = CredentialPool
  import PoolTheorems
  import Provider

  // ---- pools only become more restrictive ----

  ghost predicate Restricts(p: map<string, Pool.State>, q: map<string, Pool.State>) {
    p.Keys == q.Keys && forall name :: name in p ==> PoolTheorems.Later(p[name], q[name])
  }

  lemma ActionsRestrict(g: Setup, m: Shared, a: Action)
    requires Apply(g, m, a).Some?
    ensures Restricts(m.pools, Apply(g, m, a).value.pools)
  {
  }

  /** Pools keep their keys through any run, and nothing is re-enabled or cooled for less. */
  lemma {:induction false} RunsRestrict(g: Setup, w: World, h: seq<Event>)
    requires Run(g, w, h).Some?
    ensures Restricts(w.shared.pools, Run(g, w, h).value.shared.pools)
  {
    if h != [] {
      var before := Run(g, w, h[..|h| - 1]).value;
      RunsRestrict(g, w, h[..|h| - 1]);
      ActionsRestrict(g, before.shared, h[|h| - 1].action);
    }
  }

  // ---- a request's own bars ----

  predicate Holding(p: Point) { p in {Drawn, Calling, Answered, Noted, Cooled} }

  // Key `k` of pool `name`, when that names a key.
  ghost predicate IsKey(pools: map<string, Pool.State>, name: string, k: nat) {
    name in pools && k < |pools[name].keys|
  }

  // The pools respect every bar the request has put up.
  ghost predicate Respected(pools: map<string, Pool.State>, s: Session) {
    && (Holding(s.at) ==> IsKey(pools, s.visit.candidate.provider, s.key))
    && (forall name, k :: (name, k) in s.disabled ==> IsKey(pools, name, k) && pools[name].keys[k].disabled)
    && (forall name, k, t :: (name, k, t) in s.cooled ==> IsKey(pools, name, k) && pools[name].keys[k].until >= t)
  }

  lemma RestrictionKeepsRespect(p: map<string, Pool.State>, q: map<string, Pool.State>, s: Session)
    requires Respected(p, s) && Restricts(p, q)
    ensures Respected(q, s)
  {
  }

  lemma DrawKeepsRespect(g: Setup, m: Shared, s: Session, a: Action)
    requires a.Draw? && Respected(m.pools, s) && Apply(g, m, a).Some? && Advance(g, s, a).Some?
    ensures Respected(Apply(g, m, a).value.pools, Advance(g, s, a).value)
  {
    ActionsRestrict(g, m, a);
    RestrictionKeepsRespect(m.pools, Apply(g, m, a).value.pools, s);
  }

  lemma BarringKeepsRespect(g: Setup, m: Shared, s: Session, a: Action)
    requires (a.Cool? || a.Disable?) && Respected(m.pools, s) && Apply(g, m, a).Some? && Advance(g, s, a).Some?
    ensures Respected(Apply(g, m, a).value.pools, Advance(g, s, a).value)
  {
    ActionsRestrict(g, m, a);
    RestrictionKeepsRespect(m.pools, Apply(g, m, a).value.pools, s);
  }

  // Any other step bars nothing and picks no key.
  lemma OtherwiseNothingBarred(g: Setup, s: Session, a: Action)
    requires !a.Draw? && !a.Cool? && !a.Disable? && Advance(g, s, a).Some?
    ensures var t := Advance(g, s, a).value;
      && t.disabled == s.disabled && t.cooled == s.cooled
      && (Holding(t.at) ==> Holding(s.at) && t.visit == s.visit && t.key == s.key)
  {
  }

  lemma OwnStepKeepsRespect(g: Setup, m: Shared, s: Session, a: Action)
    requires Respected(m.pools, s) && Apply(g, m, a).Some? && Advance(g, s, a).Some?
    ensures Respected(Apply(g, m, a).value.pools, Advance(g, s, a).value)
  {
    if a.Draw? {
      DrawKeepsRespect(g, m, s, a);
    } else if a.Cool? || a.Disable? {
      BarringKeepsRespect(g, m, s, a);
    } else {
      ActionsRestrict(g, m, a);
      RestrictionKeepsRespect(m.pools, Apply(g, m, a).value.pools, s);
      OtherwiseNothingBarred(g, s, a);
    }
  }

  lemma {:induction false} BarsAreRespected(g: Setup, w: World, h: seq<Event>, r: nat)
    requires Opening(w) && r in w.sessions && Run(g, w, h).Some?
    ensures r in Run(g, w, h).value.sessions
    ensures Respected(Run(g, w, h).value.shared.pools, Run(g, w, h).value.sessions[r])
  {
    if h != [] {
      var before, e := Run(g, w, h[..|h| - 1]).value, h[|h| - 1];
      BarsAreRespected(g, w, h[..|h| - 1], r);
      if e.who == r {
        OwnStepKeepsRespect(g, before.shared, before.sessions[r], e.action);
      } else {
        ActionsRestrict(g, before.shared, e.action);
        RestrictionKeepsRespect(before.shared.pools, Run(g, w, h).value.shared.pools, before.sessions[r]);
      }
    }
  }

  // ---- from an answer to its bar ----

  // The least a key is cooled after a transport error or a server error.
  function LeastCooldown(x: Exchange): Duration {
    if x.Unreachable? then TRANSPORT_COOLDOWN else KEY_COOLDOWN
  }

  // The request has barred key k for what happened to exchange x, over at time `over`, or is about to.
  ghost predicate Bars(s: Session, name: string, k: nat, x: Exchange, over: Time) {
    || (&& s.at in {Answered, Noted} && s.visit.candidate.provider == name && s.key == k
        && s.exchange == x && s.clock >= over)
    || (Unauthorized(x) && (name, k) in s.disabled)
    || (ServerTrouble(x) && CooledLongEnough(s, name, k, over + LeastCooldown(x)))
  }

  ghost predicate CooledLongEnough(s: Session, name: string, k: nat, t: Time) {
    exists u :: u >= t && (name, k, u) in s.cooled
  }

  lemma TroubleVerdicts(g: Setup, r: Request, v: Visit, x: Exchange)
    requires Unauthorized(x) || ServerTrouble(x)
    ensures var verdict := VerdictOn(g, r, v, x);
      && Blames(verdict, x).None?
      && (verdict.Down? || verdict.Rejected?)
      && (verdict.Rejected? ==>
            verdict.decision.action == if Unauthorized(x) then Provider.DisableKey else Provider.RetryKey)
      && (ServerTrouble(x) ==> CoolsFor(verdict).Some? && CoolsFor(verdict).value >= LeastCooldown(x))
  {
    if x.Answer? {
      Provider.FactsAreSeparate(KindOf(g, v.candidate.provider), x.status, g.codec.asText(ErrorBody(x)), x.retryAfter);
    }
  }

  lemma CooledStays(g: Setup, s: Session, a: Action, name: string, k: nat, t: Time)
    requires CooledLongEnough(s, name, k, t) && Advance(g, s, a).Some?
    ensures CooledLongEnough(Advance(g, s, a).value, name, k, t)
  {
    var u :| u >= t && (name, k, u) in s.cooled;
    assert (name, k, u) in Advance(g, s, a).value.cooled;
  }

  lemma TroubleStepsAreFew(g: Setup, s: Session, a: Action)
    requires s.at in {Answered, Noted} && (Unauthorized(s.exchange) || ServerTrouble(s.exchange))
    requires Advance(g, s, a).Some?
    ensures a.Cool? || a.Disable? || a.Wait? || a.Close? || a.Record?
    ensures a.Cool? ==> ServerTrouble(s.exchange) && a.until >= s.clock + LeastCooldown(s.exchange)
  {
    TroubleVerdicts(g, s.request, s.visit, s.exchange);
    if s.at.Answered? {
      AnsweredStepsAreFew(g, s, a);
    }
  }

  lemma AnsweredStepsAreFew(g: Setup, s: Session, a: Action)
    requires s.at.Answered? && Advance(g, s, a).Some?
    ensures a.Wait? || a.Close? || a.Record?
  {
  }

  lemma TroubleIsBarred(g: Setup, s: Session, a: Action, over: Time)
    requires s.at in {Answered, Noted} && s.clock >= over && (Unauthorized(s.exchange) || ServerTrouble(s.exchange))
    requires Advance(g, s, a).Some?
    ensures Bars(Advance(g, s, a).value, s.visit.candidate.provider, s.key, s.exchange, over)
  {
    TroubleStepsAreFew(g, s, a);
    HealthHasSeparateCauses(g, s, a);
    if a.Cool? {
      assert (s.visit.candidate.provider, s.key, a.until) in Advance(g, s, a).value.cooled;
    }
  }

  lemma AdvanceKeepsBars(g: Setup, s: Session, a: Action, name: string, k: nat, x: Exchange, over: Time)
    requires Unauthorized(x) || ServerTrouble(x)
    requires Bars(s, name, k, x, over) && Advance(g, s, a).Some?
    ensures Bars(Advance(g, s, a).value, name, k, x, over)
  {
    if ServerTrouble(x) && CooledLongEnough(s, name, k, over + LeastCooldown(x)) {
      CooledStays(g, s, a, name, k, over + LeastCooldown(x));
    } else if Unauthorized(x) && (name, k) in s.disabled {
      assert (name, k) in Advance(g, s, a).value.disabled;
    } else {
      TroubleIsBarred(g, s, a, over);
    }
  }

  lemma {:induction false} AnswersBecomeBars(g: Setup, w: World, h: seq<Event>, i: nat, r: nat)
    requires Opening(w) && r in w.sessions && Run(g, w, h).Some?
    requires i < |h| && h[i].who == r && h[i].action.Exchanged?
    requires Unauthorized(h[i].action.exchange) || ServerTrouble(h[i].action.exchange)
    ensures Run(g, w, h[..i]).Some? && r in Run(g, w, h[..i]).value.sessions && r in Run(g, w, h).value.sessions
    ensures var s, x := Run(g, w, h[..i]).value.sessions[r], h[i].action.exchange;
      Bars(Run(g, w, h).value.sessions[r], s.visit.candidate.provider, h[i].action.drawn, x, s.clock + x.took)
  {
    PrefixRuns(g, w, h, i);
    SameRequests(g, w, h[..i]);
    SameRequests(g, w, h);
    var front := h[..|h| - 1];
    if i < |h| - 1 {
      assert front[i] == h[i] && front[..i] == h[..i];
      AnswersBecomeBars(g, w, front, i, r);
      var s, x, e := Run(g, w, h[..i]).value.sessions[r], h[i].action.exchange, h[|h| - 1];
      if e.who == r {
        AdvanceKeepsBars(g, Run(g, w, front).value.sessions[r], e.action,
          s.visit.candidate.provider, h[i].action.drawn, x, s.clock + x.took);
      }
    }
  }

  lemma DrawnKeyIsUsable(g: Setup, m: Shared, name: string, now: Time, k: nat)
    requires Apply(g, m, Draw(name, now, Some(k))).Some?
    ensures IsKey(m.pools, name, k) && Pool.Usable(m.pools[name].keys[k], now)
  {
  }

  lemma BarredKeyIsNotDrawn(g: Setup, m: Shared, s: Session, name: string, now: Time, k: nat, x: Exchange, over: Time)
    requires Respected(m.pools, s) && Bars(s, name, k, x, over) && s.at.Trying?
    requires Apply(g, m, Draw(name, now, Some(k))).Some?
    ensures !Unauthorized(x) && now >= over + LeastCooldown(x)
  {
    DrawnKeyIsUsable(g, m, name, now, k);
    if CooledLongEnough(s, name, k, over + LeastCooldown(x)) {
      var u :| u >= over + LeastCooldown(x) && (name, k, u) in s.cooled;
    }
  }

  /** Whatever other requests do to the pools meanwhile, a request never draws a key again after a 401
      on it, and draws it again only five seconds after a transport error, or ten after a server error. */
  lemma FailedKeyIsNotRetried(g: Setup, w: World, h: seq<Event>, i: nat, r: nat, now: Time)
    requires Opening(w) && r in w.sessions && Run(g, w, h).Some?
    requires i < |h| && h[i].who == r && h[i].action.Exchanged?
    requires Run(g, w, h[..i]).Some? && r in Run(g, w, h[..i]).value.sessions
    requires Unauthorized(h[i].action.exchange) || ServerTrouble(h[i].action.exchange)
    requires var s := Run(g, w, h[..i]).value.sessions[r];
      Step(g, Run(g, w, h).value, Event(r, Draw(s.visit.candidate.provider, now, Some(h[i].action.drawn)))).Some?
    ensures var s, x := Run(g, w, h[..i]).value.sessions[r], h[i].action.exchange;
      !Unauthorized(x) && now >= s.clock + x.took + LeastCooldown(x)
  {
    var s, x := Run(g, w, h[..i]).value.sessions[r], h[i].action.exchange;
    BarsAreRespected(g, w, h, r);
    AnswersBecomeBars(g, w, h, i, r);
    var v := Run(g, w, h).value;
    BarredKeyIsNotDrawn(g, v.shared, v.sessions[r], s.visit.candidate.provider, now, h[i].action.drawn, x,
      s.clock + x.took);
  }

  // ---- attempts against the pools ----

  function PoolSize(pools: map<string, Pool.State>, name: string): nat {
    if name in pools then |pools[name].keys| else 0
  }

  // The keys of the first n candidates' pools together.
  ghost function KeysOf(pools: map<string, Pool.State>, s: Session, n: nat): nat
    requires n <= |s.candidates|
  {
    if n == 0 then 0 else KeysOf(pools, s, n - 1) + PoolSize(pools, s.candidates[n - 1].provider)
  }

  lemma {:induction false} KeysOfSame(p: map<string, Pool.State>, q: map<string, Pool.State>, s: Session,
                                      t: Session, n: nat)
    requires Restricts(p, q) && s.candidates == t.candidates && n <= |s.candidates|
    ensures KeysOf(p, s, n) == KeysOf(q, t, n)
  {
    if n > 0 {
      KeysOfSame(p, q, s, t, n - 1);
    }
  }

  ghost predicate Allowed(pools: map<string, Pool.State>, s: Session) {
    s.ci <= |s.candidates| && s.allowance <= KeysOf(pools, s, s.ci)
  }

  // A request stays at its candidate, or moves past it and may add that candidate's keys.
  ghost predicate Moves(pools: map<string, Pool.State>, s: Session, t: Session) {
    && t.candidates == s.candidates
    && ((t.ci == s.ci && t.allowance == s.allowance)
        || (s.ci < |s.candidates| && t.ci == s.ci + 1
            && t.allowance <= s.allowance + PoolSize(pools, s.candidates[s.ci].provider)))
  }

  lemma AdvanceMoves(g: Setup, m: Shared, s: Session, a: Action)
    requires !a.Select? && Apply(g, m, a).Some? && Advance(g, s, a).Some?
    ensures Moves(m.pools, s, Advance(g, s, a).value)
    ensures Advance(g, s, a).value.at in {Fresh, Started} ==>
      s.at in {Fresh, Started} && Advance(g, s, a).value.allowance == s.allowance
  {
    if !a.Enter? {
      NothingAllowed(g, s, a);
    }
  }

  lemma NothingAllowed(g: Setup, s: Session, a: Action)
    requires !a.Select? && !a.Enter? && Advance(g, s, a).Some?
    ensures var t := Advance(g, s, a).value;
      && t.candidates == s.candidates && t.allowance == s.allowance
      && (t.ci == s.ci || (s.ci < |s.candidates| && t.ci == s.ci + 1))
      && (t.at in {Fresh, Started} ==> s.at in {Fresh, Started})
  {
  }

  lemma MovingKeepsAllowance(p: map<string, Pool.State>, q: map<string, Pool.State>, s: Session, t: Session)
    requires Restricts(p, q) && Allowed(p, s) && Moves(p, s, t)
    ensures Allowed(q, t)
  {
    KeysOfSame(p, q, s, t, s.ci);
  }

  lemma StepKeepsAllowance(g: Setup, m: Shared, s: Session, a: Action)
    requires Allowed(m.pools, s) && (s.at in {Fresh, Started} ==> s.allowance == 0)
    requires Apply(g, m, a).Some? && Advance(g, s, a).Some?
    ensures Allowed(Apply(g, m, a).value.pools, Advance(g, s, a).value)
    ensures Advance(g, s, a).value.at in {Fresh, Started} ==> Advance(g, s, a).value.allowance == 0
  {
    if !a.Select? {
      ActionsRestrict(g, m, a);
      AdvanceMoves(g, m, s, a);
      MovingKeepsAllowance(m.pools, Apply(g, m, a).value.pools, s, Advance(g, s, a).value);
    }
  }

  lemma {:induction false} AllowanceIsKeys(g: Setup, w: World, h: seq<Event>, r: nat)
    requires Opening(w) && r in w.sessions && Run(g, w, h).Some?
    ensures r in Run(g, w, h).value.sessions
    ensures var v := Run(g, w, h).value; var s := v.sessions[r];
      Allowed(v.shared.pools, s) && (s.at in {Fresh, Started} ==> s.allowance == 0)
  {
    if h != [] {
      var before, e := Run(g, w, h[..|h| - 1]).value, h[|h| - 1];
      AllowanceIsKeys(g, w, h[..|h| - 1], r);
      if e.who == r {
        StepKeepsAllowance(g, before.shared, before.sessions[r], e.action);
      } else {
        ActionsRestrict(g, before.shared, e.action);
        var s := before.sessions[r];
        KeysOfSame(before.shared.pools, Run(g, w, h).value.shared.pools, s, s, s.ci);
      }
    }
  }

  /** A request makes at most as many attempts as there are keys in the pools of the candidates it has
      come to, each pool counted once per candidate. */
  lemma AttemptsAreBounded(g: Setup, w: World, h: seq<Event>, r: nat)
    requires g.cfg.requestTimeout > 0 && Opening(w) && r in w.sessions && Run(g, w, h).Some?
    ensures r in Run(g, w, h).value.sessions
    ensures var v := Run(g, w, h).value; var s := v.sessions[r];
      s.ci <= |s.candidates| && s.ledger.attempts <= KeysOf(v.shared.pools, s, s.ci)
  {
    RequestsAreSound(g, w, h, r);
    AllowanceIsKeys(g, w, h, r);
  }
}
