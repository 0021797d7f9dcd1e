/** The budgeted cache against an unbounded TTL map, over whole runs. */
module CacheRefinement {
  import opened Prelude
  import opened ResponseCache

  // One call; every call is atomic under the cache's mutex. Len and Bytes both only prune. A store
  // carries the victims the cache happened to choose.
  datatype Op =
    | Get(key: string, now: Time)
    | Set(key: string, value: Response, now: Time, victims: seq<string>)
    | Prune(now: Time)

  // The cache beside the map it stands for: `ideal` remembers every accepted store for ever, and
  // `evicted` the keys pushed out since their last accepted store.
  datatype View = View(kept: Entries, ideal: Entries, evicted: set<string>, at: Time)

  const EMPTY := View(map[], map[], {}, ZERO_TIME)

  ghost predicate Legal(b: Budget, ttl: Duration, v: View, op: Op) {
    && op.now >= v.at
    && (op.Set? && Accepts(b, op.value, ttl) ==> MakesRoom(b, v.kept, op.key, op.value, op.now, op.victims))
  }

  function After(b: Budget, ttl: Duration, v: View, op: Op): View {
    match op
    case Get(key, now) => v.(kept := AfterGet(v.kept, key, now), at := now)
    case Prune(now) => v.(kept := Unexpired(v.kept, now), at := now)
    case Set(key, value, now, victims) =>
      if !Accepts(b, value, ttl) then v.(at := now)
      else View(
        AfterSet(v.kept, key, value, ttl, now, victims),
        v.ideal[key := Fresh(value, now + ttl)],
        v.evicted + (set k | k in victims) - {key},
        now)
  }

  function AfterAll(b: Budget, ttl: Duration, run: seq<Op>): View {
    if run == [] then EMPTY else After(b, ttl, AfterAll(b, ttl, run[..|run| - 1]), run[|run| - 1])
  }

  ghost predicate LegalRun(b: Budget, ttl: Duration, run: seq<Op>) {
    run == [] ||
    (&& LegalRun(b, ttl, run[..|run| - 1])
     && Legal(b, ttl, AfterAll(b, ttl, run[..|run| - 1]), run[|run| - 1]))
  }

  ghost predicate Agrees(v: View) {
    forall k :: k in v.kept ==> k in v.ideal && v.ideal[k] == v.kept[k]
  }

  ghost predicate MissesOnlyTheEarliest(v: View) {
    forall k :: k in v.ideal && Live(v.ideal[k], v.at) && k !in v.kept ==>
      k in v.evicted && forall j :: j in v.kept ==> v.ideal[k].expiresAt <= v.kept[j].expiresAt
  }

  /** The cache is a most recent part of the ideal map. */
  ghost predicate MostRecentPart(ttl: Duration, v: View) {
    && Agrees(v) && MissesOnlyTheEarliest(v)
    && (forall k :: k in v.ideal ==> v.ideal[k].expiresAt <= v.at + ttl)
    && (forall k :: k in v.evicted ==> k !in v.kept)
  }

  lemma {:induction false} VictimsExpireFirst(b: Budget, m: Entries, victims: seq<string>, size: nat, v: string)
    requires Evicts(b, m, victims, size) && v in victims
    ensures v in m && forall k :: k in Without(m, victims) ==> m[v].expiresAt <= m[k].expiresAt
  {
    var before, last := victims[..|victims| - 1], victims[|victims| - 1];
    assert forall k :: k in Without(m, victims) ==> k in Without(m, before);
    if v != last {
      VictimsExpireFirst(b, m, before, size, v);
    }
  }

  // A store misses no live key that expires after something it keeps.
  lemma StoreMissesOnlyTheEarliest(b: Budget, ttl: Duration, v: View, op: Op, k: string, j: string)
    requires MostRecentPart(ttl, v) && Legal(b, ttl, v, op) && op.Set? && Accepts(b, op.value, ttl)
    requires var w := After(b, ttl, v, op); k in w.ideal && Live(w.ideal[k], w.at) && k !in w.kept && j in w.kept
    ensures var w := After(b, ttl, v, op); w.ideal[k].expiresAt <= w.kept[j].expiresAt
  {
    var rivals := Rivals(v.kept, op.key, op.now);
    assert k != op.key && v.ideal[k].expiresAt <= op.now + ttl;
    if j != op.key {
      assert j in Without(rivals, op.victims);
      if k in v.kept {
        assert k in rivals;
        VictimsExpireFirst(b, rivals, op.victims, |op.value.body|, k);
      }
    }
  }

  lemma StoreKeepsAgreement(b: Budget, ttl: Duration, v: View, op: Op, k: string)
    requires MostRecentPart(ttl, v) && op.now >= v.at && op.Set? && Accepts(b, op.value, ttl)
    ensures var w := After(b, ttl, v, op);
      && (k in w.kept ==> k in w.ideal && w.ideal[k] == w.kept[k] && k !in w.evicted)
      && (k in w.ideal && Live(w.ideal[k], w.at) && k !in w.kept ==> k in w.evicted)
      && (k in w.ideal ==> w.ideal[k].expiresAt <= w.at + ttl)
  {
    AfterSetHas(v.kept, op.key, op.value, ttl, op.now, op.victims, k);
    if k != op.key && k in v.kept {
      assert v.ideal[k] == v.kept[k];
    }
  }

  lemma StoreKeepsTheMostRecent(b: Budget, ttl: Duration, v: View, op: Op)
    requires MostRecentPart(ttl, v) && Legal(b, ttl, v, op) && op.Set? && Accepts(b, op.value, ttl)
    ensures MostRecentPart(ttl, After(b, ttl, v, op))
  {
    var w := After(b, ttl, v, op);
    forall k ensures
      && (k in w.kept ==> k in w.ideal && w.ideal[k] == w.kept[k] && k !in w.evicted)
      && (k in w.ideal && Live(w.ideal[k], w.at) && k !in w.kept ==> k in w.evicted)
      && (k in w.ideal ==> w.ideal[k].expiresAt <= w.at + ttl)
    {
      StoreKeepsAgreement(b, ttl, v, op, k);
    }
    forall k, j | k in w.ideal && Live(w.ideal[k], w.at) && k !in w.kept && j in w.kept
      ensures w.ideal[k].expiresAt <= w.kept[j].expiresAt
    {
      StoreMissesOnlyTheEarliest(b, ttl, v, op, k, j);
    }
  }

  lemma {:induction false} RunsKeepTheMostRecent(b: Budget, ttl: Duration, run: seq<Op>)
    requires ttl >= 0 && LegalRun(b, ttl, run)
    ensures MostRecentPart(ttl, AfterAll(b, ttl, run))
  {
    if run != [] {
      var before, op := AfterAll(b, ttl, run[..|run| - 1]), run[|run| - 1];
      RunsKeepTheMostRecent(b, ttl, run[..|run| - 1]);
      if op.Set? && Accepts(b, op.value, ttl) {
        StoreKeepsTheMostRecent(b, ttl, before, op);
      }
    }
  }

  /** With one lifetime and a clock that does not run backwards, a hit is the latest accepted value,
      unexpired; and a live value is missed exactly when it was evicted after its last store, in which
      case nothing kept expires before it. */
  lemma LookupsAgreeWithTheIdealMap(b: Budget, ttl: Duration, run: seq<Op>, key: string, now: Time)
    requires ttl >= 0 && LegalRun(b, ttl, run) && now >= AfterAll(b, ttl, run).at
    ensures var v := AfterAll(b, ttl, run);
      && (Hit(v.kept, key, now).Some? ==> Hit(v.kept, key, now) == Hit(v.ideal, key, now))
      && (Hit(v.ideal, key, now).Some? ==>
            && (Hit(v.kept, key, now).None? <==> key in v.evicted)
            && (key in v.evicted ==> forall j :: j in v.kept ==> v.ideal[key].expiresAt <= v.kept[j].expiresAt))
  {
    RunsKeepTheMostRecent(b, ttl, run);
  }

  // Store i is the latest accepted one of its key.
  ghost predicate LatestAccepted(b: Budget, ttl: Duration, run: seq<Op>, key: string, i: nat) {
    && i < |run| && run[i].Set? && run[i].key == key && Accepts(b, run[i].value, ttl)
    && forall j :: i < j < |run| && run[j].Set? && run[j].key == key ==> !Accepts(b, run[j].value, ttl)
  }

  lemma {:induction false} IdealIsTheLatestAccepted(b: Budget, ttl: Duration, run: seq<Op>, key: string)
    returns (i: nat)
    requires key in AfterAll(b, ttl, run).ideal
    ensures LatestAccepted(b, ttl, run, key, i)
    ensures AfterAll(b, ttl, run).ideal[key] == Fresh(run[i].value, run[i].now + ttl)
  {
    var front, op := run[..|run| - 1], run[|run| - 1];
    if op.Set? && op.key == key && Accepts(b, op.value, ttl) {
      i := |run| - 1;
    } else {
      i := IdealIsTheLatestAccepted(b, ttl, front, key);
      assert front[i] == run[i];
      assert forall j :: i < j < |run| - 1 ==> run[j] == front[j];
    }
  }

  /** A hit is the latest value the cache accepted for the key, stored less than a lifetime ago: stores it
      rejected since then neither replace that value nor hide it. */
  lemma {:induction false} HitsAreTheLatestAccepted(b: Budget, ttl: Duration, run: seq<Op>, key: string, now: Time)
    requires ttl >= 0 && LegalRun(b, ttl, run) && now >= AfterAll(b, ttl, run).at
    requires Hit(AfterAll(b, ttl, run).kept, key, now).Some?
    ensures exists i: nat ::
      && LatestAccepted(b, ttl, run, key, i)
      && Hit(AfterAll(b, ttl, run).kept, key, now) == Some(run[i].value) && now < run[i].now + ttl
  {
    LookupsAgreeWithTheIdealMap(b, ttl, run, key, now);
    var i := IdealIsTheLatestAccepted(b, ttl, run, key);
  }

  lemma {:induction false} LatestIsIdeal(b: Budget, ttl: Duration, run: seq<Op>, key: string, i: nat)
    requires LatestAccepted(b, ttl, run, key, i)
    ensures key in AfterAll(b, ttl, run).ideal
    ensures AfterAll(b, ttl, run).ideal[key] == Fresh(run[i].value, run[i].now + ttl)
  {
    var front := run[..|run| - 1];
    if i < |front| {
      assert front[i] == run[i];
      LatestIsIdeal(b, ttl, front, key, i);
    }
  }

  /** And the latest value accepted is a hit for all its lifetime, unless it was evicted since. */
  lemma LatestAcceptedIsAHit(b: Budget, ttl: Duration, run: seq<Op>, key: string, now: Time, i: nat)
    requires ttl >= 0 && LegalRun(b, ttl, run) && now >= AfterAll(b, ttl, run).at
    requires LatestAccepted(b, ttl, run, key, i) && now < run[i].now + ttl
    ensures Hit(AfterAll(b, ttl, run).kept, key, now) ==
      if key in AfterAll(b, ttl, run).evicted then None else Some(run[i].value)
  {
    LatestIsIdeal(b, ttl, run, key, i);
    LookupsAgreeWithTheIdealMap(b, ttl, run, key, now);
  }
}
