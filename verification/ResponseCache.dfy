/** internal/responsecache/cache.go: a TTL cache under an entry budget and a byte budget. */
module ResponseCache {
  import opened Prelude

  type Header = map<string, seq<string>>
  datatype Response = Response(status: int, header: Header, body: Bytes)
  datatype Entry = Entry(value: Response, expiresAt: Time, size: int)
  type Entries = map<string, Entry>

  datatype Budget = Budget(maxEntries: int, maxBytes: int)

  function BodySize(e: Entry): nat { |e.value.body| }

  predicate Live(e: Entry, now: Time) { e.expiresAt > now }

  function Unexpired(m: Entries, now: Time): Entries {
    map k | k in m && Live(m[k], now) :: m[k]
  }

  function Fresh(value: Response, expiresAt: Time): Entry { Entry(value, expiresAt, |value.body|) }

  // ---- the effect of each operation on the entries ----

  function Hit(m: Entries, key: string, now: Time): Option<Response> {
    if key in m && Live(m[key], now) then Some(m[key].value) else None
  }

  // A lookup drops the entry it finds expired.
  function AfterGet(m: Entries, key: string, now: Time): Entries {
    if key in m && !Live(m[key], now) then m - {key} else m
  }

  predicate Accepts(b: Budget, value: Response, ttl: Duration) {
    ttl > 0 && b.maxEntries > 0 && b.maxBytes > 0 && |value.body| <= b.maxBytes
  }

  // No room for a body of `size` more bytes beside m.
  ghost predicate Over(b: Budget, m: Entries, size: nat) {
    |m| >= b.maxEntries || Sum(m, BodySize) + size > b.maxBytes
  }

  ghost predicate Earliest(m: Entries, victim: string) {
    victim in m && forall k :: k in m ==> m[victim].expiresAt <= m[k].expiresAt
  }

  function Without(m: Entries, victims: seq<string>): Entries { m - (set v | v in victims) }

  // Evicting the victims one by one: each is removed because there was no room, and is then an entry
  // that expires no later than any other.
  ghost predicate Evicts(b: Budget, m: Entries, victims: seq<string>, size: nat) {
    victims == [] ||
    var before := victims[..|victims| - 1];
    && Evicts(b, m, before, size)
    && Over(b, Without(m, before), size)
    && Earliest(Without(m, before), victims[|victims| - 1])
  }

  lemma WithoutOneMore(m: Entries, victims: seq<string>, victim: string)
    ensures Without(m, victims + [victim]) == Without(m, victims) - {victim}
  {
    assert (set v | v in victims + [victim]) == (set v | v in victims) + {victim};
  }

  lemma OneMoreVictim(b: Budget, m: Entries, victims: seq<string>, size: nat, victim: string)
    requires Evicts(b, m, victims, size)
    requires Over(b, Without(m, victims), size) && Earliest(Without(m, victims), victim)
    ensures Evicts(b, m, victims + [victim], size)
  {
    assert (victims + [victim])[..|victims|] == victims;
  }

  // There is no room for `size` more bytes beside what is left of m when the victims are gone.
  ghost predicate NoRoomWithout(b: Budget, m: Entries, gone: set<string>, size: nat) {
    var left := m - gone;
    |left| >= b.maxEntries || Sum(left, BodySize) + size > b.maxBytes
  }

  /** Each victim went for want of room, was still there, and expired no later than anything left. */
  lemma {:induction false} EachVictimWasNeeded(b: Budget, m: Entries, victims: seq<string>, size: nat, i: nat)
    requires Evicts(b, m, victims, size) && i < |victims|
    ensures var gone := set v | v in victims[..i];
      && NoRoomWithout(b, m, gone, size)
      && victims[i] in m && victims[i] !in gone
      && forall k :: k in m && k !in gone ==> m[victims[i]].expiresAt <= m[k].expiresAt
  {
    var front := victims[..|victims| - 1];
    if i < |front| {
      assert front[..i] == victims[..i];
      EachVictimWasNeeded(b, m, front, size, i);
    } else {
      assert victims[..i] == front;
      assert forall k :: k in Without(m, front) ==> Without(m, front)[k] == m[k];
      assert forall k :: k in m && k !in (set v | v in front) ==> k in Without(m, front);
    }
  }

  // What is left to compete for room when key is stored: the unexpired entries of other keys.
  function Rivals(m: Entries, key: string, now: Time): Entries { Unexpired(m, now) - {key} }

  ghost predicate MakesRoom(b: Budget, m: Entries, key: string, value: Response, now: Time, victims: seq<string>) {
    && Evicts(b, Rivals(m, key, now), victims, |value.body|)
    && !Over(b, Without(Rivals(m, key, now), victims), |value.body|)
  }

  function AfterSet(m: Entries, key: string, value: Response, ttl: Duration, now: Time, victims: seq<string>): Entries {
    Without(Rivals(m, key, now), victims)[key := Fresh(value, now + ttl)]
  }

  // A store keeps other entries as they are, or drops them.
  lemma AfterSetHas(m: Entries, key: string, value: Response, ttl: Duration, now: Time, victims: seq<string>, k: string)
    ensures k in AfterSet(m, key, value, ttl, now, victims) <==>
      k == key || (k in m && Live(m[k], now) && k !in victims)
    ensures k in AfterSet(m, key, value, ttl, now, victims) ==>
      AfterSet(m, key, value, ttl, now, victims)[k] == if k == key then Fresh(value, now + ttl) else m[k]
  {
  }

  // ---- the invariant of the stored entries ----

  ghost predicate WithinBudget(b: Budget, m: Entries) {
    && (forall k :: k in m ==> m[k].size == BodySize(m[k]))
    && |m| <= Max(b.maxEntries, 0)
    && Sum(m, BodySize) <= Max(b.maxBytes, 0)
  }

  class Memory {
    const budget: Budget
    var bytes: int
    var entries: Entries

    /** The byte counter is exactly the stored body bytes, and both budgets hold. */
    ghost predicate Valid()
      reads this
    {
      WithinBudget(budget, entries) && bytes == Sum(entries, BodySize)
    }

    constructor (budget: Budget)
      ensures this.budget == budget && Valid() && entries == map[]
    {
      this.budget := budget;
      bytes, entries := 0, map[];
    }

    // The clamp at zero never fires: see the second postcondition.
    method Delete(key: string)
      requires Valid() && key in entries
      modifies this`bytes, this`entries
      ensures Valid() && entries == old(entries) - {key}
      ensures bytes == old(bytes) - old(entries[key].size) >= 0
    {
      SumRemove(entries, BodySize, key);
      assert entries.Keys == (entries - {key}).Keys + {key};
      var item := entries[key];
      entries := entries - {key};
      bytes := if bytes - item.size < 0 then 0 else bytes - item.size;
    }

    method Get(key: string, now: Time) returns (r: Option<Response>)
      requires Valid()
      modifies this`bytes, this`entries
      ensures Valid() && entries == AfterGet(old(entries), key, now)
      ensures r == Hit(old(entries), key, now)
      ensures r.Some? <==> key in old(entries) && now < old(entries)[key].expiresAt
      ensures r.Some? ==> r.value == old(entries)[key].value
    {
      if key !in entries {
        return None;
      }
      var item := entries[key];
      if !(item.expiresAt > now) {
        Delete(key);
        return None;
      }
      return Some(item.value);
    }

    // The keys are visited in no particular order.
    method PruneExpired(now: Time)
      requires Valid()
      modifies this`bytes, this`entries
      ensures Valid() && entries == Unexpired(old(entries), now)
    {
      var left := entries.Keys;
      while left != {}
        invariant Valid() && left <= entries.Keys
        invariant forall k :: k in entries ==> k in old(entries) && entries[k] == old(entries)[k]
        invariant forall k :: k in old(entries) ==> (k in entries <==> k in left || Live(old(entries)[k], now))
        decreases |left|
      {
        var key :| key in left;
        left := left - {key};
        if !(entries[key].expiresAt > now) {
          Delete(key);
        }
      }
    }

    // Which of several equally early entries goes depends on the order of the visit.
    method EvictEarliest() returns (found: bool, ghost victim: string)
      requires Valid()
      modifies this`bytes, this`entries
      ensures Valid() && (found <==> old(entries) != map[])
      ensures found ==> Earliest(old(entries), victim) && entries == old(entries) - {victim}
      ensures !found ==> entries == old(entries)
    {
      var oldestKey, first := "", true;
      var left := entries.Keys;
      while left != {}
        invariant left <= entries.Keys && (first <==> left == entries.Keys)
        invariant !first ==> oldestKey in entries
        invariant !first ==>
          forall k :: k in entries.Keys - left ==> entries[oldestKey].expiresAt <= entries[k].expiresAt
        decreases |left|
      {
        var key :| key in left;
        left := left - {key};
        if first || entries[key].expiresAt < entries[oldestKey].expiresAt {
          oldestKey, first := key, false;
        }
      }
      if first {
        return false, "";
      }
      Delete(oldestKey);
      return true, oldestKey;
    }

    // Victims are never lacking: an empty cache has room for any body within the byte budget.
    method EvictFor(size: nat, ghost rivals: Entries) returns (ok: bool, ghost victims: seq<string>)
      requires Valid() && entries == rivals
      requires budget.maxEntries > 0 && size <= budget.maxBytes
      modifies this`bytes, this`entries
      ensures Valid() && ok && entries == Without(rivals, victims)
      ensures Evicts(budget, rivals, victims, size) && !Over(budget, entries, size)
    {
      victims := [];
      while |entries| >= budget.maxEntries || bytes + size > budget.maxBytes
        invariant Valid() && entries == Without(rivals, victims)
        invariant Evicts(budget, rivals, victims, size)
        decreases |entries|
      {
        ok, victims := EvictOne(size, rivals, victims);
        if !ok {
          return;
        }
      }
      return true, victims;
    }

    method EvictOne(size: nat, ghost rivals: Entries, ghost before: seq<string>)
      returns (found: bool, ghost victims: seq<string>)
      requires Valid() && entries == Without(rivals, before) && Evicts(budget, rivals, before, size)
      requires Over(budget, entries, size) && budget.maxEntries > 0 && size <= budget.maxBytes
      modifies this`bytes, this`entries
      ensures Valid() && found && entries == Without(rivals, victims) && Evicts(budget, rivals, victims, size)
      ensures |entries| < |old(entries)|
    {
      assert entries != map[];
      ghost var victim;
      found, victim := EvictEarliest();
      OneMoreVictim(budget, rivals, before, size, victim);
      WithoutOneMore(rivals, before, victim);
      victims := before + [victim];
      OneFewer(old(entries), victim);
    }

    /** A response is stored exactly when the lifetime and both budgets are positive and its body fits;
        otherwise nothing changes, not even an older value of the same key. */
    method Set(key: string, value: Response, ttl: Duration, now: Time) returns (ok: bool, ghost victims: seq<string>)
      requires Valid()
      modifies this`bytes, this`entries
      ensures Valid() && (ok <==> Accepts(budget, value, ttl))
      ensures ok <==> ttl > 0 && budget.maxEntries > 0 && budget.maxBytes > 0 && |value.body| <= budget.maxBytes
      ensures !ok ==> entries == old(entries)
      ensures ok ==> MakesRoom(budget, old(entries), key, value, now, victims)
      ensures ok ==> entries == AfterSet(old(entries), key, value, ttl, now, victims)
    {
      victims := [];
      if ttl <= 0 || budget.maxEntries <= 0 || budget.maxBytes <= 0 {
        return false, victims;
      }
      var size := |value.body|;
      if size > budget.maxBytes {
        return false, victims;
      }
      ghost var rivals := Rivals(entries, key, now);
      MakeWay(key, now);
      ok, victims := EvictFor(size, rivals);
      if !ok {
        return;
      }
      Insert(key, value, now + ttl);
    }

    // What is stored of the key goes, and so does whatever has expired.
    method MakeWay(key: string, now: Time)
      requires Valid()
      modifies this`bytes, this`entries
      ensures Valid() && entries == Rivals(old(entries), key, now)
    {
      PruneExpired(now);
      if key in entries {
        Delete(key);
      }
    }

    method Insert(key: string, value: Response, expiresAt: Time)
      requires Valid() && key !in entries && !Over(budget, entries, |value.body|)
      modifies this`bytes, this`entries
      ensures Valid() && entries == old(entries)[key := Fresh(value, expiresAt)]
    {
      var item := Fresh(value, expiresAt);
      SumUpdate(entries, BodySize, key, item);
      assert |entries[key := item]| <= |entries| + 1 by {
        assert entries[key := item].Keys == entries.Keys + {key};
      }
      entries := entries[key := Entry(value, expiresAt, |value.body|)];
      bytes := bytes + |value.body|;
    }

    method Len(now: Time) returns (n: int)
      requires Valid()
      modifies this`bytes, this`entries
      ensures Valid() && entries == Unexpired(old(entries), now) && n == |entries|
    {
      PruneExpired(now);
      n := |entries|;
    }

    method Bytes(now: Time) returns (n: int)
      requires Valid()
      modifies this`bytes, this`entries
      ensures Valid() && entries == Unexpired(old(entries), now) && n == Sum(entries, BodySize)
    {
      PruneExpired(now);
      n := bytes;
    }
  }
}
