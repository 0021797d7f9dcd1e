/** internal/credentials/pool.go: one provider's API keys behind a round-robin cursor. */
module CredentialPool {
  import opened Prelude

  datatype Key = Key(value: string, disabled: bool, until: Time)
  datatype State = State(keys: seq<Key>, cursor: nat)

  predicate Usable(k: Key, now: Time) {
    !k.disabled && now >= k.until
  }

  // Which keys a draw at time `now` may return.
  function Usability(keys: seq<Key>, now: Time): (u: seq<bool>)
    ensures |u| == |keys| && forall i :: 0 <= i < |keys| ==> u[i] == Usable(keys[i], now)
  {
    seq(|keys|, i requires 0 <= i < |keys| => Usable(keys[i], now))
  }

  // Steps forward from place s to place k on a ring of n places.
  function Ahead(s: nat, k: nat, n: nat): (d: nat)
    requires s < n && k < n
    ensures d < n && Wrap(s + d, n) == k
  {
    if s <= k then k - s else k + n - s
  }

  /** The place a draw starting at s selects: the nearest usable one at or after s, round the ring. */
  ghost function Nearest(u: seq<bool>, s: nat, i: nat): (r: Option<nat>)
    requires s < |u| && i <= |u|
    decreases |u| - i
    ensures r.Some? ==> r.value < |u| && u[r.value]
  {
    if i == |u| then None
    else if u[Wrap(s + i, |u|)] then Some(Wrap(s + i, |u|))
    else Nearest(u, s, i + 1)
  }

  // It is the nearest: no usable place lies between; and none exists at all when there is no result.
  lemma {:induction false} NearestIsNearest(u: seq<bool>, s: nat, i: nat, j: nat)
    requires s < |u| && i <= |u| && j < |u| && u[j] && i <= Ahead(s, j, |u|)
    ensures Nearest(u, s, i).Some? && i <= Ahead(s, Nearest(u, s, i).value, |u|) <= Ahead(s, j, |u|)
    decreases |u| - i
  {
    if !u[Wrap(s + i, |u|)] {
      NearestIsNearest(u, s, i + 1, j);
    }
  }

  ghost function Pick(u: seq<bool>, cursor: nat): Option<nat> {
    if u == [] then None else Nearest(u, Residue(cursor, |u|), 0)
  }

  // A draw: an empty pool leaves the cursor alone, any other draw moves it on, even one that fails.
  ghost function Drawn(p: State, now: Time): Option<nat> {
    Pick(Usability(p.keys, now), p.cursor)
  }

  function AfterDraw(p: State): State {
    if p.keys == [] then p else p.(cursor := p.cursor + 1)
  }

  function Cooled(p: State, idx: int, until: Time): State {
    if 0 <= idx < |p.keys| && until > p.keys[idx].until
    then p.(keys := p.keys[idx := p.keys[idx].(until := until)])
    else p
  }

  function Barred(p: State, idx: int): State {
    if 0 <= idx < |p.keys| then p.(keys := p.keys[idx := p.keys[idx].(disabled := true)]) else p
  }

  function CountUsable(keys: seq<Key>, now: Time): nat {
    if keys == [] then 0
    else CountUsable(keys[..|keys| - 1], now) + if Usable(keys[|keys| - 1], now) then 1 else 0
  }

  // The pool a list of configured keys opens with: blank entries are dropped.
  function Opening(values: seq<string>): seq<Key> {
    if values == [] then []
    else
      var rest := Opening(values[..|values| - 1]);
      var last := values[|values| - 1];
      if last != "" then rest + [Key(last, false, ZERO_TIME)] else rest
  }

  /** A pool opens with the keys that are not blank, as often and in the order configured, all usable. */
  ghost predicate OpensWith(values: seq<string>, keys: seq<Key>, idx: seq<nat>) {
    && Places(idx, set i: nat | i < |values| && values[i] != "" :: i) && |keys| == |idx|
    && forall j :: 0 <= j < |keys| ==>
         idx[j] < |values| && keys[j].value == values[idx[j]] && !keys[j].disabled && keys[j].until == ZERO_TIME
  }

  lemma {:induction false} OpeningOpens(values: seq<string>) returns (idx: seq<nat>)
    ensures OpensWith(values, Opening(values), idx)
  {
    if values == [] {
      idx := [];
    } else {
      var n := |values| - 1;
      var front := values[..n];
      idx := OpeningOpens(front);
      var before := set i: nat | i < n && front[i] != "" :: i;
      var all := set i: nat | i < |values| && values[i] != "" :: i;
      if values[n] != "" {
        assert all == before + {n};
        OneMorePlace(idx, before, n);
        idx := idx + [n];
      } else {
        assert all == before;
      }
    }
  }

  /** A cooldown holds a key back until its time and no longer, and leaves every other key as it was. */
  lemma CooledUntil(p: State, idx: nat, until: Time, now: Time)
    requires idx < |p.keys|
    ensures Usable(Cooled(p, idx, until).keys[idx], now) <==> Usable(p.keys[idx], now) && now >= until
    ensures Cooled(p, idx, until).cursor == p.cursor && |Cooled(p, idx, until).keys| == |p.keys|
    ensures forall k :: 0 <= k < |p.keys| && k != idx ==> Cooled(p, idx, until).keys[k] == p.keys[k]
  {
  }

  /** Disabling takes one key away for good, and leaves every other as it was. */
  lemma BarredForGood(p: State, idx: nat, now: Time)
    requires idx < |p.keys|
    ensures !Usable(Barred(p, idx).keys[idx], now)
    ensures Barred(p, idx).cursor == p.cursor && |Barred(p, idx).keys| == |p.keys|
    ensures forall k :: 0 <= k < |p.keys| && k != idx ==> Barred(p, idx).keys[k] == p.keys[k]
  {
  }

  ghost function UsablePlaces(keys: seq<Key>, now: Time): set<nat> {
    set k: nat | k < |keys| && !keys[k].disabled && now >= keys[k].until :: k
  }

  lemma {:induction false} CountsUsable(keys: seq<Key>, now: Time)
    ensures CountUsable(keys, now) == |UsablePlaces(keys, now)|
  {
    if keys != [] {
      var n := |keys| - 1;
      CountsUsable(keys[..n], now);
      if Usable(keys[n], now) {
        assert UsablePlaces(keys, now) == UsablePlaces(keys[..n], now) + {n};
      } else {
        assert UsablePlaces(keys, now) == UsablePlaces(keys[..n], now);
      }
    }
  }

  class Pool {
    var cursor: nat
    var keys: seq<Key>

    ghost function Model(): State
      reads this
    {
      State(keys, cursor)
    }

    constructor (values: seq<string>)
      ensures Model() == State(Opening(values), 0)
      ensures cursor == 0 && exists idx :: OpensWith(values, keys, idx)
    {
      ghost var idx := OpeningOpens(values);
      var states: seq<Key> := [];
      for i := 0 to |values|
        invariant states == Opening(values[..i])
      {
        assert values[..i + 1][..i] == values[..i];
        if values[i] != "" {
          states := states + [Key(values[i], false, ZERO_TIME)];
        }
      }
      assert values[..|values|] == values;
      cursor, keys := 0, states;
    }

    method Len() returns (n: nat)
      ensures n == |keys|
    {
      n := |keys|;
    }

    method Next(now: Time) returns (picked: Option<nat>, value: string)
      modifies this`cursor
      ensures Model() == AfterDraw(old(Model()))
      ensures picked == Drawn(old(Model()), now)
      ensures picked.Some? ==> picked.value < |keys| && value == keys[picked.value].value
    {
      if |keys| == 0 {
        return None, "";
      }
      ResidueIsRemainder(cursor, |keys|);
      var start := cursor % |keys|;
      cursor := cursor + 1;
      ghost var u := Usability(keys, now);
      for i := 0 to |keys|
        invariant cursor == old(cursor) + 1
        invariant Nearest(u, start, 0) == Nearest(u, start, i)
      {
        var idx := (start + i) % |keys|;
        WrapIsRemainder(start + i, |keys|);
        if Usable(keys[idx], now) {
          return Some(idx), keys[idx].value;
        }
      }
      return None, "";
    }

    method Cooldown(idx: int, until: Time)
      modifies this`keys
      ensures Model() == Cooled(old(Model()), idx, until)
    {
      if idx < 0 || idx >= |keys| {
        return;
      }
      if until > keys[idx].until {
        keys := keys[idx := keys[idx].(until := until)];
      }
    }

    method Disable(idx: int)
      modifies this`keys
      ensures Model() == Barred(old(Model()), idx)
    {
      if idx >= 0 && idx < |keys| {
        keys := keys[idx := keys[idx].(disabled := true)];
      }
    }

    method Available(now: Time) returns (n: nat)
      ensures n == CountUsable(keys, now) == |UsablePlaces(keys, now)|
    {
      CountsUsable(keys, now);
      n := 0;
      for i := 0 to |keys|
        invariant n == CountUsable(keys[..i], now)
      {
        assert keys[..i + 1][..i] == keys[..i];
        if Usable(keys[i], now) {
          n := n + 1;
        }
      }
      assert keys[..|keys|] == keys;
    }
  }
}
