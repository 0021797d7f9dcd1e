/** What a credential pool guarantees over whole runs, whoever else is using it. */
module PoolTheorems {
  import opened Prelude
  import opened CredentialPool

  // One call on the pool; each is atomic under the pool's mutex.
  datatype Call = Next(now: Time) | Cooldown(idx: int, until: Time) | Disable(idx: int)

  ghost function After(p: State, c: Call): State {
    match c
    case Next(_) => AfterDraw(p)
    case Cooldown(idx, until) => Cooled(p, idx, until)
    case Disable(idx) => Barred(p, idx)
  }

  ghost function AfterAll(p: State, run: seq<Call>): State
    decreases |run|
  {
    if run == [] then p else AfterAll(After(p, run[0]), run[1..])
  }

  // What the draws of a run return, in order.
  ghost function Draws(p: State, run: seq<Call>): seq<Option<nat>>
    decreases |run|
  {
    if run == [] then []
    else (if run[0].Next? then [Drawn(p, run[0].now)] else []) + Draws(After(p, run[0]), run[1..])
  }

  // Every draw of the run finds key k usable.
  ghost predicate AlwaysUsable(p: State, run: seq<Call>, k: nat)
    decreases |run|
  {
    run == [] ||
    (&& (run[0].Next? ==> k < |p.keys| && Usable(p.keys[k], run[0].now))
     && AlwaysUsable(After(p, run[0]), run[1..], k))
  }

  // Every draw of the run finds exactly the keys u usable.
  ghost predicate Steady(p: State, run: seq<Call>, u: seq<bool>)
    decreases |run|
  {
    run == [] ||
    (&& (run[0].Next? ==> Usability(p.keys, run[0].now) == u)
     && Steady(After(p, run[0]), run[1..], u))
  }

  // ---- cooldown and disable are monotone ----

  // q can follow p: same keys, nothing re-enabled, no cooldown shortened.
  ghost predicate Later(p: State, q: State) {
    && |q.keys| == |p.keys|
    && forall i :: 0 <= i < |p.keys| ==>
         && q.keys[i].value == p.keys[i].value
         && (p.keys[i].disabled ==> q.keys[i].disabled)
         && p.keys[i].until <= q.keys[i].until
  }

  lemma {:induction false} RunsOnlyRestrict(p: State, run: seq<Call>)
    ensures Later(p, AfterAll(p, run))
    decreases |run|
  {
    if run != [] {
      RunsOnlyRestrict(After(p, run[0]), run[1..]);
    }
  }

  /** Once disabled a key is never drawn again; cooled until t it is not drawn before t: after any
      calls by anyone in between. */
  lemma NeverDrawnWhileBarred(p: State, idx: nat, until: Time, run: seq<Call>, now: Time)
    requires idx < |p.keys|
    ensures Drawn(AfterAll(Barred(p, idx), run), now) != Some(idx)
    ensures now < until ==> Drawn(AfterAll(Cooled(p, idx, until), run), now) != Some(idx)
  {
    RunsOnlyRestrict(Barred(p, idx), run);
    RunsOnlyRestrict(Cooled(p, idx, until), run);
  }

  lemma {:induction false} NoneCounted(keys: seq<Key>, now: Time)
    ensures CountUsable(keys, now) == 0 <==> forall i :: 0 <= i < |keys| ==> !Usable(keys[i], now)
  {
    if keys != [] {
      NoneCounted(keys[..|keys| - 1], now);
    }
  }

  /** A draw fails exactly when nothing is available, wherever the cursor is. */
  lemma DrawFailsWhenNoneAvailable(p: State, now: Time)
    ensures Drawn(p, now).None? <==> CountUsable(p.keys, now) == 0
  {
    NoneCounted(p.keys, now);
    if k :| 0 <= k < |p.keys| && Usable(p.keys[k], now) {
      NearestIsNearest(Usability(p.keys, now), Residue(p.cursor, |p.keys|), 0, k);
    }
  }

  // ---- bounded waiting ----

  lemma {:induction false} OwnTurn(p: State, run: seq<Call>, k: nat, j: nat)
    requires k < |p.keys| && AlwaysUsable(p, run, k)
    requires j < |Draws(p, run)| && Residue(p.cursor + j, |p.keys|) == k
    ensures Draws(p, run)[j] == Some(k)
    decreases |run|
  {
    var q := After(p, run[0]);
    if !run[0].Next? {
      OwnTurn(q, run[1..], k, j);
    } else if j > 0 {
      assert Draws(p, run)[j] == Draws(q, run[1..])[j - 1];
      OwnTurn(q, run[1..], k, j - 1);
    }
  }

  // Moving the cursor j < n places moves its residue j places round the ring.
  lemma {:induction false} ResidueMoves(c: nat, j: nat, n: nat)
    requires j <= n && 0 < n
    ensures Residue(c + j, n) == Wrap(Residue(c, n) + j, n)
  {
    if j > 0 {
      ResidueMoves(c, j - 1, n);
    }
  }

  /** Among any n draws in a row from n keys, a key usable at each of them is returned by one. */
  lemma BoundedWaiting(p: State, run: seq<Call>, k: nat)
    requires k < |p.keys| <= |Draws(p, run)|
    requires AlwaysUsable(p, run, k)
    ensures Some(k) in Draws(p, run)[..|p.keys|]
  {
    var j := Ahead(Residue(p.cursor, |p.keys|), k, |p.keys|);
    ResidueMoves(p.cursor, j, |p.keys|);
    OwnTurn(p, run, k, j);
    assert Draws(p, run)[..|p.keys|][j] == Some(k);
  }

  // ---- exact shares ----

  /** Steps back from k to the previous usable place (the whole ring when k is the only one). */
  ghost function Gap(u: seq<bool>, k: nat, g: nat): (r: nat)
    requires k < |u| && u[k] && 1 <= g <= |u|
    decreases |u| - g
    ensures g <= r <= |u| && u[Back(k, r, |u|)]
    ensures forall b: nat :: g <= b < r ==> !u[Back(k, b, |u|)]
  {
    if u[Back(k, g, |u|)] then g else Gap(u, k, g + 1)
  }

  function Back(k: nat, b: nat, n: nat): (r: nat)
    requires k < n && b <= n
    ensures r < n
  {
    if b <= k then k - b else k + n - b
  }

  // The draw starting at s selects k exactly when s lies after the previous usable place.
  lemma SelectedWithinGap(u: seq<bool>, s: nat, k: nat)
    requires s < |u| && k < |u| && u[k]
    ensures Nearest(u, s, 0) == Some(k) <==> Ahead(s, k, |u|) < Gap(u, k, 1)
  {
    var g, d := Gap(u, k, 1), Ahead(s, k, |u|);
    NearestIsNearest(u, s, 0, k);
    var r := Nearest(u, s, 0).value;
    if d < g {
      // a usable place nearer than k would be less than g steps back from k
      assert r != k ==> Back(k, d - Ahead(s, r, |u|), |u|) == r;
    } else {
      NearestIsNearest(u, s, 0, Back(k, g, |u|));
    }
  }

  // How many of `calls` consecutive draws from cursor c return k.
  ghost function Hits(u: seq<bool>, c: nat, calls: nat, k: nat): nat {
    if calls == 0 then 0
    else Hits(u, c, calls - 1, k) + if Pick(u, c + calls - 1) == Some(k) then 1 else 0
  }

  lemma {:induction false} HitsSplit(u: seq<bool>, c: nat, a: nat, b: nat, k: nat)
    ensures Hits(u, c, a + b, k) == Hits(u, c, a, k) + Hits(u, c + a, b, k)
  {
    if b > 0 {
      HitsSplit(u, c, a, b - 1, k);
    }
  }

  lemma OneHit(u: seq<bool>, c: nat, k: nat)
    ensures Hits(u, c, 1, k) == if Pick(u, c) == Some(k) then 1 else 0
  {
    assert Hits(u, c, 0, k) == 0;
  }

  // A lap's hits do not depend on where it starts.
  lemma {:induction false} AnyLap(u: seq<bool>, c: nat, k: nat)
    requires u != []
    ensures Hits(u, c, |u|, k) == Hits(u, 0, |u|, k)
  {
    if c > 0 {
      AnyLap(u, c - 1, k);
      HitsSplit(u, c - 1, 1, |u|, k);
      HitsSplit(u, c - 1, |u|, 1, k);
      OneHit(u, c - 1, k);
      OneHit(u, c - 1 + |u|, k);
      ResidueMoves(c - 1, |u|, |u|);
    }
  }

  // How many of the starts below j lie in the gap before k: a run ending at k, and a run ending at
  // the top of the ring when the gap wraps.
  ghost function Window(j: nat, k: nat, g: nat, n: nat): int {
    Max(0, Min(j, k + 1) - Max(0, k + 1 - g)) + Max(0, j - Max(k + 1, k + n + 1 - g))
  }

  // The hits among the first j starts of the lap that begins at 0.
  lemma {:induction false} HitsFromZero(u: seq<bool>, j: nat, k: nat)
    requires j <= |u| && k < |u| && u[k]
    ensures Hits(u, 0, j, k) == Window(j, k, Gap(u, k, 1), |u|)
  {
    if j > 0 {
      HitsFromZero(u, j - 1, k);
      SelectedWithinGap(u, j - 1, k);
      ResidueMoves(0, j - 1, |u|);
    }
  }

  lemma {:induction false} LapsAddUp(u: seq<bool>, c: nat, m: nat, k: nat)
    requires k < |u| && u[k]
    ensures Hits(u, c, m * |u|, k) == m * Gap(u, k, 1)
  {
    if m > 0 {
      var n, g := |u|, Gap(u, k, 1);
      LapsAddUp(u, c, m - 1, k);
      OneMore(m, n);
      OneMore(m, g);
      HitsSplit(u, c, (m - 1) * n, n, k);
      AnyLap(u, c + (m - 1) * n, k);
      HitsFromZero(u, n, k);
    }
  }

  lemma OneMore(m: nat, n: nat)
    requires m > 0
    ensures m * n == (m - 1) * n + n && (m - 1) * n >= 0
  {
  }

  ghost function Count(results: seq<Option<nat>>, k: nat): nat {
    if results == [] then 0
    else Count(results[..|results| - 1], k) + if results[|results| - 1] == Some(k) then 1 else 0
  }

  lemma {:induction false} SteadyDraws(p: State, run: seq<Call>, u: seq<bool>, j: nat)
    requires u != [] && |p.keys| == |u| && Steady(p, run, u) && j < |Draws(p, run)|
    ensures Draws(p, run)[j] == Pick(u, p.cursor + j)
    decreases |run|
  {
    var q := After(p, run[0]);
    if !run[0].Next? {
      SteadyDraws(q, run[1..], u, j);
    } else if j > 0 {
      assert Draws(p, run)[j] == Draws(q, run[1..])[j - 1];
      SteadyDraws(q, run[1..], u, j - 1);
    }
  }

  lemma {:induction false} CountIsHits(results: seq<Option<nat>>, u: seq<bool>, c: nat, k: nat)
    requires forall j :: 0 <= j < |results| ==> results[j] == Pick(u, c + j)
    ensures Count(results, k) == Hits(u, c, |results|, k)
  {
    if results != [] {
      CountIsHits(results[..|results| - 1], u, c, k);
    }
  }

  /** Over m laps of draws that all find the same keys usable, each usable key is returned m times
      its distance from the previous usable one, and no other key is returned at all. */
  lemma ExactShare(p: State, run: seq<Call>, u: seq<bool>, m: nat, k: nat)
    requires |p.keys| == |u| && k < |u| && Steady(p, run, u)
    requires |Draws(p, run)| == m * |u|
    ensures Count(Draws(p, run), k) == if u[k] then m * Gap(u, k, 1) else 0
  {
    forall j | 0 <= j < |Draws(p, run)| ensures Draws(p, run)[j] == Pick(u, p.cursor + j) {
      SteadyDraws(p, run, u, j);
    }
    CountIsHits(Draws(p, run), u, p.cursor, k);
    if u[k] {
      LapsAddUp(u, p.cursor, m, k);
    } else {
      NoHits(u, p.cursor, m * |u|, k);
    }
  }

  lemma {:induction false} NoHits(u: seq<bool>, c: nat, calls: nat, k: nat)
    requires k < |u| && !u[k]
    ensures Hits(u, c, calls, k) == 0
  {
    if calls > 0 {
      NoHits(u, c, calls - 1, k);
    }
  }

  /** With every key usable the shares are equal: once per lap each. */
  lemma EqualShares(u: seq<bool>, k: nat)
    requires k < |u| && forall i :: 0 <= i < |u| ==> u[i]
    ensures Gap(u, k, 1) == 1
  {
    assert u[Back(k, 1, |u|)];
  }
}
