/** Vocabulary shared by every module: optional values, bytes, clock readings and sums over maps. */
module Prelude {
  datatype Option<+T> = None | Some(value: T)
  datatype Result<+T, +E> = Ok(value: T) | Err(error: E)

  newtype byte = x: int | 0 <= x < 256
  type Bytes = seq<byte>

  // A clock reading, in nanoseconds after the zero time of the source's clock.
  type Time = int
  type Duration = int

  const ZERO_TIME: Time := 0
  const SECOND: Duration := 1_000_000_000

  function Max(a: int, b: int): int { if a > b then a else b }

  function Min(a: int, b: int): int { if a < b then a else b }

  // x reduced into a ring of n places, for x less than two turns.
  function Wrap(x: nat, n: nat): (r: nat)
    requires 0 < n && x < n + n
    ensures r < n
  {
    if x < n then x else x - n
  }

  /** The remainder of x by n, counted up from zero; ResidueIsRemainder says it is x % n. */
  ghost function Residue(x: nat, n: nat): (r: nat)
    requires 0 < n
    ensures r < n
  {
    if x == 0 then 0 else Wrap(Residue(x - 1, n) + 1, n)
  }

  lemma RemainderIsUnique(x: int, q: int, r: int, n: int)
    requires 0 <= r < n && x == n * q + r
    ensures x / n == q && x % n == r
  {
    var p := x / n - q;
    assert n * (x / n) == n * q + n * p;
    assert p >= 1 ==> n * p >= n;
    assert p <= -1 ==> n * p <= -n;
  }

  lemma WrapIsRemainder(x: nat, n: nat)
    requires 0 < n && x < n + n
    ensures x % n == Wrap(x, n)
  {
    RemainderIsUnique(x, if x < n then 0 else 1, Wrap(x, n), n);
  }

  lemma {:induction false} ResidueIsRemainder(x: nat, n: nat)
    requires 0 < n
    ensures Residue(x, n) == x % n
  {
    if x == 0 {
      RemainderIsUnique(0, 0, 0, n);
    } else {
      ResidueIsRemainder(x - 1, n);
      var q, r := (x - 1) / n, (x - 1) % n;
      if r + 1 < n {
        RemainderIsUnique(x, q, r + 1, n);
      } else {
        assert n * (q + 1) == n * q + n;
        RemainderIsUnique(x, q + 1, 0, n);
      }
    }
  }

  // Some member of a set: whichever the source's map iteration happens to visit next.
  method Any<T(==)>(s: set<T>) returns (x: T)
    requires s != {}
    ensures x in s
  {
    x :| x in s;
  }

  // The sum of f over the values of m.
  ghost function Sum<K, V>(m: map<K, V>, f: V -> nat): nat
    decreases |m|
  {
    if m == map[] then 0
    else
      var k :| k in m;
      f(m[k]) + Sum(m - {k}, f)
  }

  lemma {:induction false} SumRemove<K, V>(m: map<K, V>, f: V -> nat, k: K)
    requires k in m
    ensures Sum(m, f) == f(m[k]) + Sum(m - {k}, f)
    decreases |m|
  {
    var c :| c in m && Sum(m, f) == f(m[c]) + Sum(m - {c}, f);
    if c != k {
      SumRemove(m - {c}, f, k);
      SumRemove(m - {k}, f, c);
      assert m - {c} - {k} == m - {k} - {c};
    }
  }

  lemma SumUpdate<K, V>(m: map<K, V>, f: V -> nat, k: K, v: V)
    ensures Sum(m[k := v], f) == Sum(m - {k}, f) + f(v)
    ensures k in m ==> Sum(m, f) == Sum(m - {k}, f) + f(m[k])
    ensures k !in m ==> Sum(m, f) == Sum(m - {k}, f)
  {
    SumRemove(m[k := v], f, k);
    assert m[k := v] - {k} == m - {k};
    if k in m {
      SumRemove(m, f, k);
    } else {
      assert m - {k} == m;
    }
  }

  lemma Associative<T>(a: seq<T>, b: seq<T>, c: seq<T>)
    ensures a + (b + c) == a + b + c
  {
  }

  lemma {:induction false} SubsetIsSmaller<T>(a: set<T>, b: set<T>)
    requires a <= b
    ensures |a| <= |b|
  {
    if x :| x in a {
      SubsetIsSmaller(a - {x}, b - {x});
    }
  }

  lemma OneFewer<K, V>(m: map<K, V>, k: K)
    requires k in m
    ensures |m - {k}| < |m|
  {
    assert m.Keys == (m - {k}).Keys + {k};
  }

  // The chosen places, each once and in order.
  ghost predicate Places(idx: seq<nat>, chosen: set<nat>) {
    && (forall j, k :: 0 <= j < k < |idx| ==> idx[j] < idx[k])
    && (forall i :: i in idx <==> i in chosen)
  }

  lemma OneMorePlace(idx: seq<nat>, chosen: set<nat>, n: nat)
    requires Places(idx, chosen) && forall i :: i in chosen ==> i < n
    ensures Places(idx + [n], chosen + {n})
  {
    var more := idx + [n];
    forall j, k | 0 <= j < k < |more| ensures more[j] < more[k] {
      assert idx[j] in idx;
    }
    assert forall i :: i in more <==> i in idx || i == n;
  }
}
