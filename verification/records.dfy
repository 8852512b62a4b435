/**
 * The array idioms the CRM code builds on, over a key projection `key` (the
 * field a callback compares with `===`): `findIndex`, `find`, `filter` on
 * equality and on inequality, and the read-modify-write upsert of
 * `saveLead` / `saveAutomation`.
 */
module Records {
  import opened Wrappers

  /** `xs.findIndex(x => key(x) === k)`, with `None` for the source's `-1`. */
  function FirstIndex<T, K(==)>(xs: seq<T>, key: T -> K, k: K): (r: Option<nat>)
    ensures r.Some? ==> r.value < |xs| && key(xs[r.value]) == k
    ensures r.Some? ==> forall j :: 0 <= j < r.value ==> key(xs[j]) != k
    ensures r.None? <==> forall j :: 0 <= j < |xs| ==> key(xs[j]) != k
  {
    if xs == [] then None
    else if key(xs[0]) == k then Some(0)
    else match FirstIndex(xs[1..], key, k)
      case Some(i) => Some(i + 1)
      case None => None
  }

  /** The linear scan behind `findIndex`. */
  method FindIndex<T, K(==)>(xs: seq<T>, key: T -> K, k: K) returns (r: Option<nat>)
    ensures r == FirstIndex(xs, key, k)
  {
    var i := 0;
    while i < |xs|
      invariant 0 <= i <= |xs|
      invariant forall j :: 0 <= j < i ==> key(xs[j]) != k
    {
      if key(xs[i]) == k {
        return Some(i);
      }
      i := i + 1;
    }
    return None;
  }

  /** `xs.find(x => key(x) === k)`: the first element with that key, if any. */
  function Find<T(!new), K(==)>(xs: seq<T>, key: T -> K, k: K): (r: Option<T>)
    ensures r.Some? ==> r.value in xs && key(r.value) == k
    ensures r.Some? ==> exists i :: 0 <= i < |xs| && xs[i] == r.value && key(xs[i]) == k &&
                                   forall j :: 0 <= j < i ==> key(xs[j]) != k
    ensures r.None? <==> forall x :: x in xs ==> key(x) != k
  {
    match FirstIndex(xs, key, k)
    case Some(i) => Some(xs[i])
    case None => None
  }

  /** `xs.filter(x => key(x) === k)`. */
  function WithKey<T(!new), K(==)>(xs: seq<T>, key: T -> K, k: K): (r: seq<T>)
    ensures |r| <= |xs|
  {
    if xs == [] then []
    else (if key(xs[0]) == k then [xs[0]] else []) + WithKey(xs[1..], key, k)
  }

  /** `xs.filter(x => key(x) !== k)`. */
  function WithoutKey<T(!new), K(==)>(xs: seq<T>, key: T -> K, k: K): (r: seq<T>)
    ensures |r| <= |xs|
  {
    if xs == [] then []
    else (if key(xs[0]) == k then [] else [xs[0]]) + WithoutKey(xs[1..], key, k)
  }

  /** `r` is `xs` with some elements dropped and the rest in their original order. */
  predicate IsSubsequence<T(==)>(r: seq<T>, xs: seq<T>)
    decreases |xs|
  {
    r == [] || (xs != [] &&
      ((r[0] == xs[0] && IsSubsequence(r[1..], xs[1..])) || IsSubsequence(r, xs[1..])))
  }

  /** Every pair of records, taken in list order, satisfies `ok`. */
  predicate Pairwise<T>(xs: seq<T>, ok: (T, T) -> bool)
  {
    forall i, j :: 0 <= i < j < |xs| ==> ok(xs[i], xs[j])
  }

  /** The read-modify-write upsert: replace the first record with the same key, else push. */
  function Upsert<T(!new), K(==)>(xs: seq<T>, x: T, key: T -> K): (r: seq<T>)
    ensures |xs| <= |r| <= |xs| + 1
    ensures x in r
    ensures forall y :: y in r ==> y == x || y in xs
  {
    match FirstIndex(xs, key, key(x))
    case Some(i) => assert xs[i := x][i] == x; xs[i := x]
    case None => xs + [x]
  }

  /** `filter(=== k)` keeps exactly the records with key `k`. */
  lemma {:induction false} WithKeyMembers<T(!new), K>(xs: seq<T>, key: T -> K, k: K)
    ensures forall x :: x in WithKey(xs, key, k) <==> x in xs && key(x) == k
  {
    if xs != [] {
      WithKeyMembers(xs[1..], key, k);
      assert xs == [xs[0]] + xs[1..];
    }
  }

  /** `filter(!== k)` keeps exactly the records whose key is not `k`. */
  lemma {:induction false} WithoutKeyMembers<T(!new), K>(xs: seq<T>, key: T -> K, k: K)
    ensures forall x :: x in WithoutKey(xs, key, k) <==> x in xs && key(x) != k
  {
    if xs != [] {
      WithoutKeyMembers(xs[1..], key, k);
      assert xs == [xs[0]] + xs[1..];
    }
  }

  /** Both filters keep the records they select in stored order. */
  lemma {:induction false} FiltersKeepOrder<T(!new), K>(xs: seq<T>, key: T -> K, k: K)
    ensures IsSubsequence(WithKey(xs, key, k), xs)
    ensures IsSubsequence(WithoutKey(xs, key, k), xs)
  {
    if xs != [] {
      FiltersKeepOrder(xs[1..], key, k);
      var rest := WithKey(xs[1..], key, k);
      if key(xs[0]) == k {
        assert WithKey(xs, key, k) == [xs[0]] + rest;
        assert ([xs[0]] + rest)[1..] == rest;
      } else {
        assert WithKey(xs, key, k) == rest;
      }
      var other := WithoutKey(xs[1..], key, k);
      if key(xs[0]) != k {
        assert WithoutKey(xs, key, k) == [xs[0]] + other;
        assert ([xs[0]] + other)[1..] == other;
      } else {
        assert WithoutKey(xs, key, k) == other;
      }
    }
  }

  /** Filtering on `=== k` and on `!== k` splits the records between them. */
  lemma {:induction false} FiltersPartition<T(!new), K>(xs: seq<T>, key: T -> K, k: K)
    ensures |WithKey(xs, key, k)| + |WithoutKey(xs, key, k)| == |xs|
  {
    if xs != [] {
      FiltersPartition(xs[1..], key, k);
    }
  }

  /** `filter(=== k)` distributes over concatenation: what it selects from an appended log. */
  lemma {:induction false} WithKeyAppend<T(!new), K>(a: seq<T>, b: seq<T>, key: T -> K, k: K)
    ensures WithKey(a + b, key, k) == WithKey(a, key, k) + WithKey(b, key, k)
  {
    if a == [] {
      assert a + b == b;
    } else {
      var head := if key(a[0]) == k then [a[0]] else [];
      assert (a + b)[0] == a[0];
      assert (a + b)[1..] == a[1..] + b;
      assert WithKey(a + b, key, k) == head + WithKey(a[1..] + b, key, k);
      WithKeyAppend(a[1..], b, key, k);
      assert WithKey(a, key, k) == head + WithKey(a[1..], key, k);
    }
  }

  /** Removing a key nobody has changes nothing. */
  lemma {:induction false} WithoutAbsentKey<T(!new), K>(xs: seq<T>, key: T -> K, k: K)
    requires forall x :: x in xs ==> key(x) != k
    ensures WithoutKey(xs, key, k) == xs
  {
    if xs != [] {
      assert xs[0] in xs;
      forall x | x in xs[1..] ensures key(x) != k {
        assert x in xs;
      }
      WithoutAbsentKey(xs[1..], key, k);
      assert [xs[0]] + xs[1..] == xs;
    }
  }

  /** Upsert of a known key: the first record with that key is replaced, nothing else moves. */
  lemma UpsertReplaces<T(!new), K>(xs: seq<T>, x: T, key: T -> K, i: nat)
    requires FirstIndex(xs, key, key(x)) == Some(i)
    ensures |Upsert(xs, x, key)| == |xs|
    ensures Upsert(xs, x, key)[i] == x
    ensures forall j :: 0 <= j < |xs| && j != i ==> Upsert(xs, x, key)[j] == xs[j]
    ensures forall j :: 0 <= j < i ==> key(xs[j]) != key(x)
  {
  }

  /** Upsert of an unknown key appends the record at the end. */
  lemma UpsertAppends<T(!new), K>(xs: seq<T>, x: T, key: T -> K)
    requires forall y :: y in xs ==> key(y) != key(x)
    ensures Upsert(xs, x, key) == xs + [x]
  {
    forall j | 0 <= j < |xs| ensures key(xs[j]) != key(x) {
      assert xs[j] in xs;
    }
  }

  /** After an upsert, looking the key up gives back exactly the record written. */
  lemma UpsertThenFind<T(!new), K>(xs: seq<T>, x: T, key: T -> K)
    ensures Find(Upsert(xs, x, key), key, key(x)) == Some(x)
  {
    var r := Upsert(xs, x, key);
    match FirstIndex(xs, key, key(x))
    case Some(i) =>
      assert FirstIndex(r, key, key(x)) == Some(i) by {
        UpsertReplaces(xs, x, key, i);
        FirstIndexUnique(r, key, key(x), i);
      }
    case None =>
      assert FirstIndex(r, key, key(x)) == Some(|xs|) by {
        assert r == xs + [x];
        FirstIndexUnique(r, key, key(x), |xs|);
      }
  }

  /** Upserting the same record twice is the same as upserting it once. */
  lemma UpsertIdempotent<T(!new), K>(xs: seq<T>, x: T, key: T -> K)
    ensures Upsert(Upsert(xs, x, key), x, key) == Upsert(xs, x, key)
  {
    var r := Upsert(xs, x, key);
    UpsertThenFind(xs, x, key);
    var i := FirstIndex(r, key, key(x)).value;
    assert r[i] == x;
    assert r[i := x] == r;
  }

  /** The contract of FirstIndex determines its result. */
  lemma FirstIndexUnique<T(!new), K>(xs: seq<T>, key: T -> K, k: K, i: nat)
    requires i < |xs| && key(xs[i]) == k
    requires forall j :: 0 <= j < i ==> key(xs[j]) != k
    ensures FirstIndex(xs, key, k) == Some(i)
  {
  }

  /** A subsequence holds only records of the original list. */
  lemma {:induction false} SubsequenceMembers<T(!new)>(r: seq<T>, xs: seq<T>)
    requires IsSubsequence(r, xs)
    ensures forall x :: x in r ==> x in xs
    decreases |xs|
  {
    if r != [] {
      if r[0] == xs[0] && IsSubsequence(r[1..], xs[1..]) {
        SubsequenceMembers(r[1..], xs[1..]);
        assert r == [r[0]] + r[1..];
        assert xs == [xs[0]] + xs[1..];
      } else {
        SubsequenceMembers(r, xs[1..]);
        assert xs == [xs[0]] + xs[1..];
      }
    }
  }

  /** Dropping records cannot break a property that held of every pair. */
  lemma {:induction false} SubsequencePairwise<T(!new)>(r: seq<T>, xs: seq<T>, ok: (T, T) -> bool)
    requires IsSubsequence(r, xs) && Pairwise(xs, ok)
    ensures Pairwise(r, ok)
    decreases |xs|
  {
    if r != [] {
      assert Pairwise(xs[1..], ok) by {
        forall i, j | 0 <= i < j < |xs[1..]| ensures ok(xs[1..][i], xs[1..][j]) {
          assert xs[1..][i] == xs[i + 1] && xs[1..][j] == xs[j + 1];
        }
      }
      if r[0] == xs[0] && IsSubsequence(r[1..], xs[1..]) {
        SubsequencePairwise(r[1..], xs[1..], ok);
        SubsequenceMembers(r[1..], xs[1..]);
        forall i, j | 0 <= i < j < |r| ensures ok(r[i], r[j]) {
          if i == 0 {
            assert r[j] == r[1..][j - 1];
            assert r[j] in xs[1..];
            var k :| 0 <= k < |xs[1..]| && xs[1..][k] == r[j];
            assert ok(xs[0], xs[k + 1]);
          } else {
            assert r[i] == r[1..][i - 1] && r[j] == r[1..][j - 1];
          }
        }
      } else {
        SubsequencePairwise(r, xs[1..], ok);
      }
    }
  }
}
