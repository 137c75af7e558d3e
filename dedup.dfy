/** Order-preserving de-duplication by a key: the behaviour of `[...new Set(xs)]`
  * (key = the element itself) and of a `filter` guarded by a `seen` set. */
module Dedup {

  /** The keys of the elements of `xs`. */
  function KeysOf<T, K(==)>(xs: seq<T>, key: T -> K): set<K> {
    if xs == [] then {} else KeysOf(xs[..|xs| - 1], key) + {key(xs[|xs| - 1])}
  }

  lemma {:induction false} KeysOfMembers<T, K>(xs: seq<T>, key: T -> K, k: K)
    ensures k in KeysOf(xs, key) <==> exists i :: 0 <= i < |xs| && key(xs[i]) == k
  {
    if xs != [] {
      var init := xs[..|xs| - 1];
      KeysOfMembers(init, key, k);
      if k in KeysOf(init, key) {
        var i :| 0 <= i < |init| && key(init[i]) == k;
        assert key(xs[i]) == k;
      }
      if exists i :: 0 <= i < |xs| && key(xs[i]) == k {
        var i :| 0 <= i < |xs| && key(xs[i]) == k;
        if i < |init| {
          assert key(init[i]) == k;
        }
      }
    }
  }

  /** The elements whose key has not been seen before, in input order. */
  function DedupBy<T, K(==)>(xs: seq<T>, key: T -> K): (r: seq<T>)
    ensures |r| <= |xs|
  {
    if xs == [] then []
    else
      var d := DedupBy(xs[..|xs| - 1], key);
      if key(xs[|xs| - 1]) in KeysOf(d, key) then d else d + [xs[|xs| - 1]]
  }

  /** One more element: kept exactly when its key is new. */
  lemma DedupPush<T, K>(xs: seq<T>, key: T -> K, i: nat)
    requires i < |xs|
    ensures var d := DedupBy(xs[..i], key);
      DedupBy(xs[..i + 1], key) == if key(xs[i]) in KeysOf(d, key) then d else d + [xs[i]]
  {
    assert xs[..i + 1][..i] == xs[..i];
  }

  /** The keys of a longer sequence: one more key. */
  lemma KeysOfPush<T, K>(xs: seq<T>, key: T -> K, x: T)
    ensures KeysOf(xs + [x], key) == KeysOf(xs, key) + {key(x)}
  {
    assert (xs + [x])[..|xs|] == xs;
  }

  /** No two elements share a key. */
  predicate UniqueKeys<T, K(==)>(xs: seq<T>, key: T -> K) {
    forall i, j :: 0 <= i < j < |xs| ==> key(xs[i]) != key(xs[j])
  }

  /** Position `i` holds the first element of `xs` with its key. */
  predicate IsFirst<T, K(==)>(xs: seq<T>, key: T -> K, i: int) {
    0 <= i < |xs| && forall j :: 0 <= j < i ==> key(xs[j]) != key(xs[i])
  }

  /** The elements of `xs[..n]` standing at first-occurrence positions, in
    * the order of those positions: an order-preserving subsequence by
    * construction. */
  function FirstOccurrences<T, K(==)>(xs: seq<T>, key: T -> K, n: nat): seq<T>
    requires n <= |xs|
  {
    if n == 0 then []
    else FirstOccurrences(xs, key, n - 1) + (if IsFirst(xs, key, n - 1) then [xs[n - 1]] else [])
  }

  /** De-duplication keeps every key of its input. */
  lemma {:induction false} DedupKeys<T, K>(xs: seq<T>, key: T -> K)
    ensures KeysOf(DedupBy(xs, key), key) == KeysOf(xs, key)
  {
    if xs != [] {
      DedupKeys(xs[..|xs| - 1], key);
    }
  }

  /** The first element is always kept, in front. */
  lemma {:induction false} DedupHead<T, K>(xs: seq<T>, key: T -> K)
    requires xs != []
    ensures |DedupBy(xs, key)| >= 1 && DedupBy(xs, key)[0] == xs[0]
  {
    var init := xs[..|xs| - 1];
    if init != [] {
      DedupHead(init, key);
    }
  }

  /** The result never holds two elements with the same key. */
  lemma {:induction false} DedupUnique<T, K>(xs: seq<T>, key: T -> K)
    ensures UniqueKeys(DedupBy(xs, key), key)
  {
    if xs != [] {
      var init := xs[..|xs| - 1];
      var d := DedupBy(init, key);
      DedupUnique(init, key);
      var x := xs[|xs| - 1];
      if key(x) !in KeysOf(d, key) {
        forall i | 0 <= i < |d|
          ensures key(d[i]) != key(x)
        {
          KeysOfMembers(d, key, key(x));
        }
        var r := d + [x];
        forall i, j | 0 <= i < j < |r|
          ensures key(r[i]) != key(r[j])
        {
          if j == |d| {
            assert r[i] == d[i];
          } else {
            assert r[i] == d[i] && r[j] == d[j];
          }
        }
      }
    }
  }

  /** De-duplication keeps exactly the first occurrence of each key, in
    * input order. */
  lemma {:induction false} DedupFirstOccurrences<T, K>(xs: seq<T>, key: T -> K, n: nat)
    requires n <= |xs|
    ensures DedupBy(xs[..n], key) == FirstOccurrences(xs, key, n)
  {
    if n > 0 {
      DedupFirstOccurrences(xs, key, n - 1);
      var pre := xs[..n];
      assert pre[..n - 1] == xs[..n - 1];
      var d := DedupBy(xs[..n - 1], key);
      var k := key(xs[n - 1]);
      DedupKeys(xs[..n - 1], key);
      KeysOfMembers(xs[..n - 1], key, k);
      if k in KeysOf(d, key) {
        var j :| 0 <= j < n - 1 && key(xs[..n - 1][j]) == k;
        assert key(xs[j]) == k;
        assert !IsFirst(xs, key, n - 1);
      } else {
        forall j | 0 <= j < n - 1
          ensures key(xs[j]) != k
        {
          assert xs[j] == xs[..n - 1][j];
        }
        assert IsFirst(xs, key, n - 1);
      }
    }
  }

  /** A position is kept exactly when it is the first of its key. */
  lemma {:induction false} FirstOccurrencesMembers<T, K>(xs: seq<T>, key: T -> K, n: nat, y: T)
    requires n <= |xs|
    ensures y in FirstOccurrences(xs, key, n) <==> exists i :: 0 <= i < n && IsFirst(xs, key, i) && xs[i] == y
  {
    if n > 0 {
      FirstOccurrencesMembers(xs, key, n - 1, y);
    }
  }

  /** A sequence without repeated keys is left unchanged. */
  lemma {:induction false} DedupOfUnique<T, K>(xs: seq<T>, key: T -> K)
    requires UniqueKeys(xs, key)
    ensures DedupBy(xs, key) == xs
  {
    if xs != [] {
      var init := xs[..|xs| - 1];
      assert UniqueKeys(init, key) by {
        forall i, j | 0 <= i < j < |init|
          ensures key(init[i]) != key(init[j])
        {
          assert init[i] == xs[i] && init[j] == xs[j];
        }
      }
      DedupOfUnique(init, key);
      KeysOfMembers(init, key, key(xs[|xs| - 1]));
    }
  }

  /** De-duplicating twice is de-duplicating once. */
  lemma DedupIdempotent<T, K>(xs: seq<T>, key: T -> K)
    ensures DedupBy(DedupBy(xs, key), key) == DedupBy(xs, key)
  {
    DedupUnique(xs, key);
    DedupOfUnique(DedupBy(xs, key), key);
  }
}
