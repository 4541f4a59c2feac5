/** `slice::sort_by` as the program uses it: a stable sort of row indices by a
    key. `SortBy` is the specification, `SortInPlace` the sort on the vector, and
    `SortedUnique` says that no other sequence could have been returned. */
module StableSort {

  /** `lt` never holds both ways, is transitive, and decides any two keys. */
  ghost predicate StrictTotal<K(!new)>(lt: (K, K) -> bool) {
    && (forall a :: !lt(a, a))
    && (forall a, b, c :: lt(a, b) && lt(b, c) ==> lt(a, c))
    && (forall a, b :: a == b || lt(a, b) || lt(b, a))
  }

  ghost predicate Within(xs: seq<nat>, n: nat) {
    forall k | 0 <= k < |xs| :: xs[k] < n
  }

  predicate KeyLess<K>(keys: seq<K>, lt: (K, K) -> bool, i: nat, j: nat) {
    i < |keys| && j < |keys| && lt(keys[i], keys[j])
  }

  /** Display order: by key, rows with equal keys in their original order. */
  predicate Precedes<K(==)>(keys: seq<K>, lt: (K, K) -> bool, i: nat, j: nat) {
    i < |keys| && j < |keys| && (lt(keys[i], keys[j]) || (keys[i] == keys[j] && i < j))
  }

  ghost predicate Ordered<K>(keys: seq<K>, lt: (K, K) -> bool, xs: seq<nat>) {
    forall a, b | 0 <= a < b < |xs| :: Precedes(keys, lt, xs[a], xs[b])
  }

  /** Insertion from the right: `x` passes only elements that come strictly
      after it, so it lands behind its equals. */
  function Insert<K>(keys: seq<K>, lt: (K, K) -> bool, xs: seq<nat>, x: nat): (r: seq<nat>)
    ensures |r| == |xs| + 1
  {
    if xs == [] || !KeyLess(keys, lt, x, xs[|xs| - 1]) then xs + [x]
    else Insert(keys, lt, xs[..|xs| - 1], x) + [xs[|xs| - 1]]
  }

  function SortBy<K>(keys: seq<K>, lt: (K, K) -> bool, xs: seq<nat>): (r: seq<nat>)
    ensures |r| == |xs|
  {
    if xs == [] then [] else Insert(keys, lt, SortBy(keys, lt, xs[..|xs| - 1]), xs[|xs| - 1])
  }

  // ---- the sort on the vector ----

  /** One insertion: `a[..i]` is sorted, `a[i]` moves left to its place. */
  method InsertInPlace<K>(a: array<nat>, i: nat, keys: seq<K>, lt: (K, K) -> bool)
    requires i < a.Length
    modifies a
    ensures a[..i + 1] == Insert(keys, lt, old(a[..i]), old(a[i]))
    ensures a[i + 1..] == old(a[i + 1..])
  {
    var x := a[i];
    ghost var before := a[..i];
    var j := i;
    while j > 0 && KeyLess(keys, lt, x, a[j - 1])
      invariant 0 <= j <= i
      invariant a[..j] == before[..j]
      invariant a[i + 1..] == old(a[i + 1..])
      invariant Insert(keys, lt, before, x) == Insert(keys, lt, before[..j], x) + a[j + 1..i + 1]
    {
      assert before[..j][..j - 1] == before[..j - 1];
      ghost var tail := a[j + 1..i + 1];
      a[j] := a[j - 1];
      assert a[j..i + 1] == [before[j - 1]] + tail;
      j := j - 1;
    }
    a[j] := x;
    assert a[..i + 1] == before[..j] + [x] + a[j + 1..i + 1];
  }

  method SortInPlace<K>(a: array<nat>, keys: seq<K>, lt: (K, K) -> bool)
    modifies a
    ensures a[..] == SortBy(keys, lt, old(a[..]))
  {
    ghost var start := a[..];
    var i := 0;
    while i < a.Length
      invariant 0 <= i <= a.Length
      invariant a[..i] == SortBy(keys, lt, start[..i])
      invariant a[i..] == start[i..]
    {
      assert start[..i + 1][..i] == start[..i];
      assert a[i] == a[i..][0] == start[i];
      assert a[i + 1..] == a[i..][1..];
      InsertInPlace(a, i, keys, lt);
      i := i + 1;
    }
    assert a[..i] == a[..] && start[..i] == start;
  }

  // ---- what the sort returns ----

  lemma PrecedesTransitive<K(!new)>(keys: seq<K>, lt: (K, K) -> bool, i: nat, j: nat, k: nat)
    requires StrictTotal(lt)
    requires Precedes(keys, lt, i, j) && Precedes(keys, lt, j, k)
    ensures Precedes(keys, lt, i, k)
  {
  }

  lemma {:induction false} InsertOrdered<K(!new)>(keys: seq<K>, lt: (K, K) -> bool, xs: seq<nat>, x: nat)
    requires StrictTotal(lt) && Ordered(keys, lt, xs) && Within(xs, |keys|) && x < |keys|
    requires forall k | 0 <= k < |xs| :: xs[k] < x
    ensures Ordered(keys, lt, Insert(keys, lt, xs, x))
    ensures multiset(Insert(keys, lt, xs, x)) == multiset(xs) + multiset{x}
    decreases |xs|
  {
    if xs != [] {
      var init, last := xs[..|xs| - 1], xs[|xs| - 1];
      assert xs == init + [last];
      if KeyLess(keys, lt, x, last) {
        InsertOrdered(keys, lt, init, x);
        var r := Insert(keys, lt, init, x);
        assert Precedes(keys, lt, x, last);
        forall k | 0 <= k < |r|
          ensures Precedes(keys, lt, r[k], last)
        {
          assert r[k] in multiset(init) + multiset{x};
        }
      } else {
        assert Precedes(keys, lt, last, x);
        forall k | 0 <= k < |init|
          ensures Precedes(keys, lt, xs[k], x)
        {
          PrecedesTransitive(keys, lt, xs[k], last, x);
        }
      }
    }
  }

  /** Sorting an ascending list of row indices keeps exactly those indices and
      puts them in display order. */
  lemma {:induction false} SortByOrdered<K(!new)>(keys: seq<K>, lt: (K, K) -> bool, xs: seq<nat>)
    requires StrictTotal(lt) && Within(xs, |keys|)
    requires forall a, b | 0 <= a < b < |xs| :: xs[a] < xs[b]
    ensures Ordered(keys, lt, SortBy(keys, lt, xs))
    ensures multiset(SortBy(keys, lt, xs)) == multiset(xs)
    decreases |xs|
  {
    if xs != [] {
      var init := xs[..|xs| - 1];
      assert xs == init + [xs[|xs| - 1]];
      SortByOrdered(keys, lt, init);
      var r := SortBy(keys, lt, init);
      forall k | 0 <= k < |r|
        ensures r[k] < xs[|xs| - 1]
      {
        assert r[k] in multiset(init);
      }
      InsertOrdered(keys, lt, r, xs[|xs| - 1]);
    }
  }

  /** All row indices, ascending. */
  function UpTo(n: nat): (r: seq<nat>)
    ensures |r| == n && forall k | 0 <= k < n :: r[k] == k
  {
    seq(n, k requires 0 <= k < n => k)
  }

  /** Sorting all rows lists every row. */
  lemma SortAll<K(!new)>(keys: seq<K>, lt: (K, K) -> bool)
    requires StrictTotal(lt)
    ensures Ordered(keys, lt, SortBy(keys, lt, UpTo(|keys|)))
    ensures Within(SortBy(keys, lt, UpTo(|keys|)), |keys|)
    ensures forall i :: i in SortBy(keys, lt, UpTo(|keys|)) <==> 0 <= i < |keys|
  {
    var r, all := SortBy(keys, lt, UpTo(|keys|)), UpTo(|keys|);
    SortByOrdered(keys, lt, all);
    forall i
      ensures i in r <==> 0 <= i < |keys|
    {
      assert i in r <==> i in multiset(all);
      if 0 <= i < |keys| { assert all[i] == i; }
    }
    forall k | 0 <= k < |r| ensures r[k] < |keys| {
      assert r[k] in r;
    }
  }

  /** Two sequences in display order over the same rows are the same sequence. */
  lemma {:induction false} OrderedUnique<K(!new)>(keys: seq<K>, lt: (K, K) -> bool, xs: seq<nat>, ys: seq<nat>)
    requires StrictTotal(lt) && Ordered(keys, lt, xs) && Ordered(keys, lt, ys)
    requires forall i :: i in xs <==> i in ys
    ensures xs == ys
    decreases |xs|
  {
    if ys != [] {
      assert ys[0] in ys;
    }
    if xs != [] {
      assert xs[0] in ys;
      assert ys[0] in xs;
      assert xs[0] == ys[0];
      forall i
        ensures i in xs[1..] <==> i in ys[1..]
      {
        assert i in xs <==> i == xs[0] || i in xs[1..];
        assert i in ys <==> i == ys[0] || i in ys[1..];
        assert xs[0] !in xs[1..] && ys[0] !in ys[1..];
      }
      OrderedUnique(keys, lt, xs[1..], ys[1..]);
    }
  }
}
