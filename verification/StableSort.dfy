/** Sorting by descending keys, keeping the order of equals: what the host language's `sort(reverse=True)` promises. */
module StableSort {

  type Key = (real, real)

  /** Lexicographic, largest first. */
  predicate Above(a: Key, b: Key) {
    a.0 > b.0 || (a.0 == b.0 && a.1 > b.1)
  }

  ghost predicate Sorted<T>(xs: seq<T>, key: T -> Key) {
    forall i, k :: 0 <= i < k < |xs| ==> !Above(key(xs[k]), key(xs[i]))
  }

  /** The elements of `xs` whose key is `k`, in order. */
  function WithKey<T>(xs: seq<T>, key: T -> Key, k: Key): (r: seq<T>)
    ensures forall i :: 0 <= i < |r| ==> key(r[i]) == k
  {
    if xs == [] then []
    else if key(xs[0]) == k then [xs[0]] + WithKey(xs[1..], key, k)
    else WithKey(xs[1..], key, k)
  }

  function Insert<T>(x: T, ys: seq<T>, key: T -> Key): seq<T> {
    if ys == [] || !Above(key(ys[0]), key(x)) then [x] + ys else [ys[0]] + Insert(x, ys[1..], key)
  }

  function Sort<T>(xs: seq<T>, key: T -> Key): seq<T> {
    if xs == [] then [] else Insert(xs[0], Sort(xs[1..], key), key)
  }

  lemma {:induction false} InsertPermutes<T>(x: T, ys: seq<T>, key: T -> Key)
    ensures multiset(Insert(x, ys, key)) == multiset{x} + multiset(ys)
    decreases |ys|
  {
    if ys != [] && Above(key(ys[0]), key(x)) {
      InsertPermutes(x, ys[1..], key);
      assert ys == [ys[0]] + ys[1..];
    }
  }

  lemma {:induction false} InsertSorts<T>(x: T, ys: seq<T>, key: T -> Key)
    requires Sorted(ys, key)
    ensures Sorted(Insert(x, ys, key), key)
    decreases |ys|
  {
    if ys != [] && Above(key(ys[0]), key(x)) {
      InsertSorts(x, ys[1..], key);
      InsertPermutes(x, ys[1..], key);
      var rest := Insert(x, ys[1..], key);
      forall i | 0 <= i < |rest| ensures !Above(key(rest[i]), key(ys[0])) {
        assert rest[i] in multiset(rest);
        assert rest[i] == x || rest[i] in ys[1..];
      }
    }
  }

  lemma {:induction false} InsertKeepsOrder<T>(x: T, ys: seq<T>, key: T -> Key, k: Key)
    ensures WithKey(Insert(x, ys, key), key, k) == WithKey([x] + ys, key, k)
    decreases |ys|
  {
    if ys != [] && Above(key(ys[0]), key(x)) {
      InsertKeepsOrder(x, ys[1..], key, k);
      assert ([ys[0]] + Insert(x, ys[1..], key))[1..] == Insert(x, ys[1..], key);
      assert ([x] + ys)[1..] == ys && ([x] + ys[1..])[1..] == ys[1..];
    }
  }

  /** The result is a permutation in descending order that keeps equals in place. */
  lemma {:induction false} SortIsStable<T>(xs: seq<T>, key: T -> Key)
    ensures Sorted(Sort(xs, key), key)
    ensures multiset(Sort(xs, key)) == multiset(xs)
    ensures forall k :: WithKey(Sort(xs, key), key, k) == WithKey(xs, key, k)
    decreases |xs|
  {
    if xs != [] {
      var rest := Sort(xs[1..], key);
      SortIsStable(xs[1..], key);
      InsertSorts(xs[0], rest, key);
      InsertPermutes(xs[0], rest, key);
      assert xs == [xs[0]] + xs[1..];
      forall k ensures WithKey(Sort(xs, key), key, k) == WithKey(xs, key, k) {
        InsertKeepsOrder(xs[0], rest, key, k);
        assert ([xs[0]] + rest)[1..] == rest;
      }
    }
  }

  lemma AboveComesFirst<T>(xs: seq<T>, key: T -> Key, i: nat, k: nat)
    requires i < |Sort(xs, key)| && k < |Sort(xs, key)|
    requires Above(key(Sort(xs, key)[i]), key(Sort(xs, key)[k]))
    ensures i < k
  {
    SortIsStable(xs, key);
  }

  lemma {:induction false} HeadHasTopKey<T>(xs: seq<T>, ys: seq<T>, key: T -> Key)
    requires Sorted(xs, key) && xs != [] && ys != []
    requires forall k :: WithKey(xs, key, k) == WithKey(ys, key, k)
    ensures !Above(key(ys[0]), key(xs[0]))
  {
    var k := key(ys[0]);
    assert WithKey(xs, key, k) == WithKey(ys, key, k) != [];
    KeyedIsMember(xs, key, k);
  }

  lemma SomeKeyMeansNonempty<T>(xs: seq<T>, ys: seq<T>, key: T -> Key)
    requires forall k :: WithKey(xs, key, k) == WithKey(ys, key, k)
    ensures ys != [] ==> xs != []
  {
    if ys != [] {
      assert WithKey(xs, key, key(ys[0])) == WithKey(ys, key, key(ys[0])) != [];
    }
  }

  lemma {:induction false} KeyedIsMember<T>(xs: seq<T>, key: T -> Key, k: Key)
    requires WithKey(xs, key, k) != []
    ensures exists i :: 0 <= i < |xs| && key(xs[i]) == k
    decreases |xs|
  {
    if key(xs[0]) != k {
      KeyedIsMember(xs[1..], key, k);
      var i :| 0 <= i < |xs[1..]| && key(xs[1..][i]) == k;
      assert key(xs[i + 1]) == k;
    }
  }

  /** A descending arrangement that keeps equals in place is unique: every stable sort gives this one. */
  lemma {:induction false} StableSortIsUnique<T>(xs: seq<T>, ys: seq<T>, key: T -> Key)
    requires Sorted(xs, key) && Sorted(ys, key)
    requires forall k :: WithKey(xs, key, k) == WithKey(ys, key, k)
    ensures xs == ys
    decreases |xs|
  {
    SomeKeyMeansNonempty(xs, ys, key);
    SomeKeyMeansNonempty(ys, xs, key);
    if xs != [] {
      HeadHasTopKey(xs, ys, key);
      HeadHasTopKey(ys, xs, key);
      var top := key(xs[0]);
      assert WithKey(xs, key, top) == WithKey(ys, key, top);
      assert xs[0] == WithKey(xs, key, top)[0] && ys[0] == WithKey(ys, key, top)[0];
      forall k ensures WithKey(xs[1..], key, k) == WithKey(ys[1..], key, k) {
        assert WithKey(xs, key, k) == WithKey(ys, key, k);
        if k == top {
          assert WithKey(xs, key, k)[1..] == WithKey(xs[1..], key, k);
          assert WithKey(ys, key, k)[1..] == WithKey(ys[1..], key, k);
        }
      }
      StableSortIsUnique(xs[1..], ys[1..], key);
    }
  }
}
