/**
 * `Array.prototype.sort` with a comparator of the form `(a, b) => rank(a) - rank(b)`.
 * Since ECMAScript 2019 the sort is required to be stable, so its result is fully determined:
 * the elements ordered by rank, elements of equal rank in their input order. `SortByKey` is an
 * insertion sort with exactly that result; `StableSortUnique` shows that no other sequence has
 * both properties.
 */
module StableSort {

  /** Ranks never decrease along `s`. */
  ghost predicate SortedBy<T>(s: seq<T>, key: T -> int) {
    forall i, j :: 0 <= i < j < |s| ==> key(s[i]) <= key(s[j])
  }

  /** The elements of `s` whose rank is `k`, in their order in `s`. */
  function WithKey<T>(s: seq<T>, key: T -> int, k: int): seq<T> {
    if s == [] then []
    else WithKey(s[..|s| - 1], key, k) + (if key(s[|s| - 1]) == k then [s[|s| - 1]] else [])
  }

  /** Where `x` goes in `s`: after every element whose rank is not larger than its own. */
  function InsertionPoint<T>(s: seq<T>, x: T, key: T -> int): (i: nat)
    ensures i <= |s|
    ensures forall j :: 0 <= j < i ==> key(s[j]) <= key(x)
    ensures i < |s| ==> key(x) < key(s[i])
  {
    if s == [] || key(x) < key(s[0]) then 0 else 1 + InsertionPoint(s[1..], x, key)
  }

  function Insert<T>(s: seq<T>, x: T, key: T -> int): seq<T> {
    var i := InsertionPoint(s, x, key);
    s[..i] + [x] + s[i..]
  }

  /** The stable sort of `s` by `key`: insert each element, left to right, into the sorted prefix. */
  function SortByKey<T>(s: seq<T>, key: T -> int): (r: seq<T>)
    ensures |r| == |s|
  {
    if s == [] then [] else Insert(SortByKey(s[..|s| - 1], key), s[|s| - 1], key)
  }

  // ---------------------------------------------------------------- lemmas

  lemma {:induction false} WithKeyAppend<T>(a: seq<T>, b: seq<T>, key: T -> int, k: int)
    ensures WithKey(a + b, key, k) == WithKey(a, key, k) + WithKey(b, key, k)
    decreases |b|
  {
    if b != [] {
      var b' := b[..|b| - 1];
      assert (a + b)[..|a + b| - 1] == a + b';
      WithKeyAppend(a, b', key, k);
    } else {
      assert a + b == a;
    }
  }

  lemma {:induction false} WithKeyAllLarger<T>(s: seq<T>, key: T -> int, k: int)
    requires forall j :: 0 <= j < |s| ==> key(s[j]) > k
    ensures WithKey(s, key, k) == []
  {
    if s != [] {
      WithKeyAllLarger(s[..|s| - 1], key, k);
    }
  }

  lemma InsertSorted<T>(s: seq<T>, x: T, key: T -> int)
    requires SortedBy(s, key)
    ensures SortedBy(Insert(s, x, key), key)
  {
    var i := InsertionPoint(s, x, key);
    var r := Insert(s, x, key);
    assert forall j :: 0 <= j < |r| ==> r[j] == (if j < i then s[j] else if j == i then x else s[j - 1]);
  }

  lemma WithKeySnoc<T>(s: seq<T>, x: T, key: T -> int, k: int)
    ensures WithKey(s + [x], key, k) == WithKey(s, key, k) + (if key(x) == k then [x] else [])
  {
    assert (s + [x])[..|s + [x]| - 1] == s;
  }

  /** Inserting `x` adds `x` at the end of its own rank class and changes no other class. */
  lemma InsertWithKey<T>(s: seq<T>, x: T, key: T -> int, k: int)
    requires SortedBy(s, key)
    ensures WithKey(Insert(s, x, key), key, k) ==
            WithKey(s, key, k) + (if key(x) == k then [x] else [])
  {
    var i := InsertionPoint(s, x, key);
    InsertionTail(s, x, key);
    assert s == s[..i] + s[i..];
    SplitWithKey(s[..i], x, s[i..], key, k);
  }

  /** `x` put between `a` and a part `b` that ranks above it joins the end of its rank class. */
  lemma SplitWithKey<T>(a: seq<T>, x: T, b: seq<T>, key: T -> int, k: int)
    requires forall j :: 0 <= j < |b| ==> key(b[j]) > key(x)
    ensures WithKey(a + [x] + b, key, k) == WithKey(a + b, key, k) + (if key(x) == k then [x] else [])
  {
    WithKeyAppend(a, b, key, k);
    WithKeyAppend(a + [x], b, key, k);
    WithKeySnoc(a, x, key, k);
    var wa, wb := WithKey(a, key, k), WithKey(b, key, k);
    if key(x) == k {
      WithKeyAllLarger(b, key, k);
      assert WithKey(a + [x] + b, key, k) == wa + [x] + [];
    } else {
      assert WithKey(a + [x] + b, key, k) == wa + [] + wb;
    }
  }

  /** The elements after the insertion point all rank above `x`. */
  lemma InsertionTail<T>(s: seq<T>, x: T, key: T -> int)
    requires SortedBy(s, key)
    ensures var i := InsertionPoint(s, x, key);
      forall j :: 0 <= j < |s[i..]| ==> key(s[i..][j]) > key(x)
  {
    var i := InsertionPoint(s, x, key);
    forall j | 0 <= j < |s[i..]| ensures key(s[i..][j]) > key(x) {
      assert s[i..][j] == s[i + j];
      assert key(s[i]) <= key(s[i + j]);
    }
  }

  /** Inserting adds exactly the one element. */
  lemma InsertPermutes<T>(s: seq<T>, x: T, key: T -> int)
    ensures multiset(Insert(s, x, key)) == multiset(s) + multiset{x}
  {
    var i := InsertionPoint(s, x, key);
    assert s == s[..i] + s[i..];
    assert multiset(s) == multiset(s[..i]) + multiset(s[i..]);
    assert multiset(Insert(s, x, key)) == multiset(s[..i]) + multiset{x} + multiset(s[i..]);
  }

  /** The result is ordered by rank. */
  lemma {:induction false} SortByKeySorted<T>(s: seq<T>, key: T -> int)
    ensures SortedBy(SortByKey(s, key), key)
  {
    if s != [] {
      SortByKeySorted(s[..|s| - 1], key);
      InsertSorted(SortByKey(s[..|s| - 1], key), s[|s| - 1], key);
    }
  }

  /** Stability: within each rank the elements keep their input order. */
  lemma {:induction false} SortByKeyStable<T>(s: seq<T>, key: T -> int, k: int)
    ensures WithKey(SortByKey(s, key), key, k) == WithKey(s, key, k)
  {
    if s != [] {
      SortByKeyStable(s[..|s| - 1], key, k);
      SortByKeySorted(s[..|s| - 1], key);
      InsertWithKey(SortByKey(s[..|s| - 1], key), s[|s| - 1], key, k);
    }
  }

  /** The result is a permutation of the input. */
  lemma {:induction false} SortByKeyPermutes<T>(s: seq<T>, key: T -> int)
    ensures multiset(SortByKey(s, key)) == multiset(s)
  {
    if s != [] {
      var p := s[..|s| - 1];
      assert s == p + [s[|s| - 1]];
      SortByKeyPermutes(p, key);
      InsertPermutes(SortByKey(p, key), s[|s| - 1], key);
    }
  }

  /** Sorting an already ordered sequence leaves it as it is. */
  lemma {:induction false} SortByKeyIdempotent<T>(s: seq<T>, key: T -> int)
    requires SortedBy(s, key)
    ensures SortByKey(s, key) == s
  {
    if s != [] {
      var p := s[..|s| - 1];
      assert SortedBy(p, key);
      SortByKeyIdempotent(p, key);
      var i := InsertionPoint(p, s[|s| - 1], key);
      assert i == |p|;
      assert s == p + [s[|s| - 1]];
    }
  }

  /** Two rank-ordered sequences with the same rank classes are equal. */
  lemma {:induction false} StableSortUnique<T>(a: seq<T>, b: seq<T>, key: T -> int)
    requires SortedBy(a, key) && SortedBy(b, key)
    requires forall k :: WithKey(a, key, k) == WithKey(b, key, k)
    ensures a == b
    decreases |a| + |b|
  {
    if a == [] && b == [] {
      return;
    }
    if a == [] {
      WithKeyOfLast(b, key);
      assert false;
    }
    if b == [] {
      WithKeyOfLast(a, key);
      assert false;
    }
    var x, y := a[|a| - 1], b[|b| - 1];
    var a', b' := a[..|a| - 1], b[..|b| - 1];
    WithKeyInRange(a, key, key(y));
    WithKeyInRange(b, key, key(x));
    assert key(x) == key(y);
    assert x == y by {
      var wa, wb := WithKey(a', key, key(x)), WithKey(b', key, key(x));
      assert WithKey(a, key, key(x)) == wa + [x];
      assert WithKey(b, key, key(x)) == wb + [y];
      assert wa + [x] == wb + [y];
      assert (wa + [x])[|wa + [x]| - 1] == x;
      assert (wb + [y])[|wb + [y]| - 1] == y;
    }
    forall k ensures WithKey(a', key, k) == WithKey(b', key, k) {
      var wa, wb := WithKey(a', key, k), WithKey(b', key, k);
      var e := if key(x) == k then [x] else [];
      assert WithKey(a, key, k) == wa + e;
      assert WithKey(b, key, k) == wb + e;
      assert wa + e == wb + e;
      assert |wa| == |wb|;
      assert wa == (wa + e)[..|wa|];
      assert wb == (wb + e)[..|wb|];
    }
    StableSortUnique(a', b', key);
    assert a == a' + [x] && b == b' + [y];
  }

  /** The rank class of the last element is not empty. */
  lemma WithKeyOfLast<T>(s: seq<T>, key: T -> int)
    ensures s != [] ==> WithKey(s, key, key(s[|s| - 1])) != []
  {
  }

  /** A rank class that is not empty holds an element of that rank, so it is at most the last rank. */
  lemma {:induction false} WithKeyInRange<T>(s: seq<T>, key: T -> int, k: int)
    requires SortedBy(s, key) && s != []
    requires WithKey(s, key, k) != []
    ensures k <= key(s[|s| - 1])
  {
    var p := s[..|s| - 1];
    if key(s[|s| - 1]) != k {
      assert WithKey(p, key, k) != [];
      assert p != [];
      assert SortedBy(p, key);
      WithKeyInRange(p, key, k);
    }
  }
}
