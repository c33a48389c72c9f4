/**
 * The JavaScript array operations the planning layer relies on: `findIndex` / `find`,
 * `filter` and a numeric `reduce((acc, x) => acc + f(x), 0)`.
 */
module JsArray {
  import opened Wrappers

  /** `xs.findIndex(p)`, with -1 written as `None`: the first index whose element satisfies `p`. */
  function FindIndex<T>(xs: seq<T>, p: T -> bool): (r: Option<nat>)
    ensures r.Some? ==> r.value < |xs| && p(xs[r.value])
    ensures r.Some? ==> forall j :: 0 <= j < r.value ==> !p(xs[j])
    ensures r.None? ==> forall j :: 0 <= j < |xs| ==> !p(xs[j])
  {
    if xs == [] then None
    else if p(xs[0]) then Some(0)
    else
      match FindIndex(xs[1..], p)
      case Some(i) => Some(i + 1)
      case None => None
  }

  /** `xs.find(p)`: the first element satisfying `p`, `undefined` written as `None`. */
  function Find<T>(xs: seq<T>, p: T -> bool): (r: Option<T>)
    ensures r.None? <==> forall j :: 0 <= j < |xs| ==> !p(xs[j])
    ensures r.Some? ==> FindIndex(xs, p).Some? && r.value == xs[FindIndex(xs, p).value]
  {
    match FindIndex(xs, p)
    case Some(i) => Some(xs[i])
    case None => None
  }

  /** `xs.filter(p)`: the elements satisfying `p`, in their order in `xs`. */
  function Filter<T>(xs: seq<T>, p: T -> bool): (r: seq<T>)
    ensures |r| <= |xs|
    ensures forall k :: 0 <= k < |r| ==> p(r[k]) && r[k] in xs
  {
    if xs == [] then []
    else Filter(xs[..|xs| - 1], p) + (if p(xs[|xs| - 1]) then [xs[|xs| - 1]] else [])
  }

  /** `xs.reduce((acc, x) => acc + f(x), 0)` */
  function Sum<T>(xs: seq<T>, f: T -> real): real {
    if xs == [] then 0.0 else Sum(xs[..|xs| - 1], f) + f(xs[|xs| - 1])
  }

  lemma {:induction false} FilterAppend<T>(a: seq<T>, b: seq<T>, p: T -> bool)
    ensures Filter(a + b, p) == Filter(a, p) + Filter(b, p)
    decreases |b|
  {
    if b == [] {
      assert a + b == a;
    } else {
      assert (a + b)[..|a + b| - 1] == a + b[..|b| - 1];
      FilterAppend(a, b[..|b| - 1], p);
    }
  }

  /** Filtering keeps the elements that satisfy `p` and only those: nothing is lost or reordered. */
  lemma {:induction false} FilterAll<T>(xs: seq<T>, p: T -> bool)
    requires forall k :: 0 <= k < |xs| ==> p(xs[k])
    ensures Filter(xs, p) == xs
  {
    if xs != [] {
      FilterAll(xs[..|xs| - 1], p);
    }
  }

  lemma {:induction false} FilterNone<T>(xs: seq<T>, p: T -> bool)
    requires forall k :: 0 <= k < |xs| ==> !p(xs[k])
    ensures Filter(xs, p) == []
  {
    if xs != [] {
      FilterNone(xs[..|xs| - 1], p);
    }
  }

  /** An element satisfying `p` survives the filter. */
  lemma {:induction false} FilterKeeps<T>(xs: seq<T>, p: T -> bool, x: T)
    requires x in xs && p(x)
    ensures x in Filter(xs, p)
  {
    var last := xs[|xs| - 1];
    if x != last {
      assert xs == xs[..|xs| - 1] + [last];
      FilterKeeps(xs[..|xs| - 1], p, x);
    }
  }

  /** An element is kept exactly when it is one of `xs` and satisfies `p`. */
  lemma FilterHas<T>(xs: seq<T>, p: T -> bool, x: T)
    ensures x in Filter(xs, p) <==> x in xs && p(x)
  {
    if x in xs && p(x) {
      FilterKeeps(xs, p, x);
    }
  }

  /** When each element satisfies exactly one of two tests, the two filters split the elements between them. */
  lemma {:induction false} FilterPartition2<T>(xs: seq<T>, p: T -> bool, q: T -> bool)
    requires forall j :: 0 <= j < |xs| ==> (p(xs[j]) || q(xs[j])) && !(p(xs[j]) && q(xs[j]))
    ensures multiset(Filter(xs, p)) + multiset(Filter(xs, q)) == multiset(xs)
  {
    if xs != [] {
      var init, last := xs[..|xs| - 1], xs[|xs| - 1];
      assert xs == init + [last];
      FilterPartition2(init, p, q);
    }
  }

  /** When each element satisfies exactly one of three tests, the three filters split the elements between them. */
  lemma {:induction false} FilterPartition3<T>(xs: seq<T>, p: T -> bool, q: T -> bool, s: T -> bool)
    requires forall j :: 0 <= j < |xs| ==> p(xs[j]) || q(xs[j]) || s(xs[j])
    requires forall j :: 0 <= j < |xs| ==> !(p(xs[j]) && q(xs[j])) && !(p(xs[j]) && s(xs[j])) && !(q(xs[j]) && s(xs[j]))
    ensures multiset(Filter(xs, p)) + multiset(Filter(xs, q)) + multiset(Filter(xs, s)) == multiset(xs)
  {
    if xs != [] {
      var init, last := xs[..|xs| - 1], xs[|xs| - 1];
      assert xs == init + [last];
      FilterPartition3(init, p, q, s);
    }
  }

  lemma {:induction false} SumAppend<T>(a: seq<T>, b: seq<T>, f: T -> real)
    ensures Sum(a + b, f) == Sum(a, f) + Sum(b, f)
    decreases |b|
  {
    if b == [] {
      assert a + b == a;
    } else {
      assert (a + b)[..|a + b| - 1] == a + b[..|b| - 1];
      SumAppend(a, b[..|b| - 1], f);
    }
  }

  /** Splitting a sequence by a test splits its sum. */
  lemma {:induction false} SumFilterSplit<T>(xs: seq<T>, p: T -> bool, f: T -> real)
    ensures Sum(Filter(xs, p), f) + Sum(Filter(xs, x => !p(x)), f) == Sum(xs, f)
  {
    if xs != [] {
      var init, last := xs[..|xs| - 1], xs[|xs| - 1];
      SumFilterSplit(init, p, f);
      SumAppend(Filter(init, p), if p(last) then [last] else [], f);
      SumAppend(Filter(init, x => !p(x)), if !p(last) then [last] else [], f);
    }
  }

  /** Adding zero everywhere adds nothing. */
  lemma {:induction false} SumZero<T>(xs: seq<T>, f: T -> real)
    requires forall k :: 0 <= k < |xs| ==> f(xs[k]) == 0.0
    ensures Sum(xs, f) == 0.0
  {
    if xs != [] {
      SumZero(xs[..|xs| - 1], f);
    }
  }

  /** A sum of non-negative terms is non-negative. */
  lemma {:induction false} SumNonNegative<T>(xs: seq<T>, f: T -> real)
    requires forall k :: 0 <= k < |xs| ==> f(xs[k]) >= 0.0
    ensures Sum(xs, f) >= 0.0
  {
    if xs != [] {
      SumNonNegative(xs[..|xs| - 1], f);
    }
  }

  // ---------------------------------------------------------------- grouping by a key

  /** `xs.filter(x => key(x) === k)` */
  function Having<T, K(==)>(xs: seq<T>, key: T -> K, k: K): (r: seq<T>)
    ensures |r| <= |xs|
    ensures forall j :: 0 <= j < |r| ==> key(r[j]) == k && r[j] in xs
  {
    if xs == [] then []
    else Having(xs[..|xs| - 1], key, k) + (if key(xs[|xs| - 1]) == k then [xs[|xs| - 1]] else [])
  }

  /** The sum of `f` over each key group of `ks`, added up over the keys. */
  function SumOver<T, K(==)>(xs: seq<T>, key: T -> K, ks: seq<K>, f: T -> real): real {
    if ks == [] then 0.0
    else SumOver(xs, key, ks[..|ks| - 1], f) + Sum(Having(xs, key, ks[|ks| - 1]), f)
  }

  predicate Distinct<K(==)>(ks: seq<K>) {
    forall i, j :: 0 <= i < j < |ks| ==> ks[i] != ks[j]
  }

  lemma {:induction false} SumOverEmpty<T, K>(key: T -> K, ks: seq<K>, f: T -> real)
    ensures SumOver([], key, ks, f) == 0.0
  {
    if ks != [] {
      SumOverEmpty(key, ks[..|ks| - 1], f);
    }
  }

  lemma HavingSnoc<T, K>(xs: seq<T>, x: T, key: T -> K, k: K)
    ensures Having(xs + [x], key, k) == Having(xs, key, k) + (if key(x) == k then [x] else [])
  {
    assert (xs + [x])[..|xs + [x]| - 1] == xs;
  }

  /** One more element adds its value to one group, that of its own key. */
  lemma HavingSnocSum<T, K>(xs: seq<T>, x: T, key: T -> K, k: K, f: T -> real)
    ensures Sum(Having(xs + [x], key, k), f) == Sum(Having(xs, key, k), f) + (if key(x) == k then f(x) else 0.0)
  {
    var e := if key(x) == k then [x] else [];
    HavingSnoc(xs, x, key, k);
    SumAppend(Having(xs, key, k), e, f);
    assert Sum(e, f) == (if key(x) == k then f(x) else 0.0);
  }

  /** One more element adds its value to the group of its key, if that key is listed. */
  lemma {:induction false} SumOverSnoc<T, K>(xs: seq<T>, x: T, key: T -> K, ks: seq<K>, f: T -> real)
    requires Distinct(ks)
    ensures SumOver(xs + [x], key, ks, f) == SumOver(xs, key, ks, f) + (if key(x) in ks then f(x) else 0.0)
  {
    if ks != [] {
      var init, last := ks[..|ks| - 1], ks[|ks| - 1];
      assert ks == init + [last];
      assert Distinct(init);
      assert key(x) in ks <==> key(x) in init || key(x) == last;
      assert key(x) == last ==> key(x) !in init;
      SumOverSnoc(xs, x, key, init, f);
      HavingSnocSum(xs, x, key, last, f);
    }
  }

  /** When every element's key is listed once, the group sums add up to the whole sum. */
  lemma {:induction false} SumOverPartition<T, K>(xs: seq<T>, key: T -> K, ks: seq<K>, f: T -> real)
    requires Distinct(ks)
    requires forall j :: 0 <= j < |xs| ==> key(xs[j]) in ks
    ensures SumOver(xs, key, ks, f) == Sum(xs, f)
  {
    if xs == [] {
      SumOverEmpty(key, ks, f);
    } else {
      var init, last := xs[..|xs| - 1], xs[|xs| - 1];
      assert init + [last] == xs;
      assert key(last) in ks;
      SumOverPartition(init, key, ks, f);
      SumOverSnoc(init, last, key, ks, f);
    }
  }

  /** When every key is one of three distinct keys, the three groups together hold exactly the elements. */
  lemma {:induction false} HavingPartition3<T, K>(xs: seq<T>, key: T -> K, a: K, b: K, c: K)
    requires a != b && b != c && a != c
    requires forall j :: 0 <= j < |xs| ==> key(xs[j]) == a || key(xs[j]) == b || key(xs[j]) == c
    ensures multiset(Having(xs, key, a)) + multiset(Having(xs, key, b)) + multiset(Having(xs, key, c)) == multiset(xs)
    ensures |Having(xs, key, a)| + |Having(xs, key, b)| + |Having(xs, key, c)| == |xs|
  {
    if xs != [] {
      var init, last := xs[..|xs| - 1], xs[|xs| - 1];
      assert xs == init + [last];
      HavingPartition3(init, key, a, b, c);
    }
  }

  /** Every element is in the group of its own key. */
  lemma {:induction false} HavingKeeps<T, K>(xs: seq<T>, key: T -> K, x: T)
    requires x in xs
    ensures x in Having(xs, key, key(x))
  {
    var init, last := xs[..|xs| - 1], xs[|xs| - 1];
    if x != last {
      assert xs == init + [last];
      HavingKeeps(init, key, x);
    }
  }

  /** `f(xs[0], first) + f(xs[1], first + 1) + ...`: what each element gives, numbered from `first`. */
  function FlatMapNumbered<A, B>(xs: seq<A>, first: nat, f: (A, nat) -> seq<B>): seq<B> {
    if xs == [] then [] else FlatMapNumbered(xs[..|xs| - 1], first, f) + f(xs[|xs| - 1], first + |xs| - 1)
  }

  /** One more element, numbered `n`, adds what it gives at the end. */
  lemma FlatMapNumberedSnoc<A, B>(xs: seq<A>, x: A, first: nat, n: nat, f: (A, nat) -> seq<B>)
    requires n == first + |xs|
    ensures FlatMapNumbered(xs + [x], first, f) == FlatMapNumbered(xs, first, f) + f(x, n)
  {
    var ys := xs + [x];
    assert ys[..|ys| - 1] == xs;
  }

  /** Every element of `ys` satisfies `p`. */
  predicate All<T>(ys: seq<T>, p: T -> bool) {
    forall j :: 0 <= j < |ys| ==> p(ys[j])
  }

  /** When what every element gives satisfies `p`, the whole result does. */
  lemma {:induction false} FlatMapNumberedAll<A, B>(xs: seq<A>, first: nat, f: (A, nat) -> seq<B>, p: B -> bool)
    requires forall k :: 0 <= k < |xs| ==> All(f(xs[k], first + k), p)
    ensures All(FlatMapNumbered(xs, first, f), p)
  {
    if xs != [] {
      var init, x := xs[..|xs| - 1], xs[|xs| - 1];
      assert forall k :: 0 <= k < |init| ==> init[k] == xs[k];
      FlatMapNumberedAll(init, first, f, p);
      var a, b := FlatMapNumbered(init, first, f), f(x, first + |xs| - 1);
      assert All(b, p);
      forall j | 0 <= j < |a + b|
        ensures p((a + b)[j])
      {
        if j < |a| {
          assert (a + b)[j] == a[j];
        } else {
          assert (a + b)[j] == b[j - |a|];
        }
      }
    }
  }

  /** When every element gives at most `m` values, the result has at most `m` per element. */
  lemma {:induction false} FlatMapNumberedBounded<A, B>(xs: seq<A>, first: nat, f: (A, nat) -> seq<B>, m: nat)
    requires forall k :: 0 <= k < |xs| ==> |f(xs[k], first + k)| <= m
    ensures |FlatMapNumbered(xs, first, f)| <= m * |xs|
  {
    if xs != [] {
      var init, n := xs[..|xs| - 1], |xs| - 1;
      assert forall k :: 0 <= k < |init| ==> init[k] == xs[k];
      FlatMapNumberedBounded(init, first, f, m);
      var a, b := FlatMapNumbered(init, first, f), f(xs[n], first + n);
      assert FlatMapNumbered(xs, first, f) == a + b;
      BoundStep(|a|, |b|, m, n);
    }
  }

  lemma BoundStep(a: nat, b: nat, m: nat, n: nat)
    requires a <= m * n && b <= m
    ensures a + b <= m * (n + 1)
  {
  }

  /** When every element gives exactly one value, the result lists those values in order. */
  lemma {:induction false} FlatMapNumberedOneEach<A, B>(xs: seq<A>, first: nat, f: (A, nat) -> seq<B>)
    requires forall k :: 0 <= k < |xs| ==> |f(xs[k], first + k)| == 1
    ensures |FlatMapNumbered(xs, first, f)| == |xs|
    ensures forall k :: 0 <= k < |xs| ==> FlatMapNumbered(xs, first, f)[k] == f(xs[k], first + k)[0]
  {
    if xs != [] {
      var init := xs[..|xs| - 1];
      assert forall k :: 0 <= k < |init| ==> init[k] == xs[k];
      FlatMapNumberedOneEach(init, first, f);
      assert |f(xs[|xs| - 1], first + |xs| - 1)| == 1;
    }
  }

  /** When every element gives exactly the one value listed for it in `ys`, the result is `ys`. */
  lemma FlatMapNumberedSingletons<A, B>(xs: seq<A>, first: nat, f: (A, nat) -> seq<B>, ys: seq<B>)
    requires |ys| == |xs|
    requires forall k :: 0 <= k < |xs| ==> f(xs[k], first + k) == [ys[k]]
    ensures FlatMapNumbered(xs, first, f) == ys
  {
    FlatMapNumberedOneEach(xs, first, f);
    var r := FlatMapNumbered(xs, first, f);
    assert forall k :: 0 <= k < |xs| ==> r[k] == f(xs[k], first + k)[0] == ys[k];
  }

  /** `xs` lists `f(0)`, `f(1)`, ...: every position holds the value `f` gives it. */
  ghost predicate Tabulates<T>(xs: seq<T>, f: nat --> T) {
    forall n :: 0 <= n < |xs| ==> f.requires(n) && xs[n] == f(n)
  }

  /** Appending the value of the next position keeps a tabulation. */
  lemma TabulatesPush<T>(xs: seq<T>, x: T, f: nat --> T)
    requires Tabulates(xs, f) && f.requires(|xs|) && x == f(|xs|)
    ensures Tabulates(xs + [x], f)
  {
    assert forall n :: 0 <= n < |xs| ==> (xs + [x])[n] == xs[n];
  }

  /** The result is empty exactly when every element gives nothing. */
  lemma {:induction false} FlatMapNumberedEmpty<A, B>(xs: seq<A>, first: nat, f: (A, nat) -> seq<B>)
    ensures FlatMapNumbered(xs, first, f) == [] <==> forall k :: 0 <= k < |xs| ==> f(xs[k], first + k) == []
  {
    if xs != [] {
      var init, n := xs[..|xs| - 1], |xs| - 1;
      FlatMapNumberedEmpty(init, first, f);
      assert forall k :: 0 <= k < |init| ==> init[k] == xs[k];
      var a, b := FlatMapNumbered(init, first, f), f(xs[n], first + n);
      assert FlatMapNumbered(xs, first, f) == a + b;
      assert a + b == [] <==> a == [] && b == [];
      assert (forall k :: 0 <= k < |xs| ==> f(xs[k], first + k) == []) <==>
        (forall k :: 0 <= k < |init| ==> f(init[k], first + k) == []) && b == [];
    }
  }
  // ---------------------------------------------------------------- map and order

  /** `xs.map(f)` */
  function Map<A, B>(xs: seq<A>, f: A -> B): (r: seq<B>)
    ensures |r| == |xs| && forall k :: 0 <= k < |xs| ==> r[k] == f(xs[k])
  {
    if xs == [] then [] else Map(xs[..|xs| - 1], f) + [f(xs[|xs| - 1])]
  }

  /** Where an element of a filtered sequence came from. */
  lemma {:induction false} FilterIndex<T>(xs: seq<T>, p: T -> bool, i: nat) returns (a: nat)
    requires i < |Filter(xs, p)|
    ensures a < |xs| && xs[a] == Filter(xs, p)[i]
  {
    var init, last := xs[..|xs| - 1], xs[|xs| - 1];
    var r0 := Filter(init, p);
    if i < |r0| {
      a := FilterIndex(init, p, i);
      assert Filter(xs, p)[i] == r0[i];
    } else {
      a := |xs| - 1;
    }
  }

  /** `filter` keeps the order: two elements of the result came from positions in the same order. */
  lemma {:induction false} FilterOrder<T>(xs: seq<T>, p: T -> bool, i: nat, j: nat) returns (a: nat, b: nat)
    requires i < j < |Filter(xs, p)|
    ensures a < b < |xs| && xs[a] == Filter(xs, p)[i] && xs[b] == Filter(xs, p)[j]
  {
    var init, last := xs[..|xs| - 1], xs[|xs| - 1];
    var r0 := Filter(init, p);
    assert Filter(xs, p)[i] == r0[i];
    if j < |r0| {
      a, b := FilterOrder(init, p, i, j);
      assert Filter(xs, p)[j] == r0[j];
    } else {
      a := FilterIndex(init, p, i);
      b := |xs| - 1;
    }
  }

  /** `xs.filter(Boolean)` on a sequence of nullable values: the values that are present, in order. */
  function Present<T>(xs: seq<Option<T>>): (r: seq<T>)
    ensures |r| <= |xs|
  {
    if xs == [] then []
    else Present(xs[..|xs| - 1]) + (if xs[|xs| - 1].Some? then [xs[|xs| - 1].value] else [])
  }

  /** A value is in the result exactly when it is present somewhere in `xs`. */
  lemma {:induction false} PresentHas<T>(xs: seq<Option<T>>, x: T)
    ensures x in Present(xs) <==> Some(x) in xs
  {
    if xs != [] {
      var init := xs[..|xs| - 1];
      PresentHas(init, x);
      assert xs == init + [xs[|xs| - 1]];
    }
  }

  /** Where an element of the result came from. */
  lemma {:induction false} PresentIndex<T>(xs: seq<Option<T>>, i: nat) returns (a: nat)
    requires i < |Present(xs)|
    ensures a < |xs| && xs[a] == Some(Present(xs)[i])
  {
    var init := xs[..|xs| - 1];
    var r0 := Present(init);
    if i < |r0| {
      a := PresentIndex(init, i);
      assert Present(xs)[i] == r0[i];
    } else {
      a := |xs| - 1;
    }
  }

  /** The present values keep their order. */
  lemma {:induction false} PresentOrder<T>(xs: seq<Option<T>>, i: nat, j: nat) returns (a: nat, b: nat)
    requires i < j < |Present(xs)|
    ensures a < b < |xs| && xs[a] == Some(Present(xs)[i]) && xs[b] == Some(Present(xs)[j])
  {
    var init := xs[..|xs| - 1];
    var r0 := Present(init);
    assert Present(xs)[i] == r0[i];
    if j < |r0| {
      a, b := PresentOrder(init, i, j);
      assert Present(xs)[j] == r0[j];
    } else {
      a := PresentIndex(init, i);
      b := |xs| - 1;
    }
  }
}
