/** Generic sequence operations the JavaScript code uses through `Array`
    methods and document-store queries: `filter`, a stable `sort` by a
    comparator, and "the newest matching record" (`findOne(...).sort({createdAt: -1})`). */
module Seqs {
  import opened Wrappers

  /** `Array.prototype.filter`: the elements satisfying `p`, in their original order. */
  function Filter<T(!new)>(s: seq<T>, p: T -> bool): (r: seq<T>)
    ensures |r| <= |s|
    ensures forall i | 0 <= i < |r| :: p(r[i])
    ensures (forall i | 0 <= i < |s| :: p(s[i])) ==> r == s
  {
    if s == [] then []
    else
      assert s == [s[0]] + s[1..];
      (if p(s[0]) then [s[0]] else []) + Filter(s[1..], p)
  }

  /** Filtering keeps every occurrence of an element satisfying `p` and drops
      every occurrence of one that does not. */
  lemma {:induction false} FilterMultiset<T(!new)>(s: seq<T>, p: T -> bool)
    ensures forall x :: multiset(Filter(s, p))[x] == if p(x) then multiset(s)[x] else 0
  {
    if s != [] {
      FilterMultiset(s[1..], p);
      assert s == [s[0]] + s[1..];
    }
  }

  /** An element is in the filtered sequence exactly when it is in the input
      and satisfies `p`. */
  lemma FilterMember<T(!new)>(s: seq<T>, p: T -> bool, x: T)
    ensures x in Filter(s, p) <==> x in s && p(x)
  {
    FilterMultiset(s, p);
    assert x in Filter(s, p) <==> x in multiset(Filter(s, p));
    assert x in s <==> x in multiset(s);
  }

  /** Filtering distributes over concatenation, so it keeps the relative order
      of the elements it retains. */
  lemma {:induction false} FilterConcat<T(!new)>(a: seq<T>, b: seq<T>, p: T -> bool)
    ensures Filter(a + b, p) == Filter(a, p) + Filter(b, p)
  {
    if a == [] {
      assert a + b == b;
    } else {
      var h := if p(a[0]) then [a[0]] else [];
      assert (a + b)[0] == a[0];
      assert (a + b)[1..] == a[1..] + b;
      assert Filter(a + b, p) == h + Filter(a[1..] + b, p);
      FilterConcat(a[1..], b, p);
      assert Filter(a, p) == h + Filter(a[1..], p);
    }
  }

  /** `Array.prototype.map`: `f` applied to each element, in order. */
  function Map<S, T>(s: seq<S>, f: S -> T): (r: seq<T>)
    ensures |r| == |s| && forall i | 0 <= i < |s| :: r[i] == f(s[i])
  {
    seq(|s|, i requires 0 <= i < |s| => f(s[i]))
  }

  /** Mapping distributes over concatenation. */
  lemma MapConcat<S, T>(a: seq<S>, b: seq<S>, f: S -> T)
    ensures Map(a + b, f) == Map(a, f) + Map(b, f)
  {
    assert forall i | 0 <= i < |a| :: (a + b)[i] == a[i];
    assert forall i | |a| <= i < |a| + |b| :: (a + b)[i] == b[i - |a|];
  }

  /** Mapping two arrangements of the same elements gives two arrangements of
      the same images: each image occurs as often in both. */
  lemma {:induction false} MapPermutation<S, T>(a: seq<S>, b: seq<S>, f: S -> T)
    requires multiset(a) == multiset(b)
    ensures multiset(Map(a, f)) == multiset(Map(b, f))
    decreases |a|
  {
    if a != [] {
      var x := a[0];
      assert x in multiset(b);
      var k :| 0 <= k < |b| && b[k] == x;
      var rest := b[..k] + b[k + 1..];
      assert b == b[..k] + [x] + b[k + 1..];
      assert a == [x] + a[1..];
      assert multiset(b) == multiset(b[..k]) + multiset{x} + multiset(b[k + 1..]);
      assert multiset(a) == multiset{x} + multiset(a[1..]);
      assert multiset(rest) == multiset(b[..k]) + multiset(b[k + 1..]);
      assert multiset(a[1..]) == multiset(a) - multiset{x};
      assert multiset(rest) == multiset(b) - multiset{x};
      MapPermutation(a[1..], rest, f);
      MapConcat([x], a[1..], f);
      MapConcat(b[..k], b[k + 1..], f);
      MapConcat(b[..k] + [x], b[k + 1..], f);
      MapConcat(b[..k], [x], f);
    }
  }

  /** Under a one-to-one `f`, the image of `x` occurs in the mapped sequence
      exactly as often as `x` occurs in the input. */
  lemma {:induction false} MapCount<S, T>(s: seq<S>, f: S -> T, x: S)
    requires forall y :: f(y) == f(x) ==> y == x
    ensures multiset(Map(s, f))[f(x)] == multiset(s)[x]
  {
    if s != [] {
      MapCount(s[1..], f, x);
      MapConcat([s[0]], s[1..], f);
      assert s == [s[0]] + s[1..];
      assert Map(s, f) == [f(s[0])] + Map(s[1..], f);
      assert f(s[0]) == f(x) <==> s[0] == x;
    }
  }

  /** Every element satisfies `p`. */
  predicate All<T>(s: seq<T>, p: T -> bool) {
    forall i | 0 <= i < |s| :: p(s[i])
  }

  lemma AllAppend<T>(s: seq<T>, x: T, p: T -> bool)
    requires All(s, p) && p(x)
    ensures All(s + [x], p)
  {
    assert forall i | 0 <= i < |s| :: (s + [x])[i] == s[i];
  }

  lemma AllUpdate<T>(s: seq<T>, k: nat, x: T, p: T -> bool)
    requires All(s, p) && k < |s| && p(x)
    ensures All(s[k := x], p)
  {
  }

  lemma AllRemove<T>(s: seq<T>, k: nat, p: T -> bool)
    requires All(s, p) && k < |s|
    ensures All(s[..k] + s[k + 1..], p)
  {
    var t := s[..k] + s[k + 1..];
    assert forall i | 0 <= i < |t| :: t[i] == if i < k then s[i] else s[i + 1];
  }

  /** The number of elements satisfying `p`. */
  function Count<T(!new)>(s: seq<T>, p: T -> bool): nat {
    |Filter(s, p)|
  }

  /** `le` is a total preorder: what a consistent `sort` comparator induces
      through `le(a, b) := compare(a, b) <= 0`. */
  ghost predicate TotalPreorder<T(!new)>(le: (T, T) -> bool) {
    && (forall a, b :: le(a, b) || le(b, a))
    && (forall a, b, c :: le(a, b) && le(b, c) ==> le(a, c))
  }

  predicate SortedBy<T>(s: seq<T>, le: (T, T) -> bool) {
    forall i, j | 0 <= i < j < |s| :: le(s[i], s[j])
  }

  /** Inserts `x` in front of the first element it may precede. */
  function Insert<T>(x: T, s: seq<T>, le: (T, T) -> bool): (r: seq<T>)
    ensures |r| == |s| + 1
    ensures multiset(r) == multiset(s) + multiset{x}
  {
    if s == [] || le(x, s[0]) then [x] + s
    else
      assert s == [s[0]] + s[1..];
      [s[0]] + Insert(x, s[1..], le)
  }

  /** `Array.prototype.sort` with a consistent comparator. ECMAScript 2019
      requires the sort to be stable, and a stable sort by a total preorder
      has exactly one possible result; this insertion sort computes it. */
  function Sort<T>(s: seq<T>, le: (T, T) -> bool): (r: seq<T>)
    ensures |r| == |s|
    ensures multiset(r) == multiset(s)
  {
    if s == [] then []
    else
      assert s == [s[0]] + s[1..];
      Insert(s[0], Sort(s[1..], le), le)
  }

  /** Sorting neither adds nor drops an element. */
  lemma SortMember<T>(s: seq<T>, le: (T, T) -> bool, x: T)
    ensures x in Sort(s, le) <==> x in s
  {
    assert x in Sort(s, le) <==> x in multiset(Sort(s, le));
    assert x in s <==> x in multiset(s);
  }

  lemma {:induction false} InsertSorted<T(!new)>(x: T, s: seq<T>, le: (T, T) -> bool)
    requires TotalPreorder(le)
    requires SortedBy(s, le)
    ensures SortedBy(Insert(x, s, le), le)
  {
    if s != [] && !le(x, s[0]) {
      var t := Insert(x, s[1..], le);
      InsertSorted(x, s[1..], le);
      assert le(s[0], t[0]) by {
        if |s| > 1 && !le(x, s[1]) {
          assert t[0] == s[1];
        }
      }
      var r := Insert(x, s, le);
      assert r == [s[0]] + t;
      forall i, j | 0 <= i < j < |r| ensures le(r[i], r[j]) {
        if i == 0 && j > 1 {
          assert le(t[0], t[j - 1]);
        }
      }
    }
  }

  /** The sort's result is ordered by the comparator. */
  lemma {:induction false} SortSorted<T(!new)>(s: seq<T>, le: (T, T) -> bool)
    requires TotalPreorder(le)
    ensures SortedBy(Sort(s, le), le)
  {
    if s != [] {
      SortSorted(s[1..], le);
      InsertSorted(s[0], Sort(s[1..], le), le);
    }
  }

  /** A sequence that is already ordered comes back unchanged: sorting is
      idempotent, and a comparator that always answers 0 keeps the input order. */
  lemma {:induction false} SortOfSorted<T>(s: seq<T>, le: (T, T) -> bool)
    requires SortedBy(s, le)
    ensures Sort(s, le) == s
  {
    if s != [] {
      assert SortedBy(s[1..], le);
      SortOfSorted(s[1..], le);
      assert s == [s[0]] + s[1..];
    }
  }

  /** The index of the newest element satisfying `keep`, by `stamp`; among
      equally new ones, the earliest in the table. This is what
      `findOne(filter).sort({createdAt: -1})` returns, with the tie resolved by
      table order (the store itself leaves ties open). */
  function NewestIndex<T>(s: seq<T>, keep: T -> bool, stamp: T -> int): (r: Option<nat>)
    ensures r.None? <==> (forall i | 0 <= i < |s| :: !keep(s[i]))
    ensures r.Some? ==> r.value < |s| && keep(s[r.value])
    ensures r.Some? ==> forall i | 0 <= i < |s| && keep(s[i]) :: stamp(s[i]) <= stamp(s[r.value])
    ensures r.Some? ==> forall i | 0 <= i < r.value && keep(s[i]) :: stamp(s[i]) < stamp(s[r.value])
  {
    if s == [] then None
    else
      var prev := NewestIndex(s[..|s| - 1], keep, stamp);
      if keep(s[|s| - 1]) && (prev.None? || stamp(s[prev.value]) < stamp(s[|s| - 1])) then Some(|s| - 1)
      else prev
  }

  /** Appending an element that does not match leaves the newest match unchanged. */
  lemma NewestIgnoresOther<T>(s: seq<T>, x: T, keep: T -> bool, stamp: T -> int)
    requires !keep(x)
    ensures NewestIndex(s + [x], keep, stamp) == NewestIndex(s, keep, stamp)
  {
    assert (s + [x])[..|s|] == s;
  }

  /** Appending the first match makes it the newest. */
  lemma NewestFirstMatch<T>(s: seq<T>, x: T, keep: T -> bool, stamp: T -> int)
    requires forall i | 0 <= i < |s| :: !keep(s[i])
    requires keep(x)
    ensures NewestIndex(s + [x], keep, stamp) == Some(|s|)
  {
    assert (s + [x])[..|s|] == s;
  }

  /** Replacing an element by one that matches alike and carries the same stamp
      leaves the newest index unchanged. */
  lemma {:induction false} NewestStable<T>(s: seq<T>, k: nat, y: T, keep: T -> bool, stamp: T -> int)
    requires k < |s|
    requires keep(y) == keep(s[k]) && stamp(y) == stamp(s[k])
    ensures NewestIndex(s[k := y], keep, stamp) == NewestIndex(s, keep, stamp)
  {
    var t := s[k := y];
    var n := |s| - 1;
    var prev := NewestIndex(s[..n], keep, stamp);
    if k < n {
      assert t[..n] == s[..n][k := y];
      NewestStable(s[..n], k, y, keep, stamp);
      assert t[n] == s[n];
    } else {
      assert t[..n] == s[..n];
    }
    assert NewestIndex(t[..n], keep, stamp) == prev;
    assert keep(t[n]) == keep(s[n]) && stamp(t[n]) == stamp(s[n]);
    if prev.Some? {
      assert stamp(t[prev.value]) == stamp(s[prev.value]);
    }
  }
}
