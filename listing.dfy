/** The search-then-sort pipeline the list screens share: `list.filter(keep)
    .sort(compare)`, where a comparator is read through `le(a, b) :=
    compare(a, b) <= 0`. Numeric comparators (`a.x - b.x`, `b.x - a.x`),
    `localeCompare` on a text field and the constant comparator `0` of an
    unknown option are the orders that occur. */
module Listing {
  import Seqs
  import Text

  /** `(a, b) => a.key - b.key`. */
  function Ascending<T>(key: T -> int): (T, T) -> bool {
    (a: T, b: T) => key(a) <= key(b)
  }

  /** `(a, b) => b.key - a.key`. */
  function Descending<T>(key: T -> int): (T, T) -> bool {
    (a: T, b: T) => key(b) <= key(a)
  }

  /** `(a, b) => a.key.localeCompare(b.key)`. */
  function Alphabetical<T>(key: T -> string): (T, T) -> bool {
    (a: T, b: T) => Text.LexLe(key(a), key(b))
  }

  /** `default: return 0`: every pair is in order. */
  function Unordered<T>(): (T, T) -> bool {
    (a: T, b: T) => true
  }

  /** Each of the comparators is consistent, so the stable sort by it is
      well defined. */
  lemma AscendingOrders<T(!new)>(key: T -> int)
    ensures Seqs.TotalPreorder(Ascending(key))
    ensures Seqs.TotalPreorder(Descending(key))
    ensures Seqs.TotalPreorder(Unordered<T>())
  {
  }

  lemma AlphabeticalOrders<T(!new)>(key: T -> string)
    ensures Seqs.TotalPreorder(Alphabetical(key))
  {
    var le := Alphabetical(key);
    forall a, b ensures le(a, b) || le(b, a) {
      Text.LexLeTotal(key(a), key(b));
    }
    forall a, b, c | le(a, b) && le(b, c) ensures le(a, c) {
      Text.LexLeTransitive(key(a), key(b), key(c));
    }
  }

  /** `s.filter(keep).sort(le)`. */
  function Listed<T(!new)>(s: seq<T>, keep: T -> bool, le: (T, T) -> bool): (r: seq<T>)
    ensures |r| <= |s|
  {
    Seqs.Sort(Seqs.Filter(s, keep), le)
  }

  /** The listing holds exactly the kept elements, each as often as in `s`. */
  lemma ListedExact<T(!new)>(s: seq<T>, keep: T -> bool, le: (T, T) -> bool)
    ensures forall x :: x in Listed(s, keep, le) <==> x in s && keep(x)
    ensures forall x :: multiset(Listed(s, keep, le))[x] == if keep(x) then multiset(s)[x] else 0
  {
    Seqs.FilterMultiset(s, keep);
    forall x ensures x in Listed(s, keep, le) <==> x in s && keep(x) {
      Seqs.FilterMember(s, keep, x);
      Seqs.SortMember(Seqs.Filter(s, keep), le, x);
    }
  }

  /** A consistent comparator leaves the listing in its order. */
  lemma ListedSorted<T(!new)>(s: seq<T>, keep: T -> bool, le: (T, T) -> bool)
    requires Seqs.TotalPreorder(le)
    ensures Seqs.SortedBy(Listed(s, keep, le), le)
  {
    Seqs.SortSorted(Seqs.Filter(s, keep), le);
  }

  /** The constant comparator keeps the order the filter left. */
  lemma ListedUnordered<T(!new)>(s: seq<T>, keep: T -> bool)
    ensures Listed(s, keep, Unordered<T>()) == Seqs.Filter(s, keep)
  {
    Seqs.SortOfSorted(Seqs.Filter(s, keep), Unordered<T>());
  }

  /** When every element is kept, the listing is a permutation of `s`. */
  lemma ListedKeepsAll<T(!new)>(s: seq<T>, keep: T -> bool, le: (T, T) -> bool)
    requires forall i | 0 <= i < |s| :: keep(s[i])
    ensures multiset(Listed(s, keep, le)) == multiset(s)
  {
  }
}
