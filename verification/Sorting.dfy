/** The stable sort of Go's `sort.SliceStable`, as a function of the slice. */
module Sorting {

  /** `less` is a strict weak order, which is what `sort` asks of its argument. */
  ghost predicate Order<T(!new)>(less: (T, T) -> bool) {
    && (forall a, b :: less(a, b) ==> !less(b, a))
    && (forall a, b, c :: !less(a, b) && !less(b, c) ==> !less(a, c))
  }

  ghost predicate Sorted<T>(s: seq<T>, less: (T, T) -> bool) {
    forall i, j | 0 <= i < j < |s| :: !less(s[j], s[i])
  }

  /** Put `x` after the last element it is not less than. */
  function Insert<T>(s: seq<T>, x: T, less: (T, T) -> bool): seq<T> {
    if s == [] || !less(x, s[|s| - 1]) then s + [x]
    else Insert(s[..|s| - 1], x, less) + [s[|s| - 1]]
  }

  function SliceStable<T>(s: seq<T>, less: (T, T) -> bool): seq<T> {
    if s == [] then [] else Insert(SliceStable(s[..|s| - 1], less), s[|s| - 1], less)
  }

  lemma {:induction false} InsertPermutes<T>(s: seq<T>, x: T, less: (T, T) -> bool)
    ensures multiset(Insert(s, x, less)) == multiset(s) + multiset{x}
  {
    if s != [] && less(x, s[|s| - 1]) {
      InsertPermutes(s[..|s| - 1], x, less);
      assert s == s[..|s| - 1] + [s[|s| - 1]];
    }
  }

  lemma {:induction false} SliceStablePermutes<T>(s: seq<T>, less: (T, T) -> bool)
    ensures multiset(SliceStable(s, less)) == multiset(s)
  {
    if s != [] {
      SliceStablePermutes(s[..|s| - 1], less);
      InsertPermutes(SliceStable(s[..|s| - 1], less), s[|s| - 1], less);
      assert s == s[..|s| - 1] + [s[|s| - 1]];
    }
  }

  lemma InsertMembers<T>(s: seq<T>, x: T, less: (T, T) -> bool)
    ensures forall y :: y in Insert(s, x, less) <==> y in s || y == x
  {
    InsertPermutes(s, x, less);
    assert forall y :: y in Insert(s, x, less) <==> y in multiset(s) + multiset{x};
  }

  lemma SliceStableMembers<T>(s: seq<T>, less: (T, T) -> bool)
    ensures forall y :: y in SliceStable(s, less) <==> y in s
  {
    SliceStablePermutes(s, less);
    assert forall y :: y in SliceStable(s, less) <==> y in multiset(s);
  }

  lemma InsertBeforeLast<T>(s: seq<T>, last: T, x: T, less: (T, T) -> bool)
    ensures Insert(s + [last], x, less) == if less(x, last) then Insert(s, x, less) + [last] else s + [last] + [x]
  {
    assert (s + [last])[..|s|] == s;
  }

  lemma AppendSorted<T(!new)>(s: seq<T>, x: T, less: (T, T) -> bool)
    requires Sorted(s, less) && forall y :: y in s ==> !less(x, y)
    ensures Sorted(s + [x], less)
  {
  }

  lemma {:induction false} InsertSorted<T(!new)>(s: seq<T>, x: T, less: (T, T) -> bool)
    requires Order(less) && Sorted(s, less)
    ensures Sorted(Insert(s, x, less), less)
  {
    if s == [] {
    } else {
      var front, last := s[..|s| - 1], s[|s| - 1];
      assert forall y :: y in front ==> !less(last, y);
      if !less(x, last) {
        assert forall y :: y in s ==> y in front || y == last;
        AppendSorted(s, x, less);
      } else {
        InsertSorted(front, x, less);
        InsertMembers(front, x, less);
        AppendSorted(Insert(front, x, less), last, less);
      }
    }
  }

  /** The result is sorted: with SliceStablePermutes, it is a sort. */
  lemma {:induction false} SliceStableSorted<T(!new)>(s: seq<T>, less: (T, T) -> bool)
    requires Order(less)
    ensures Sorted(SliceStable(s, less), less)
  {
    if s != [] {
      SliceStableSorted(s[..|s| - 1], less);
      InsertSorted(SliceStable(s[..|s| - 1], less), s[|s| - 1], less);
    }
  }

  /** Sorting a sorted slice changes nothing: equal elements keep their order. */
  lemma {:induction false} SortedUnchanged<T(!new)>(s: seq<T>, less: (T, T) -> bool)
    requires Sorted(s, less)
    ensures SliceStable(s, less) == s
  {
    if s != [] {
      var front := s[..|s| - 1];
      assert s == front + [s[|s| - 1]];
      SortedUnchanged(front, less);
      if front != [] {
        assert front[|front| - 1] == s[|s| - 2];
      }
    }
  }

  /** Appending to a sorted slice and sorting again is one insertion. */
  lemma AppendAndSort<T(!new)>(s: seq<T>, x: T, less: (T, T) -> bool)
    requires Sorted(s, less)
    ensures SliceStable(s + [x], less) == Insert(s, x, less)
  {
    assert (s + [x])[..|s|] == s;
    SortedUnchanged(s, less);
  }
}
