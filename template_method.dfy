/** The Template Method pattern: an ordered collection whose Add finds an
    insertion index with a primitive operation supplied by the concrete class
    (ascending or descending) and inserts the value there. */
module TemplateMethod {

  ghost predicate Ascending(s: seq<int>)
  {
    forall i, j :: 0 <= i < j < |s| ==> s[i] <= s[j]
  }

  ghost predicate Descending(s: seq<int>)
  {
    forall i, j :: 0 <= i < j < |s| ==> s[i] >= s[j]
  }

  /** Ascending primitive: scans down from the end and returns the position just after
      the last element not greater than the value (0 when there is none). */
  method AscendingFindIndex(source: seq<int>, value: int) returns (index: nat)
    ensures index <= |source|
    ensures index > 0 ==> source[index - 1] <= value
    ensures forall j :: index <= j < |source| ==> value < source[j]
  {
    var i := |source|;
    while i > 0
      invariant 0 <= i <= |source|
      invariant forall j :: i <= j < |source| ==> value < source[j]
    {
      if value >= source[i - 1] {
        return i;
      }
      i := i - 1;
    }
    return 0;
  }

  /** Descending primitive: scans up from the start and returns the position of the first
      element not greater than the value (the length when there is none). */
  method DescendingFindIndex(source: seq<int>, value: int) returns (index: nat)
    ensures index <= |source|
    ensures index < |source| ==> source[index] <= value
    ensures forall j :: 0 <= j < index ==> value < source[j]
  {
    var i := 0;
    while i < |source|
      invariant 0 <= i <= |source|
      invariant forall j :: 0 <= j < i ==> value < source[j]
    {
      if value >= source[i] {
        return i;
      }
      i := i + 1;
    }
    return |source|;
  }

  /** Reference insertion into an ascending list: the value goes after every element
      not greater than it. */
  function AscendingInsert(s: seq<int>, value: int): (r: seq<int>)
    ensures |r| == |s| + 1
    ensures multiset(r) == multiset(s) + multiset{value}
  {
    if s == [] then [value]
    else if value < s[0] then [value] + s
    else
      assert s == [s[0]] + s[1..];
      [s[0]] + AscendingInsert(s[1..], value)
  }

  /** Reference insertion into a descending list: the value goes before the first
      element not greater than it. */
  function DescendingInsert(s: seq<int>, value: int): (r: seq<int>)
    ensures |r| == |s| + 1
    ensures multiset(r) == multiset(s) + multiset{value}
  {
    if s == [] then [value]
    else if value >= s[0] then [value] + s
    else
      assert s == [s[0]] + s[1..];
      [s[0]] + DescendingInsert(s[1..], value)
  }

  lemma AscendingTail(s: seq<int>)
    requires Ascending(s) && s != []
    ensures Ascending(s[1..])
  {
    forall i, j | 0 <= i < j < |s| - 1
      ensures s[1..][i] <= s[1..][j]
    {
      assert s[1..][i] == s[i + 1] && s[1..][j] == s[j + 1];
    }
  }

  lemma DescendingTail(s: seq<int>)
    requires Descending(s) && s != []
    ensures Descending(s[1..])
  {
    forall i, j | 0 <= i < j < |s| - 1
      ensures s[1..][i] >= s[1..][j]
    {
      assert s[1..][i] == s[i + 1] && s[1..][j] == s[j + 1];
    }
  }

  /** Inserting at a position of `s` is inserting at the next position of the head's tail. */
  lemma SpliceOfTail(s: seq<int>, value: int, index: nat)
    requires 0 < index <= |s|
    ensures s[..index] + [value] + s[index..] == [s[0]] + (s[1..][..index - 1] + [value] + s[1..][index - 1..])
  {
    assert s[..index] == [s[0]] + s[1..][..index - 1];
    assert s[index..] == s[1..][index - 1..];
  }

  /** On an ascending list, inserting at the index the ascending primitive returns is the
      reference insertion: the value lands after all existing equal values. */
  lemma {:induction false} AscendingInsertAt(s: seq<int>, value: int, index: nat)
    requires Ascending(s)
    requires index <= |s|
    requires index > 0 ==> s[index - 1] <= value
    requires forall j :: index <= j < |s| ==> value < s[j]
    ensures s[..index] + [value] + s[index..] == AscendingInsert(s, value)
  {
    if index == 0 {
      assert s[..index] + [value] + s[index..] == [value] + s;
    } else {
      assert s[0] <= s[index - 1];
      AscendingTail(s);
      AscendingInsertAt(s[1..], value, index - 1);
      SpliceOfTail(s, value, index);
    }
  }

  /** On a descending list, inserting at the index the descending primitive returns is the
      reference insertion: the value lands before the first existing equal value. */
  lemma {:induction false} DescendingInsertAt(s: seq<int>, value: int, index: nat)
    requires Descending(s)
    requires index <= |s|
    requires index < |s| ==> s[index] <= value
    requires forall j :: 0 <= j < index ==> value < s[j]
    ensures s[..index] + [value] + s[index..] == DescendingInsert(s, value)
  {
    if index == 0 {
      assert s[..index] + [value] + s[index..] == [value] + s;
    } else {
      assert value < s[0];
      DescendingTail(s);
      DescendingInsertAt(s[1..], value, index - 1);
      SpliceOfTail(s, value, index);
    }
  }

  /** Inserting a value no smaller than a bound into a list no smaller than it keeps
      every element at or above the bound. */
  lemma {:induction false} AscendingInsertBounded(s: seq<int>, value: int, bound: int)
    requires forall i :: 0 <= i < |s| ==> bound <= s[i]
    requires bound <= value
    ensures forall k :: 0 <= k < |AscendingInsert(s, value)| ==> bound <= AscendingInsert(s, value)[k]
  {
    if s != [] && value >= s[0] {
      AscendingInsertBounded(s[1..], value, bound);
    }
  }

  lemma {:induction false} DescendingInsertBounded(s: seq<int>, value: int, bound: int)
    requires forall i :: 0 <= i < |s| ==> s[i] <= bound
    requires value <= bound
    ensures forall k :: 0 <= k < |DescendingInsert(s, value)| ==> DescendingInsert(s, value)[k] <= bound
  {
    if s != [] && value < s[0] {
      DescendingInsertBounded(s[1..], value, bound);
    }
  }

  /** Ascending insertion keeps an ascending list ascending. */
  lemma {:induction false} AscendingInsertSorted(s: seq<int>, value: int)
    requires Ascending(s)
    ensures Ascending(AscendingInsert(s, value))
  {
    if s != [] && value >= s[0] {
      AscendingTail(s);
      AscendingInsertSorted(s[1..], value);
      AscendingInsertBounded(s[1..], value, s[0]);
    }
  }

  /** Descending insertion keeps a descending list descending. */
  lemma {:induction false} DescendingInsertSorted(s: seq<int>, value: int)
    requires Descending(s)
    ensures Descending(DescendingInsert(s, value))
  {
    if s != [] && value < s[0] {
      DescendingTail(s);
      DescendingInsertSorted(s[1..], value);
      DescendingInsertBounded(s[1..], value, s[0]);
    }
  }

  /** The abstract class with its two concrete orders: `ascending` selects the primitive. */
  class OrderedCollection {
    const ascending: bool
    var items: seq<int>

    ghost predicate Valid()
      reads this
    {
      if ascending then Ascending(items) else Descending(items)
    }

    constructor (ascending: bool)
      ensures Valid() && this.ascending == ascending && items == []
    {
      this.ascending := ascending;
      items := [];
    }

    /** The template method: find the index with the primitive, insert the value there. */
    method Add(value: int)
      requires Valid()
      modifies this
      ensures Valid()
      ensures items == if ascending then AscendingInsert(old(items), value)
                                    else DescendingInsert(old(items), value)
    {
      var index: nat;
      if ascending {
        index := AscendingFindIndex(items, value);
        AscendingInsertAt(items, value, index);
        AscendingInsertSorted(items, value);
      } else {
        index := DescendingFindIndex(items, value);
        DescendingInsertAt(items, value, index);
        DescendingInsertSorted(items, value);
      }
      items := items[..index] + [value] + items[index..];
    }
  }

  /** The contents after adding the values `xs`, one by one and in order, to a collection
      holding `items`. */
  function AddSequence(ascending: bool, items: seq<int>, xs: seq<int>): seq<int>
    decreases xs
  {
    if xs == [] then items
    else
      var next := if ascending then AscendingInsert(items, xs[0]) else DescendingInsert(items, xs[0]);
      AddSequence(ascending, next, xs[1..])
  }

  /** Adding any values holds every value once per occurrence, in addition to what was
      there. */
  lemma {:induction false} AddSequenceCounts(ascending: bool, items: seq<int>, xs: seq<int>)
    ensures multiset(AddSequence(ascending, items, xs)) == multiset(items) + multiset(xs)
    decreases xs
  {
    if xs != [] {
      assert multiset(xs) == multiset{xs[0]} + multiset(xs[1..]) by {
        assert xs == [xs[0]] + xs[1..];
      }
      if ascending {
        AddSequenceCounts(ascending, AscendingInsert(items, xs[0]), xs[1..]);
      } else {
        AddSequenceCounts(ascending, DescendingInsert(items, xs[0]), xs[1..]);
      }
    }
  }

  /** Adding any values keeps the collection in its order. */
  lemma {:induction false} AddSequenceOrdered(ascending: bool, items: seq<int>, xs: seq<int>)
    requires ascending ==> Ascending(items)
    requires !ascending ==> Descending(items)
    ensures ascending ==> Ascending(AddSequence(ascending, items, xs))
    ensures !ascending ==> Descending(AddSequence(ascending, items, xs))
    decreases xs
  {
    if xs != [] {
      if ascending {
        AscendingInsertSorted(items, xs[0]);
        AddSequenceOrdered(ascending, AscendingInsert(items, xs[0]), xs[1..]);
      } else {
        DescendingInsertSorted(items, xs[0]);
        AddSequenceOrdered(ascending, DescendingInsert(items, xs[0]), xs[1..]);
      }
    }
  }

  /** Adding any values keeps the collection in its order and holds every value once per
      occurrence, in addition to what was there. */
  lemma AddSequenceSorts(ascending: bool, items: seq<int>, xs: seq<int>)
    requires ascending ==> Ascending(items)
    requires !ascending ==> Descending(items)
    ensures multiset(AddSequence(ascending, items, xs)) == multiset(items) + multiset(xs)
    ensures ascending ==> Ascending(AddSequence(ascending, items, xs))
    ensures !ascending ==> Descending(AddSequence(ascending, items, xs))
  {
    AddSequenceCounts(ascending, items, xs);
    AddSequenceOrdered(ascending, items, xs);
  }

  /** The head of an ascending list is its least element. */
  lemma AscendingHeadIsLeast(s: seq<int>, x: int)
    requires Ascending(s) && x in multiset(s)
    ensures s[0] <= x
  {
    assert x in s;
    var i :| 0 <= i < |s| && s[i] == x;
    assert s[0] <= s[i];
  }

  /** The head of a descending list is its greatest element. */
  lemma DescendingHeadIsGreatest(s: seq<int>, x: int)
    requires Descending(s) && x in multiset(s)
    ensures s[0] >= x
  {
    assert x in s;
    var i :| 0 <= i < |s| && s[i] == x;
    assert s[0] >= s[i];
  }

  /** Dropping the head removes one occurrence of it. */
  lemma MultisetTail(s: seq<int>)
    requires s != []
    ensures multiset(s[1..]) == multiset(s) - multiset{s[0]}
  {
    assert s == [s[0]] + s[1..];
  }

  /** Two ascending lists with the same elements are equal: adding values to an empty
      ascending collection yields THE ascending permutation of those values. */
  lemma {:induction false} AscendingPermutationUnique(a: seq<int>, b: seq<int>)
    requires Ascending(a) && Ascending(b)
    requires multiset(a) == multiset(b)
    ensures a == b
  {
    if a != [] {
      assert a[0] in multiset(a);
      assert b != [];
      AscendingHeadIsLeast(a, b[0]);
      AscendingHeadIsLeast(b, a[0]);
      assert a[0] == b[0];
      MultisetTail(a);
      MultisetTail(b);
      AscendingTail(a);
      AscendingTail(b);
      AscendingPermutationUnique(a[1..], b[1..]);
      assert a == [a[0]] + a[1..];
      assert b == [b[0]] + b[1..];
    } else {
      assert |multiset(b)| == 0;
    }
  }


  /** Two descending lists with the same elements are equal. */
  lemma {:induction false} DescendingPermutationUnique(a: seq<int>, b: seq<int>)
    requires Descending(a) && Descending(b)
    requires multiset(a) == multiset(b)
    ensures a == b
  {
    if a != [] {
      assert a[0] in multiset(a);
      assert b != [];
      DescendingHeadIsGreatest(a, b[0]);
      DescendingHeadIsGreatest(b, a[0]);
      assert a[0] == b[0];
      MultisetTail(a);
      MultisetTail(b);
      DescendingTail(a);
      DescendingTail(b);
      DescendingPermutationUnique(a[1..], b[1..]);
      assert a == [a[0]] + a[1..];
      assert b == [b[0]] + b[1..];
    } else {
      assert |multiset(b)| == 0;
    }
  }

  /** Adding values to an empty collection yields exactly the sorted permutation of them. */
  lemma SortedPermutationOfInput(xs: seq<int>, sorted: seq<int>)
    requires multiset(sorted) == multiset(xs)
    ensures Ascending(sorted) ==> AddSequence(true, [], xs) == sorted
    ensures Descending(sorted) ==> AddSequence(false, [], xs) == sorted
  {
    AddSequenceSorts(true, [], xs);
    AddSequenceSorts(false, [], xs);
    if Ascending(sorted) {
      AscendingPermutationUnique(AddSequence(true, [], xs), sorted);
    }
    if Descending(sorted) {
      DescendingPermutationUnique(AddSequence(false, [], xs), sorted);
    }
  }
}
