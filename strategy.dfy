/** The Strategy pattern: a searchable collection of strings whose search algorithm
    (exact match, or case-insensitive substring) is chosen at run time. */
module Strategy {
  import opened Wrappers

  /** The two concrete strategies. */
  datatype SearchStrategy = SearchWithEquals | SearchWithContains

  /** Ordinal case folding, for the ASCII letters. */
  function FoldCase(c: char): char
  {
    if 'a' <= c <= 'z' then (c as int - 32) as char else c
  }

  function Fold(s: string): (r: string)
    ensures |r| == |s| && forall i :: 0 <= i < |s| ==> r[i] == FoldCase(s[i])
  {
    seq(|s|, i requires 0 <= i < |s| => FoldCase(s[i]))
  }

  /** `criteria` occurs in `value` at position `i`, letters compared without regard to case. */
  predicate OccursAt(value: string, criteria: string, i: int)
  {
    0 <= i && i + |criteria| <= |value| && Fold(value[i..i + |criteria|]) == Fold(criteria)
  }

  /** `criteria` occurs somewhere in `value`, letters compared without regard to case. */
  predicate ContainsIgnoringCase(value: string, criteria: string)
  {
    exists i :: 0 <= i <= |value| && OccursAt(value, criteria, i)
  }

  /** The test each strategy applies to one element. Both accept a value equal to the
      criteria; for empty criteria, the substring test accepts every value and the exact
      test only the empty one. */
  predicate Matches(strategy: SearchStrategy, value: string, criteria: string)
    ensures value == criteria ==> Matches(strategy, value, criteria)
    ensures criteria == [] ==> (Matches(strategy, value, criteria) <==> strategy == SearchWithContains || value == [])
  {
    assert value[0..|value|] == value;
    assert value == criteria ==> OccursAt(value, criteria, 0);
    assert criteria == [] ==> OccursAt(value, criteria, 0);
    match strategy
    case SearchWithEquals => value == criteria
    case SearchWithContains => ContainsIgnoringCase(value, criteria)
  }

  /** `a` is `b` with some elements left out. */
  predicate IsSubsequence<T(==)>(a: seq<T>, b: seq<T>)
  {
    if a == [] then true
    else if b == [] then false
    else if a[0] == b[0] then IsSubsequence(a[1..], b[1..])
    else IsSubsequence(a, b[1..])
  }

  /** A strategy's search: the elements it accepts, in collection order. The result keeps
      every accepted element as often as it occurs and nothing else. */
  function Filter(s: seq<string>, strategy: SearchStrategy, criteria: string): (r: seq<string>)
    ensures IsSubsequence(r, s)
    ensures forall x :: multiset(r)[x] == if Matches(strategy, x, criteria) then multiset(s)[x] else 0
  {
    if s == [] then []
    else
      var rest := Filter(s[1..], strategy, criteria);
      assert s == [s[0]] + s[1..];
      if Matches(strategy, s[0], criteria) then
        assert ([s[0]] + rest)[1..] == rest;
        [s[0]] + rest
      else rest
  }

  /** Exact matching finds the copies of the criteria and nothing else. */
  lemma {:induction false} EqualsFindsCopies(s: seq<string>, criteria: string)
    ensures var r := Filter(s, SearchWithEquals, criteria);
            |r| == multiset(s)[criteria] && forall i :: 0 <= i < |r| ==> r[i] == criteria
  {
    if s != [] {
      var rest := Filter(s[1..], SearchWithEquals, criteria);
      EqualsFindsCopies(s[1..], criteria);
      assert s == [s[0]] + s[1..];
      assert multiset(s)[criteria] == multiset(s[1..])[criteria] + (if s[0] == criteria then 1 else 0);
      if s[0] == criteria {
        assert Filter(s, SearchWithEquals, criteria) == [s[0]] + rest;
      } else {
        assert Filter(s, SearchWithEquals, criteria) == rest;
      }
    }
  }

  /** Whatever exact matching finds, substring matching finds too. */
  lemma EqualsWithinContains(s: seq<string>, criteria: string)
    ensures forall x :: multiset(Filter(s, SearchWithEquals, criteria))[x]
                     <= multiset(Filter(s, SearchWithContains, criteria))[x]
  {
    forall x
      ensures multiset(Filter(s, SearchWithEquals, criteria))[x]
           <= multiset(Filter(s, SearchWithContains, criteria))[x]
    {
      if x == criteria {
        assert x[0..|criteria|] == x;
        assert OccursAt(x, criteria, 0);
      }
    }
  }

  /** The empty criteria occurs in every string, so substring search returns everything. */
  lemma {:induction false} EmptyCriteriaMatchesAll(s: seq<string>)
    ensures Filter(s, SearchWithContains, "") == s
  {
    if s != [] {
      assert OccursAt(s[0], "", 0);
      EmptyCriteriaMatchesAll(s[1..]);
    }
  }

  lemma FoldIdempotent(s: string)
    ensures Fold(Fold(s)) == Fold(s)
  {
  }

  /** Substring search does not see the case of the criteria's letters. */
  lemma ContainsIgnoresCriteriaCase(value: string, criteria: string)
    ensures ContainsIgnoringCase(value, criteria) <==> ContainsIgnoringCase(value, Fold(criteria))
  {
    FoldIdempotent(criteria);
    forall i | 0 <= i <= |value|
      ensures OccursAt(value, criteria, i) <==> OccursAt(value, Fold(criteria), i)
    {
    }
  }

  /** The context: the collection and its current strategy, if any. */
  class SearchableCollection {
    var items: seq<string>
    var strategy: Option<SearchStrategy>

    constructor ()
      ensures items == [] && strategy.None?
    {
      items := [];
      strategy := None;
    }

    method Add(value: string)
      modifies this
      ensures items == old(items) + [value] && strategy == old(strategy)
    {
      items := items + [value];
    }

    /** Replaces the strategy; `None` removes it. */
    method SetStrategy(s: Option<SearchStrategy>)
      modifies this
      ensures strategy == s && items == old(items)
    {
      strategy := s;
    }

    /** Without a strategy nothing is found; otherwise the strategy's search over the items. */
    function Search(criteria: string): (r: seq<string>)
      reads this
      ensures strategy.None? ==> r == []
      ensures strategy.Some? ==> r == Filter(items, strategy.value, criteria)
    {
      if strategy.None? then [] else Filter(items, strategy.value, criteria)
    }
  }

  /** "Do" occurs in "Natasha Froddond" only as "do": the case of letters is ignored. */
  lemma CaseBlindOccurrence()
    ensures ContainsIgnoringCase("Natasha Froddond", "Do")
    ensures ContainsIgnoringCase("John Doe", "Do")
  {
    assert "Natasha Froddond"[12..14] == "do";
    assert OccursAt("Natasha Froddond", "Do", 12);
    assert "John Doe"[5..7] == "Do";
    assert OccursAt("John Doe", "Do", 5);
  }

  lemma NoOccurrence()
    ensures !ContainsIgnoringCase("Toby Chassuller", "Do")
  {
    forall i | 0 <= i <= 15
      ensures !OccursAt("Toby Chassuller", "Do", i)
    {
      if i + 2 <= 15 {
        assert Fold("Toby Chassuller"[i..i + 2])[0] == FoldCase("Toby Chassuller"[i]);
      }
    }
  }

  /** Part of the example scenario's substring search: names containing "Do" in any case
      are found, in collection order. */
  lemma ContainsScenario()
    ensures Filter(["John Doe", "Toby Chassuller", "Natasha Froddond"], SearchWithContains, "Do")
         == ["John Doe", "Natasha Froddond"]
  {
    CaseBlindOccurrence();
    NoOccurrence();
    var s := ["John Doe", "Toby Chassuller", "Natasha Froddond"];
    assert s[1..] == ["Toby Chassuller", "Natasha Froddond"];
    assert s[1..][1..] == ["Natasha Froddond"];
    assert s[1..][1..][1..] == [];
  }

  /** The example scenario, on the exact-match searches: nothing is found without a
      strategy, and exact matching finds the one full name. */
  method SearchScenario()
  {
    var collection := new SearchableCollection();
    collection.Add("John Doe");
    collection.Add("Jane Doe");
    collection.Add("Toby Chassuller");
    assert collection.Search("John Doe") == [];
    collection.SetStrategy(Some(SearchWithEquals));
    EqualsFindsCopies(collection.items, "John Doe");
    assert collection.items == ["John Doe", "Jane Doe", "Toby Chassuller"];
    assert multiset(collection.items)["John Doe"] == 1;
    assert collection.Search("John Doe") == ["John Doe"];
  }
}
