/** The Iterator pattern: a sentence split into words, traversed by an explicit
    iterator (HasNext / Next) and by an enumerator (MoveNext / Current / Reset). */
module Iterator {
  import opened Wrappers

  /** The characters that separate words: space, full stop, comma and apostrophe. */
  predicate IsDelimiter(c: char)
  {
    c == ' ' || c == '.' || c == ',' || c == '\''
  }

  /** A word is a non-empty run of characters none of which is a delimiter. */
  predicate IsWord(w: string)
  {
    |w| > 0 && forall i :: 0 <= i < |w| ==> !IsDelimiter(w[i])
  }

  predicate AllWords(ws: seq<string>)
  {
    forall i :: 0 <= i < |ws| ==> IsWord(ws[i])
  }

  predicate NoDelimiters(s: string)
  {
    forall i :: 0 <= i < |s| ==> !IsDelimiter(s[i])
  }

  /** The non-delimiter characters of `s`, in order. */
  function Letters(s: string): string
  {
    if s == [] then [] else (if IsDelimiter(s[0]) then [] else [s[0]]) + Letters(s[1..])
  }

  function Concat(ws: seq<string>): string
  {
    if ws == [] then [] else ws[0] + Concat(ws[1..])
  }

  /** The words joined with one separator character between neighbours. */
  function Join(ws: seq<string>, separator: char): string
  {
    if ws == [] then []
    else if |ws| == 1 then ws[0]
    else ws[0] + [separator] + Join(ws[1..], separator)
  }

  /** Ends the current run of word characters: it is a word unless it is empty. */
  function Flush(run: string): seq<string>
  {
    if run == [] then [] else [run]
  }

  /** Scans `s` left to right, `run` holding the word characters read since the last
      delimiter; each maximal run becomes one word, and the pending run opens the first. */
  function Scan(s: string, run: string): (words: seq<string>)
    ensures run != [] ==> |words| > 0 && |words[0]| >= |run| && words[0][..|run|] == run
    decreases |s|
  {
    if s == [] then Flush(run)
    else if IsDelimiter(s[0]) then Flush(run) + Scan(s[1..], [])
    else Scan(s[1..], run + [s[0]])
  }

  /** The words of a sentence: the maximal runs of non-delimiters; a missing sentence has none. */
  function SplitWords(sentence: Option<string>): (words: seq<string>)
    ensures forall i :: 0 <= i < |words| ==> IsWord(words[i])
    ensures Concat(words) == Letters(if sentence.Some? then sentence.value else [])
    ensures sentence.None? ==> words == []
  {
    var s := if sentence.Some? then sentence.value else [];
    ScanYieldsWords(s, []);
    ScanKeepsLetters(s, []);
    Scan(s, [])
  }

  lemma {:induction false} ScanYieldsWords(s: string, run: string)
    requires NoDelimiters(run)
    ensures AllWords(Scan(s, run))
    decreases |s|
  {
    if s != [] {
      if IsDelimiter(s[0]) {
        ScanYieldsWords(s[1..], []);
        assert Scan(s, run) == Flush(run) + Scan(s[1..], []);
        assert AllWords(Flush(run));
      } else {
        assert NoDelimiters(run + [s[0]]) by {
          forall i | 0 <= i < |run + [s[0]]|
            ensures !IsDelimiter((run + [s[0]])[i])
          {
            if i < |run| { assert (run + [s[0]])[i] == run[i]; }
          }
        }
        assert Scan(s, run) == Scan(s[1..], run + [s[0]]);
        ScanYieldsWords(s[1..], run + [s[0]]);
      }
    }
  }

  lemma {:induction false} ConcatAppend(a: seq<string>, b: seq<string>)
    ensures Concat(a + b) == Concat(a) + Concat(b)
  {
    if a == [] {
      assert a + b == b;
    } else {
      assert (a + b)[0] == a[0];
      assert (a + b)[1..] == a[1..] + b;
      ConcatAppend(a[1..], b);
    }
  }

  /** No character is lost or invented: the words hold exactly the non-delimiters of the input. */
  lemma {:induction false} ScanKeepsLetters(s: string, run: string)
    ensures Concat(Scan(s, run)) == run + Letters(s)
    decreases |s|
  {
    if s == [] {
      assert Concat(Flush(run)) == run;
    } else if IsDelimiter(s[0]) {
      ScanKeepsLetters(s[1..], []);
      DelimiterEndsRun(s, run);
    } else {
      ScanKeepsLetters(s[1..], run + [s[0]]);
      assert Letters(s) == [s[0]] + Letters(s[1..]);
      assert Scan(s, run) == Scan(s[1..], run + [s[0]]);
    }
  }

  /** A delimiter closes the current run and adds no letter. */
  lemma DelimiterEndsRun(s: string, run: string)
    requires s != [] && IsDelimiter(s[0])
    requires Concat(Scan(s[1..], [])) == [] + Letters(s[1..])
    ensures Concat(Scan(s, run)) == run + Letters(s)
  {
    assert Scan(s, run) == Flush(run) + Scan(s[1..], []);
    assert Letters(s) == Letters(s[1..]);
    ConcatAppend(Flush(run), Scan(s[1..], []));
    assert Concat(Flush(run)) == run;
  }

  /** Reading a stretch of word characters only extends the current run. */
  lemma {:induction false} ScanThroughWord(w: string, rest: string, run: string)
    requires NoDelimiters(w)
    ensures Scan(w + rest, run) == Scan(rest, run + w)
    decreases |w|
  {
    if w == [] {
      assert w + rest == rest && run + w == run;
    } else {
      assert (w + rest)[0] == w[0] && !IsDelimiter(w[0]);
      assert (w + rest)[1..] == w[1..] + rest;
      assert Scan(w + rest, run) == Scan(w[1..] + rest, run + [w[0]]);
      assert NoDelimiters(w[1..]) by {
        forall i | 0 <= i < |w[1..]| ensures !IsDelimiter(w[1..][i]) { assert w[1..][i] == w[i + 1]; }
      }
      ScanThroughWord(w[1..], rest, run + [w[0]]);
      assert run + [w[0]] + w[1..] == run + w;
    }
  }

  /** Splitting undoes joining: words joined by any delimiter split back into the same words. */
  lemma {:induction false} SplitJoin(ws: seq<string>, separator: char)
    requires IsDelimiter(separator)
    requires forall i :: 0 <= i < |ws| ==> IsWord(ws[i])
    ensures Scan(Join(ws, separator), []) == ws
  {
    if ws == [] {
    } else if |ws| == 1 {
      assert Join(ws, separator) == ws[0] + [];
      assert NoDelimiters(ws[0]) by { assert IsWord(ws[0]); }
      ScanThroughWord(ws[0], [], []);
      assert [] + ws[0] == ws[0];
      assert Scan([], ws[0]) == [ws[0]];
    } else {
      var rest := Join(ws[1..], separator);
      assert Join(ws, separator) == ws[0] + ([separator] + rest);
      assert NoDelimiters(ws[0]) by { assert IsWord(ws[0]); }
      ScanThroughWord(ws[0], [separator] + rest, []);
      assert ([separator] + rest)[1..] == rest;
      SplitJoin(ws[1..], separator);
      assert [] + ws[0] == ws[0];
      assert [ws[0]] + ws[1..] == ws;
    }
  }

  /** Every delimiter is a word boundary: what lies before it and what lies after it are
      scanned apart, so no word reaches across a delimiter. */
  lemma {:induction false} ScanSplitsAtDelimiter(s1: string, d: char, s2: string, run: string)
    requires IsDelimiter(d)
    ensures Scan(s1 + [d] + s2, run) == Scan(s1, run) + Scan(s2, [])
    decreases |s1|
  {
    if s1 == [] {
      assert s1 + [d] + s2 == [d] + s2;
      assert Scan([d] + s2, run) == Flush(run) + Scan(s2, []);
    } else {
      assert (s1 + [d] + s2)[0] == s1[0];
      assert (s1 + [d] + s2)[1..] == s1[1..] + [d] + s2;
      if IsDelimiter(s1[0]) {
        ScanSplitsAtDelimiter(s1[1..], d, s2, []);
        assert Flush(run) + (Scan(s1[1..], []) + Scan(s2, [])) == (Flush(run) + Scan(s1[1..], [])) + Scan(s2, []);
      } else {
        ScanSplitsAtDelimiter(s1[1..], d, s2, run + [s1[0]]);
      }
    }
  }

  /** Between two boundaries, a run of word characters is kept whole as one word. */
  lemma ScanOfWord(w: string)
    requires IsWord(w)
    ensures Scan(w, []) == [w]
  {
    assert NoDelimiters(w);
    ScanThroughWord(w, [], []);
    assert w + [] == w && [] + w == w;
    assert Scan([], w) == [w];
  }

  /** The same two facts for the words of a sentence: a delimiter separates the words before it
      from those after it, and a sentence that is a single word yields exactly that word. */
  lemma SplitWordsMaximal(s1: string, d: char, s2: string, w: string)
    requires IsDelimiter(d) && IsWord(w)
    ensures SplitWords(Some(s1 + [d] + s2)) == SplitWords(Some(s1)) + SplitWords(Some(s2))
    ensures SplitWords(Some(w)) == [w]
  {
    ScanSplitsAtDelimiter(s1, d, s2, []);
    ScanOfWord(w);
  }

  /** A trailing delimiter adds no word. */
  lemma {:induction false} ScanTrailingDelimiter(s: string, run: string, d: char)
    requires IsDelimiter(d)
    ensures Scan(s + [d], run) == Scan(s, run)
    decreases |s|
  {
    if s == [] {
      assert Scan([d], run) == Flush(run) + Scan([], []);
    } else {
      assert (s + [d])[0] == s[0];
      assert (s + [d])[1..] == s[1..] + [d];
      if IsDelimiter(s[0]) {
        ScanTrailingDelimiter(s[1..], [], d);
      } else {
        ScanTrailingDelimiter(s[1..], run + [s[0]], d);
      }
    }
  }

  const Pangram: string := "The quick brown fox jumps over the lazy dog."
  const PangramWords: seq<string> := ["The", "quick", "brown", "fox", "jumps", "over", "the", "lazy", "dog"]

  lemma JoinTail(ws: seq<string>, k: nat, tail: string)
    requires k + 1 < |ws| && Join(ws[k + 1..], ' ') == tail
    ensures Join(ws[k..], ' ') == ws[k] + [' '] + tail
  {
    assert ws[k..][1..] == ws[k + 1..];
  }

  /** The example sentence, written as its words with the spaces and the full stop. */
  lemma PangramPieces()
    ensures Pangram == "The" + [' '] + ("quick" + [' '] + ("brown" + [' '] + ("fox" + [' '] + ("jumps" + [' '] + ("over" + [' '] + ("the" + [' '] + ("lazy" + [' '] + "dog"))))))) + ['.']
  {
    PangramTailPieces();
    PangramHalves();
    PangramHead("jumps" + [' '] + ("over" + [' '] + ("the" + [' '] + ("lazy" + [' '] + "dog"))));
  }

  lemma PangramTailPieces()
    ensures "jumps" + [' '] + ("over" + [' '] + ("the" + [' '] + ("lazy" + [' '] + "dog"))) + ['.'] == "jumps over the lazy dog."
  {
  }

  lemma PangramHalves()
    ensures Pangram == "The quick brown fox " + "jumps over the lazy dog."
  {
  }

  lemma PangramHead(tail: string)
    ensures "The" + [' '] + ("quick" + [' '] + ("brown" + [' '] + ("fox" + [' '] + tail))) + ['.']
         == "The quick brown fox " + (tail + ['.'])
  {
  }

  lemma PangramTailIsJoin()
    ensures Join(PangramWords[4..], ' ') == "jumps" + [' '] + ("over" + [' '] + ("the" + [' '] + ("lazy" + [' '] + "dog")))
  {
    var ws := PangramWords;
    var t := "dog";
    assert Join(ws[8..], ' ') == t;
    JoinTail(ws, 7, t); t := "lazy" + [' '] + t;
    JoinTail(ws, 6, t); t := "the" + [' '] + t;
    JoinTail(ws, 5, t); t := "over" + [' '] + t;
    JoinTail(ws, 4, t);
  }

  /** The example sentence is its words joined by spaces, followed by a full stop. */
  lemma PangramIsJoin()
    ensures Pangram == Join(PangramWords, ' ') + ['.']
  {
    var ws := PangramWords;
    var t := "jumps" + [' '] + ("over" + [' '] + ("the" + [' '] + ("lazy" + [' '] + "dog")));
    PangramTailIsJoin();
    JoinTail(ws, 3, t); t := "fox" + [' '] + t;
    JoinTail(ws, 2, t); t := "brown" + [' '] + t;
    JoinTail(ws, 1, t); t := "quick" + [' '] + t;
    JoinTail(ws, 0, t);
    assert ws[0..] == ws;
    PangramPieces();
  }

  lemma PangramWordsAreWords()
    ensures forall i :: 0 <= i < |PangramWords| ==> IsWord(PangramWords[i])
  {
    forall i | 0 <= i < |PangramWords|
      ensures IsWord(PangramWords[i])
    {
    }
  }

  /** The example sentence splits into its nine words, without the full stop. */
  lemma PangramSplit()
    ensures SplitWords(Some(Pangram)) == PangramWords
  {
    PangramIsJoin();
    PangramWordsAreWords();
    SplitJoin(PangramWords, ' ');
    ScanTrailingDelimiter(Join(PangramWords, ' '), [], '.');
  }

  /** The aggregate: a sentence holds its words. */
  class Sentence {
    const words: seq<string>

    constructor (sentence: Option<string>)
      ensures words == SplitWords(sentence)
    {
      words := SplitWords(sentence);
    }

    method CreateIterator() returns (it: WordsIterator)
      ensures fresh(it) && it.sentence == this && it.index == 0 && it.Valid()
    {
      it := new WordsIterator(this);
    }
  }

  /** The iterator: a position in the words of one sentence. */
  class WordsIterator {
    const sentence: Sentence
    var index: nat

    ghost predicate Valid()
      reads this
    {
      index <= |sentence.words|
    }

    constructor (sentence: Sentence)
      ensures this.sentence == sentence && index == 0 && Valid()
    {
      this.sentence := sentence;
      index := 0;
    }

    function HasNext(): (r: bool)
      reads this
      ensures r <==> index < |sentence.words|
    {
      |sentence.words| > index
    }

    /** The word at the position, moving past it; nothing once the words are used up. */
    method Next() returns (w: Option<string>)
      requires Valid()
      modifies this
      ensures Valid()
      ensures old(index) < |sentence.words| ==> w == Some(sentence.words[old(index)]) && index == old(index) + 1
      ensures old(index) >= |sentence.words| ==> w == None && index == old(index)
    {
      if HasNext() {
        w := Some(sentence.words[index]);
        index := index + 1;
      } else {
        w := None;
      }
    }
  }

  /** The client loop: calling Next while HasNext holds yields the remaining words in order. */
  method ReadAll(it: WordsIterator) returns (words: seq<string>)
    requires it.Valid()
    modifies it
    ensures it.Valid() && !it.HasNext()
    ensures words == it.sentence.words[old(it.index)..]
  {
    words := [];
    while it.HasNext()
      invariant it.Valid() && old(it.index) <= it.index
      invariant words == it.sentence.words[old(it.index)..it.index]
      decreases |it.sentence.words| - it.index
    {
      var w := it.Next();
      words := words + [w.value];
    }
  }

  /** The enumerable aggregate of the same words. */
  class SentenceAsEnumerable {
    const words: seq<string>

    constructor (sentence: Option<string>)
      ensures words == SplitWords(sentence)
    {
      words := SplitWords(sentence);
    }

    method GetEnumerator() returns (e: WordsEnumerator)
      ensures fresh(e) && e.sentence == this && e.index == 0 && e.current.None? && e.Valid()
    {
      e := new WordsEnumerator(this);
    }
  }

  /** The enumerator: a position and the word last moved onto. */
  class WordsEnumerator {
    const sentence: SentenceAsEnumerable
    var index: nat
    var current: Option<string>

    ghost predicate Valid()
      reads this
    {
      && index <= |sentence.words|
      && (current.Some? <==> index > 0)
      && (index > 0 ==> current.value == sentence.words[index - 1])
    }

    constructor (sentence: SentenceAsEnumerable)
      ensures this.sentence == sentence && index == 0 && current.None? && Valid()
    {
      this.sentence := sentence;
      index := 0;
      current := None;
    }

    /** Moves onto the next word and reports whether there was one; at the end nothing changes. */
    method MoveNext() returns (moved: bool)
      requires Valid()
      modifies this
      ensures Valid()
      ensures moved <==> old(index) < |sentence.words|
      ensures moved ==> index == old(index) + 1 && current == Some(sentence.words[old(index)])
      ensures !moved ==> index == old(index) && current == old(current)
    {
      if |sentence.words| > index {
        current := Some(sentence.words[index]);
        index := index + 1;
        moved := true;
      } else {
        moved := false;
      }
    }

    /** Back to before the first word. */
    method Reset()
      modifies this
      ensures Valid() && index == 0 && current.None?
    {
      index := 0;
      current := None;
    }
  }

  /** The foreach loop: MoveNext then Current, until MoveNext reports the end. */
  method EnumerateAll(e: WordsEnumerator) returns (words: seq<string>)
    requires e.Valid()
    modifies e
    ensures e.Valid() && e.index == |e.sentence.words|
    ensures words == e.sentence.words[old(e.index)..]
  {
    words := [];
    var moved := e.MoveNext();
    while moved
      invariant e.Valid() && old(e.index) <= e.index
      invariant moved ==> e.index > old(e.index)
      invariant !moved ==> e.index == |e.sentence.words|
      invariant words + (if moved then [e.current.value] else []) == e.sentence.words[old(e.index)..e.index]
      decreases |e.sentence.words| - e.index, moved
    {
      words := words + [e.current.value];
      moved := e.MoveNext();
    }
  }

  /** The example scenario: the iterator yields the nine words of the sentence, then stops;
      the enumerable yields the same nine words. */
  method TraversalScenario()
  {
    PangramSplit();
    var sentence := new Sentence(Some(Pangram));
    IteratorTraversal(sentence);
    var enumerable := new SentenceAsEnumerable(Some(Pangram));
    EnumeratorTraversal(enumerable);
  }

  method IteratorTraversal(sentence: Sentence)
    requires sentence.words == PangramWords
  {
    var it := sentence.CreateIterator();
    var first := it.Next();
    assert first == Some("The");
    var rest := ReadAll(it);
    assert rest == PangramWords[1..];
    assert !it.HasNext();
  }

  method EnumeratorTraversal(enumerable: SentenceAsEnumerable)
    requires enumerable.words == PangramWords
  {
    var e := enumerable.GetEnumerator();
    var all := EnumerateAll(e);
    assert all == PangramWords;
    var moved := e.MoveNext();
    assert !moved;
  }
}
