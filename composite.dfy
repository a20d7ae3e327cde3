/** The Composite pattern: a single movie and a bundle of movies share one interface, a
    title; a bundle's title lists the titles of its members. */
module Composite {

  /** Joins strings with a separator between neighbours. */
  function Join(ss: seq<string>, separator: string): string
  {
    if ss == [] then ""
    else if |ss| == 1 then ss[0]
    else ss[0] + separator + Join(ss[1..], separator)
  }

  /** Joining two non-empty lists is joining each and putting one separator between. */
  lemma {:induction false} JoinAppend(a: seq<string>, b: seq<string>, separator: string)
    requires a != [] && b != []
    ensures Join(a + b, separator) == Join(a, separator) + separator + Join(b, separator)
  {
    if |a| == 1 {
      assert (a + b)[1..] == b;
    } else {
      assert (a + b)[1..] == a[1..] + b;
      JoinAppend(a[1..], b, separator);
    }
  }

  const BundlePrefix := "Bundle of: "
  const Separator := ", "

  /** A leaf (a movie) or a composite (a bundle of movies, which may hold bundles). */
  datatype Movie = Movie(name: string) | MovieBundle(movies: seq<Movie>)
  {
    /** A movie's title is its own name; a bundle's title opens with the bundle prefix. */
    function Title(): (t: string)
      ensures Movie? ==> t == name
      ensures MovieBundle? ==> |t| >= |BundlePrefix| && t[..|BundlePrefix|] == BundlePrefix
    {
      match this
      case Movie(name) => name
      case MovieBundle(movies) =>
        BundlePrefix + Join(seq(|movies|, i requires 0 <= i < |movies| => movies[i].Title()), Separator)
    }
  }

  function Titles(movies: seq<Movie>): (ts: seq<string>)
    ensures |ts| == |movies| && forall i :: 0 <= i < |movies| ==> ts[i] == movies[i].Title()
  {
    seq(|movies|, i requires 0 <= i < |movies| => movies[i].Title())
  }

  lemma TitlesAppend(a: seq<Movie>, b: seq<Movie>)
    ensures Titles(a + b) == Titles(a) + Titles(b)
  {
  }

  /** A bundle that can grow: its members are held in order. */
  class Bundle {
    var movies: seq<Movie>

    constructor (movies: seq<Movie>)
      ensures this.movies == movies
    {
      this.movies := movies;
    }

    /** The prefix followed by the members' titles, comma-separated. */
    function Title(): (t: string)
      reads this
      ensures t == BundlePrefix + Join(Titles(movies), Separator)
      ensures t == MovieBundle(movies).Title()
    {
      MovieBundle(movies).Title()
    }

    /** Appends the movies; a non-empty bundle's title gains their titles at the end. */
    method AddMovie(added: seq<Movie>)
      modifies this
      ensures movies == old(movies) + added
      ensures old(movies) != [] && added != [] ==>
                Title() == old(Title()) + Separator + Join(Titles(added), Separator)
    {
      movies := movies + added;
      if old(movies) != [] && added != [] {
        TitlesAppend(old(movies), added);
        JoinAppend(Titles(old(movies)), Titles(added), Separator);
      }
    }
  }

  /** The example scenario's first title: a bundle of one movie. */
  lemma OneMovieBundleTitle()
    ensures MovieBundle([Movie("Slow and Safe")]).Title() == "Bundle of: Slow and Safe"
  {
    assert Titles([Movie("Slow and Safe")]) == ["Slow and Safe"];
  }

  lemma TwoMoviesSpelling()
    ensures "Bundle of: Slow and Safe" + Separator + "The Beginnator" == "Bundle of: Slow and Safe, The Beginnator"
  {
  }

  /** The example scenario: two movies, a bundle of the first, then of both. */
  method BundleScenario()
  {
    var firstMovie := Movie("Slow and Safe");
    var secondMovie := Movie("The Beginnator");
    assert firstMovie.Title() == "Slow and Safe";
    var bundle := new Bundle([firstMovie]);
    OneMovieBundleTitle();
    assert bundle.Title() == "Bundle of: Slow and Safe";
    bundle.AddMovie([secondMovie]);
    assert Titles([secondMovie]) == ["The Beginnator"];
    TwoMoviesSpelling();
    assert bundle.Title() == "Bundle of: Slow and Safe, The Beginnator";
  }
}
