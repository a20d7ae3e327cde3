/** The Bridge pattern: a book's title layout (the abstraction) and the style its names
    are printed in (the implementation) vary independently. */
module Bridge {
  import opened Wrappers

  /** The font style's numeric values; any other value is out of range. */
  const UppercaseStyle := 0
  const NormalStyle := 1

  datatype BridgeError = StyleOutOfRange(fontStyle: int)

  /** The two concrete implementations. */
  datatype BookStyle = BookStyleUppercase | BookStyleNormal

  /** Maps a font style value to its implementation. */
  function GetBookStyle(fontStyle: int): (r: Result<BookStyle, BridgeError>)
    ensures r.Ok? <==> fontStyle == UppercaseStyle || fontStyle == NormalStyle
    ensures fontStyle == UppercaseStyle ==> r == Ok(BookStyleUppercase)
    ensures fontStyle == NormalStyle ==> r == Ok(BookStyleNormal)
    ensures r.Err? ==> r.error == StyleOutOfRange(fontStyle)
  {
    if fontStyle == UppercaseStyle then Ok(BookStyleUppercase)
    else if fontStyle == NormalStyle then Ok(BookStyleNormal)
    else Err(StyleOutOfRange(fontStyle))
  }

  function UpperChar(c: char): char
  {
    if 'a' <= c <= 'z' then (c as int - 32) as char else c
  }

  /** Upper-casing, for the ASCII letters. */
  function ToUpper(s: string): (r: string)
    ensures |r| == |s| && forall i :: 0 <= i < |s| ==> r[i] == UpperChar(s[i])
    ensures forall i :: 0 <= i < |r| ==> !('a' <= r[i] <= 'z')
  {
    seq(|s|, i requires 0 <= i < |s| => UpperChar(s[i]))
  }

  lemma ToUpperIdempotent(s: string)
    ensures ToUpper(ToUpper(s)) == ToUpper(s)
  {
  }

  /** How a style prints a name; a missing name stays missing. */
  function StyleName(style: BookStyle, name: Option<string>): (r: Option<string>)
    ensures r.Some? <==> name.Some?
    ensures style == BookStyleNormal ==> r == name
    ensures style == BookStyleUppercase && name.Some? ==> r.value == ToUpper(name.value)
  {
    match style
    case BookStyleUppercase => if name.Some? then Some(ToUpper(name.value)) else None
    case BookStyleNormal => name
  }

  /** String interpolation prints a missing string as nothing. */
  function Show(s: Option<string>): string
  {
    if s.Some? then s.value else ""
  }

  /** The two refined abstractions. */
  datatype TitleLayout = BookWithAuthorAndName | BookWithNameAndAuthor

  datatype Book = Book(layout: TitleLayout, authorName: Option<string>, bookName: Option<string>, style: BookStyle)
  {
    /** The author's name as the book's style shows it: as given, or upper-cased. */
    function AuthorName(): (r: Option<string>)
      ensures r.Some? <==> authorName.Some?
      ensures style == BookStyleNormal ==> r == authorName
      ensures style == BookStyleUppercase && authorName.Some? ==> r.value == ToUpper(authorName.value)
    {
      StyleName(style, authorName)
    }

    /** The book's name as the book's style shows it. */
    function BookName(): (r: Option<string>)
      ensures r.Some? <==> bookName.Some?
      ensures style == BookStyleNormal ==> r == bookName
      ensures style == BookStyleUppercase && bookName.Some? ==> r.value == ToUpper(bookName.value)
    {
      StyleName(style, bookName)
    }

    /** "<author>'s <book>" or "<book> by <author>", the names in the book's style: the title
        opens with one styled name and closes with the other, three or four characters
        apart. */
    function Title(): (t: string)
      ensures var author, book := Show(AuthorName()), Show(BookName());
              layout == BookWithAuthorAndName ==>
                |t| == |author| + 3 + |book| && t[..|author|] == author && t[|t| - |book|..] == book
      ensures var author, book := Show(AuthorName()), Show(BookName());
              layout == BookWithNameAndAuthor ==>
                |t| == |book| + 4 + |author| && t[..|book|] == book && t[|t| - |author|..] == author
    {
      match layout
      case BookWithAuthorAndName => Show(AuthorName()) + "'s " + Show(BookName())
      case BookWithNameAndAuthor => Show(BookName()) + " by " + Show(AuthorName())
    }
  }

  /** A book is built from a font style value; one out of range fails. */
  function NewBook(layout: TitleLayout, authorName: Option<string>, bookName: Option<string>, fontStyle: int): (r: Result<Book, BridgeError>)
    ensures r.Ok? <==> fontStyle == UppercaseStyle || fontStyle == NormalStyle
    ensures r.Ok? ==> r.value.layout == layout && r.value.authorName == authorName && r.value.bookName == bookName
    ensures r.Ok? ==> r.value.style == GetBookStyle(fontStyle).value
  {
    match GetBookStyle(fontStyle)
    case Ok(style) => Ok(Book(layout, authorName, bookName, style))
    case Err(e) => Err(e)
  }

  /** The two dimensions are independent: an upper-case book has the title of a normal book
      whose names were already upper-cased, in either layout; only the names change case,
      never the connecting words. */
  lemma StyleIndependentOfLayout(layout: TitleLayout, authorName: string, bookName: string)
    ensures Book(layout, Some(authorName), Some(bookName), BookStyleUppercase).Title()
         == Book(layout, Some(ToUpper(authorName)), Some(ToUpper(bookName)), BookStyleNormal).Title()
  {
  }

  /** The example scenario's normal-style titles. */
  lemma NormalAuthorAndNameTitle()
    ensures Book(BookWithAuthorAndName, Some("John Doe"), Some("Best book in the world"), BookStyleNormal).Title()
         == "John Doe's Best book in the world"
  {
    var b := Book(BookWithAuthorAndName, Some("John Doe"), Some("Best book in the world"), BookStyleNormal);
    assert b.AuthorName() == Some("John Doe") && b.BookName() == Some("Best book in the world");
    NormalPossessiveSpelling();
  }

  lemma NormalPossessiveSpelling()
    ensures "John Doe" + "'s " + "Best book in the world" == "John Doe's Best book in the world"
  {
  }

  lemma NormalNameAndAuthorTitle()
    ensures Book(BookWithNameAndAuthor, Some("John Doe"), Some("Best book in the world"), BookStyleNormal).Title()
         == "Best book in the world by John Doe"
  {
    var b := Book(BookWithNameAndAuthor, Some("John Doe"), Some("Best book in the world"), BookStyleNormal);
    assert b.AuthorName() == Some("John Doe") && b.BookName() == Some("Best book in the world");
    NormalBySpelling();
  }

  lemma NormalBySpelling()
    ensures "Best book in the world" + " by " + "John Doe" == "Best book in the world by John Doe"
  {
  }

  /** The example scenario's upper-case names. */
  lemma UppercaseNames()
    ensures ToUpper("John Doe") == "JOHN DOE"
    ensures ToUpper("Best book in the world") == "BEST BOOK IN THE WORLD"
  {
  }

  /** The example scenario's upper-case titles: the "'s" and "by" keep their case. */
  lemma UppercaseAuthorAndNameTitle()
    ensures Book(BookWithAuthorAndName, Some("John Doe"), Some("Best book in the world"), BookStyleUppercase).Title()
         == "JOHN DOE's BEST BOOK IN THE WORLD"
  {
    UppercaseNames();
    StyleIndependentOfLayout(BookWithAuthorAndName, "John Doe", "Best book in the world");
    PossessiveSpelling();
  }

  lemma PossessiveSpelling()
    ensures "JOHN DOE" + "'s " + "BEST BOOK IN THE WORLD" == "JOHN DOE's BEST BOOK IN THE WORLD"
  {
  }

  lemma UppercaseNameAndAuthorTitle()
    ensures Book(BookWithNameAndAuthor, Some("John Doe"), Some("Best book in the world"), BookStyleUppercase).Title()
         == "BEST BOOK IN THE WORLD by JOHN DOE"
  {
    UppercaseNames();
    StyleIndependentOfLayout(BookWithNameAndAuthor, "John Doe", "Best book in the world");
    assert "BEST BOOK IN THE WORLD" + " by " + "JOHN DOE" == "BEST BOOK IN THE WORLD by JOHN DOE";
  }
}
