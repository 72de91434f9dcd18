/** How many lines of each kind the notification text holds. The properties
    are stated on the list of pieces: field values may themselves hold line
    breaks or Markdown, so the text alone does not determine which line a
    character came from. */
module MessageLayout {
  import opened Submission
  import opened Decimal
  import opened Formatter

  /** The kind of a piece, without its values. The constructors are listed in
      the order their sections appear in the message. */
  datatype Tag =
    | HeadingTag | NameTag | PhoneTag | EmailTag | CommentTag | TotalTag
    | ProductTag | SizeTag | MaterialTag | QuantityTag
    | GrommetsTag | GrommetCountTag
    | StandsTag | StandsHeadingTag | StandsEntryTag | StandsRawTag
    | FrameTag | FrameColorTag
    | FilesHeadingTag | FileLinkTag

  function TagOf(p: Piece): Tag {
    match p
    case Heading => HeadingTag
    case Name(_) => NameTag
    case Phone(_) => PhoneTag
    case Email(_) => EmailTag
    case Comment(_) => CommentTag
    case Total(_) => TotalTag
    case Product(_) => ProductTag
    case Size(_, _) => SizeTag
    case Material(_) => MaterialTag
    case Quantity(_) => QuantityTag
    case Grommets(_) => GrommetsTag
    case GrommetCount(_) => GrommetCountTag
    case Stands(_) => StandsTag
    case StandsHeading => StandsHeadingTag
    case StandsEntry(_, _) => StandsEntryTag
    case StandsRaw(_) => StandsRawTag
    case Frame(_) => FrameTag
    case FrameColor(_) => FrameColorTag
    case FilesHeading => FilesHeadingTag
    case FileLink(_, _, _) => FileLinkTag
  }

  /** How many pieces of kind `t` there are in `ps`. */
  function Count(ps: seq<Piece>, t: Tag): nat {
    if ps == [] then 0
    else Count(ps[..|ps| - 1], t) + (if TagOf(ps[|ps| - 1]) == t then 1 else 0)
  }

  // ---- Counting ----

  lemma {:induction false} CountAppend(a: seq<Piece>, b: seq<Piece>, t: Tag)
    ensures Count(a + b, t) == Count(a, t) + Count(b, t)
    decreases |b|
  {
    if b == [] {
      assert a + b == a;
    } else {
      var b', x := b[..|b| - 1], b[|b| - 1];
      assert (a + b)[..|a + b| - 1] == a + b';
      CountAppend(a, b', t);
    }
  }

  lemma CountSnoc(a: seq<Piece>, x: Piece, t: Tag)
    ensures Count(a + [x], t) == Count(a, t) + (if TagOf(x) == t then 1 else 0)
  {
    assert (a + [x])[..|a|] == a;
  }

  lemma CountOfThree(x: Piece, y: Piece, z: Piece, t: Tag)
    ensures Count([x, y, z], t)
         == (if TagOf(x) == t then 1 else 0) + (if TagOf(y) == t then 1 else 0) + (if TagOf(z) == t then 1 else 0)
  {
    CountSnoc([], x, t);
    assert [] + [x] == [x];
    CountSnoc([x], y, t);
    assert [x] + [y] == [x, y];
    CountSnoc([x, y], z, t);
    assert [x, y] + [z] == [x, y, z];
  }

  lemma CountOfTwo(x: Piece, y: Piece, t: Tag)
    ensures Count([x, y], t) == (if TagOf(x) == t then 1 else 0) + (if TagOf(y) == t then 1 else 0)
  {
    CountSnoc([], x, t);
    assert [] + [x] == [x];
    CountSnoc([x], y, t);
    assert [x] + [y] == [x, y];
  }

  lemma CountOfOne(x: Piece, t: Tag)
    ensures Count([x], t) == if TagOf(x) == t then 1 else 0
  {
    CountSnoc([], x, t);
    assert [] + [x] == [x];
  }

  // A section that opens with fixed pieces and goes on with `rest`.

  lemma CountOneThen(x: Piece, rest: seq<Piece>, t: Tag)
    ensures Count([x] + rest, t) == Ind(TagOf(x) == t) + Count(rest, t)
  {
    CountOfOne(x, t);
    CountAppend([x], rest, t);
  }

  lemma CountTwoThen(x: Piece, y: Piece, rest: seq<Piece>, t: Tag)
    ensures Count([x, y] + rest, t) == Ind(TagOf(x) == t) + Ind(TagOf(y) == t) + Count(rest, t)
  {
    CountOfTwo(x, y, t);
    CountAppend([x, y], rest, t);
  }

  lemma CountThreeThen(x: Piece, y: Piece, z: Piece, rest: seq<Piece>, t: Tag)
    ensures Count([x, y, z] + rest, t)
         == Ind(TagOf(x) == t) + Ind(TagOf(y) == t) + Ind(TagOf(z) == t) + Count(rest, t)
  {
    CountOfThree(x, y, z, t);
    CountAppend([x, y, z], rest, t);
  }

  // ---- The entry and link lists, element by element ----

  /** The i-th entry piece is the i-th parsed entry. */
  lemma {:induction false} EntryPiecesAt(es: seq<(string, string)>)
    ensures |EntryPieces(es)| == |es|
    ensures forall j :: 0 <= j < |es| ==> EntryPieces(es)[j] == StandsEntry(es[j].0, es[j].1)
  {
    if es != [] {
      EntryPiecesAt(es[..|es| - 1]);
    }
  }

  lemma {:induction false} EntryPiecesCount(es: seq<(string, string)>, t: Tag)
    ensures Count(EntryPieces(es), t) == if t == StandsEntryTag then |es| else 0
  {
    if es != [] {
      var last := es[|es| - 1];
      EntryPiecesCount(es[..|es| - 1], t);
      CountSnoc(EntryPieces(es[..|es| - 1]), StandsEntry(last.0, last.1), t);
    }
  }

  /** The i-th link (0-based) carries ordinal i + 1, the i-th file's original
      name and the URL of the i-th file's stored path. */
  lemma {:induction false} FileLinksAt(files: seq<FileMeta>, protocol: string, host: string)
    ensures |FileLinks(files, protocol, host)| == |files|
    ensures forall i :: 0 <= i < |files| ==>
      FileLinks(files, protocol, host)[i] == FileLink(i + 1, files[i].originalName, FileUrl(protocol, host, files[i].path))
  {
    if files != [] {
      FileLinksAt(files[..|files| - 1], protocol, host);
    }
  }

  lemma {:induction false} FileLinksCount(files: seq<FileMeta>, protocol: string, host: string, t: Tag)
    ensures Count(FileLinks(files, protocol, host), t) == if t == FileLinkTag then |files| else 0
  {
    if files != [] {
      var last := files[|files| - 1];
      FileLinksCount(files[..|files| - 1], protocol, host, t);
      CountSnoc(FileLinks(files[..|files| - 1], protocol, host),
                FileLink(|files|, last.originalName, FileUrl(protocol, host, last.path)), t);
    }
  }

  // ---- Section by section ----

  function Ind(b: bool): nat { if b then 1 else 0 }

  // An optional line is counted once when its field is filled in.

  lemma EmailLineCount(data: Form, t: Tag)
    ensures Count(EmailLine(data), t) == Ind(Truthy(data, EmailKey) && t == EmailTag)
  {
    if Truthy(data, EmailKey) { CountOfOne(Email(data[EmailKey]), t); }
  }

  lemma CommentLineCount(data: Form, t: Tag)
    ensures Count(CommentLine(data), t) == Ind(Truthy(data, CommentKey) && t == CommentTag)
  {
    if Truthy(data, CommentKey) { CountOfOne(Comment(data[CommentKey]), t); }
  }

  lemma TotalLineCount(data: Form, t: Tag)
    ensures Count(TotalLine(data), t) == Ind(Truthy(data, TotalKey) && t == TotalTag)
  {
    if Truthy(data, TotalKey) { CountOfOne(Total(data[TotalKey]), t); }
  }

  lemma MaterialLineCount(data: Form, t: Tag)
    ensures Count(MaterialLine(data), t) == Ind(Truthy(data, MaterialKey) && t == MaterialTag)
  {
    if Truthy(data, MaterialKey) { CountOfOne(Material(data[MaterialKey]), t); }
  }

  lemma ContactExtrasCount(data: Form, t: Tag)
    ensures Count(ContactExtras(data), t)
         == Ind(Truthy(data, EmailKey) && t == EmailTag)
          + Ind(Truthy(data, CommentKey) && t == CommentTag)
          + Ind(Truthy(data, TotalKey) && t == TotalTag)
  {
    CountAppend(EmailLine(data), CommentLine(data), t);
    CountAppend(EmailLine(data) + CommentLine(data), TotalLine(data), t);
    EmailLineCount(data, t);
    CommentLineCount(data, t);
    TotalLineCount(data, t);
  }

  /** Lines 63-74: heading, name and phone once each; e-mail, comment and
      price summary once each when filled in. */
  function ContactLines(data: Form, t: Tag): nat {
    Ind(t == HeadingTag) + Ind(t == NameTag) + Ind(t == PhoneTag)
    + Ind(Truthy(data, EmailKey) && t == EmailTag)
    + Ind(Truthy(data, CommentKey) && t == CommentTag)
    + Ind(Truthy(data, TotalKey) && t == TotalTag)
  }

  lemma ContactCount(data: Form, t: Tag)
    ensures Count(ContactSection(data), t) == ContactLines(data, t)
  {
    ContactExtrasCount(data, t);
    CountThreeThen(Heading, Name(OrElse(data, NameKey, NamePlaceholder)), Phone(OrElse(data, PhoneKey, PhonePlaceholder)),
                   ContactExtras(data), t);
  }

  lemma MaterialAndQuantityCount(data: Form, t: Tag)
    ensures Count(MaterialAndQuantity(data), t)
         == Ind(Truthy(data, MaterialKey) && t == MaterialTag) + Ind(t == QuantityTag)
  {
    MaterialLineCount(data, t);
    CountSnoc(MaterialLine(data), Quantity(Show(data, QuantityKey)), t);
  }

  /** Lines 77-82: product, size and quantity once each; material once when filled in. */
  function ProductLines(data: Form, t: Tag): nat {
    Ind(t == ProductTag) + Ind(t == SizeTag) + Ind(t == QuantityTag)
    + Ind(Truthy(data, MaterialKey) && t == MaterialTag)
  }

  lemma ProductCount(data: Form, t: Tag)
    ensures Count(ProductSection(data), t) == ProductLines(data, t)
  {
    MaterialAndQuantityCount(data, t);
    CountTwoThen(Product(OrElse(data, ProductKey, ProductPlaceholder)), Size(Show(data, WidthKey), Show(data, HeightKey)),
                 MaterialAndQuantity(data), t);
  }

  /** Lines 84-89: the toggle once; the count once when the toggle is on. */
  function GrommetsLines(data: Form, t: Tag): nat {
    Ind(t == GrommetsTag) + Ind(t == GrommetCountTag && IsOn(data, GrommetsKey))
  }

  lemma GrommetsCount(data: Form, t: Tag)
    ensures Count(GrommetsSection(data), t) == GrommetsLines(data, t)
  {
    GrommetCountLineCount(data, t);
    CountOneThen(Grommets(IsOn(data, GrommetsKey)), GrommetCountLine(data), t);
  }

  lemma GrommetCountLineCount(data: Form, t: Tag)
    ensures Count(GrommetCountLine(data), t) == Ind(IsOn(data, GrommetsKey) && t == GrommetCountTag)
  {
    if IsOn(data, GrommetsKey) { CountOfOne(GrommetCount(OrElse(data, GrommetCountKey, GrommetCountDefault)), t); }
  }

  /** True when the stand details are rendered at all. */
  predicate DetailsShown(data: Form) {
    IsOn(data, StandsKey) && Truthy(data, StandsDetailsKey)
  }

  /** The "details" heading is written once the details parse, whether or not
      all entries then print. */
  predicate StandsHeadingShown(data: Form, parse: string -> StandsParse) {
    DetailsShown(data) && !parse(data[StandsDetailsKey]).Unparsable?
  }

  /** The raw details line is written when the `catch` block runs: parsing
      threw, or something threw after the heading. */
  predicate StandsRawShown(data: Form, parse: string -> StandsParse) {
    DetailsShown(data) && !parse(data[StandsDetailsKey]).ParsedEntries?
  }

  /** How many entries are listed. */
  function EntryCount(data: Form, parse: string -> StandsParse): nat {
    if !DetailsShown(data) then 0 else |ListedEntries(parse(data[StandsDetailsKey]))|
  }

  lemma StandsDetailsCount(raw: string, parse: string -> StandsParse, t: Tag)
    ensures Count(StandsDetails(raw, parse), t)
         == Ind(t == StandsHeadingTag && !parse(raw).Unparsable?)
          + Ind(t == StandsRawTag && !parse(raw).ParsedEntries?)
          + (if t == StandsEntryTag then |ListedEntries(parse(raw))| else 0)
  {
    match parse(raw)
    case Unparsable =>
      CountOfOne(StandsRaw(raw), t);
    case ParsedEntries(es) =>
      EntryPiecesCount(es, t);
      CountOneThen(StandsHeading, EntryPieces(es), t);
    case ThrewAfterHeading(printed) =>
      ThrewDetailsCount(raw, printed, t);
  }

  lemma ThrewDetailsCount(raw: string, printed: seq<(string, string)>, t: Tag)
    ensures Count([StandsHeading] + EntryPieces(printed) + [StandsRaw(raw)], t)
         == Ind(t == StandsHeadingTag) + Ind(t == StandsRawTag) + (if t == StandsEntryTag then |printed| else 0)
  {
    EntryPiecesCount(printed, t);
    CountOneThen(StandsHeading, EntryPieces(printed), t);
    CountSnoc([StandsHeading] + EntryPieces(printed), StandsRaw(raw), t);
  }

  /** Lines 91-108: the toggle once; the details heading, the entries and the
      raw line as the parse outcome decides. */
  function StandsLines(data: Form, parse: string -> StandsParse, t: Tag): nat {
    Ind(t == StandsTag)
    + Ind(t == StandsHeadingTag && StandsHeadingShown(data, parse))
    + Ind(t == StandsRawTag && StandsRawShown(data, parse))
    + (if t == StandsEntryTag then EntryCount(data, parse) else 0)
  }

  lemma StandsCount(data: Form, parse: string -> StandsParse, t: Tag)
    ensures Count(StandsSection(data, parse), t) == StandsLines(data, parse, t)
  {
    if DetailsShown(data) { StandsDetailsCount(data[StandsDetailsKey], parse, t); }
    CountOneThen(Stands(IsOn(data, StandsKey)), ShownStandsDetails(data, parse), t);
  }

  /** Lines 110-117: the toggle once; the colour once when the toggle is on and a colour is given. */
  function FrameLines(data: Form, t: Tag): nat {
    Ind(t == FrameTag) + Ind(t == FrameColorTag && IsOn(data, FrameKey) && Truthy(data, FrameColorKey))
  }

  lemma FrameCount(data: Form, t: Tag)
    ensures Count(FrameSection(data), t) == FrameLines(data, t)
  {
    FrameColorLineCount(data, t);
    CountOneThen(Frame(IsOn(data, FrameKey)), FrameColorLine(data), t);
  }

  lemma FrameColorLineCount(data: Form, t: Tag)
    ensures Count(FrameColorLine(data), t)
         == Ind(IsOn(data, FrameKey) && Truthy(data, FrameColorKey) && t == FrameColorTag)
  {
    if IsOn(data, FrameKey) && Truthy(data, FrameColorKey) { CountOfOne(FrameColor(data[FrameColorKey]), t); }
  }

  /** Lines 120-126: the heading once when there are files; one link per file. */
  function FilesLines(files: seq<FileMeta>, t: Tag): nat {
    if t == FileLinkTag then |files| else Ind(t == FilesHeadingTag && |files| > 0)
  }

  lemma FilesCount(files: seq<FileMeta>, protocol: string, host: string, t: Tag)
    ensures Count(FilesSection(files, protocol, host), t) == FilesLines(files, t)
  {
    if |files| > 0 {
      FileLinksCount(files, protocol, host, t);
      CountOneThen(FilesHeading, FileLinks(files, protocol, host), t);
    }
  }

  /** How many pieces of each kind the message has. */
  lemma PiecesCount(data: Form, files: seq<FileMeta>, protocol: string, host: string,
                    parse: string -> StandsParse, t: Tag)
    ensures Count(Pieces(data, files, protocol, host, parse), t)
         == Count(ContactSection(data), t) + Count(ProductSection(data), t) + Count(GrommetsSection(data), t)
          + Count(StandsSection(data, parse), t) + Count(FrameSection(data), t)
          + Count(FilesSection(files, protocol, host), t)
  {
    var c, p, g := ContactSection(data), ProductSection(data), GrommetsSection(data);
    var st, fr, fi := StandsSection(data, parse), FrameSection(data), FilesSection(files, protocol, host);
    CountAppend(c, p, t);
    CountAppend(c + p, g, t);
    CountAppend(c + p + g, st, t);
    CountAppend(c + p + g + st, fr, t);
    CountAppend(c + p + g + st + fr, fi, t);
  }

  // ---- What the whole message holds ----

  /** How many pieces of each kind the whole message has, section by section. */
  function LineCount(data: Form, files: seq<FileMeta>, parse: string -> StandsParse, t: Tag): nat {
    ContactLines(data, t) + ProductLines(data, t) + GrommetsLines(data, t)
    + StandsLines(data, parse, t) + FrameLines(data, t) + FilesLines(files, t)
  }

  /** The same count, kind by kind: how many lines of kind `t` the message
      has, as the handler's branches decide. */
  function LinesOfKind(data: Form, files: seq<FileMeta>, parse: string -> StandsParse, t: Tag): nat {
    match t
    case HeadingTag => 1
    case NameTag => 1
    case PhoneTag => 1
    case EmailTag => Ind(Truthy(data, EmailKey))
    case CommentTag => Ind(Truthy(data, CommentKey))
    case TotalTag => Ind(Truthy(data, TotalKey))
    case ProductTag => 1
    case SizeTag => 1
    case MaterialTag => Ind(Truthy(data, MaterialKey))
    case QuantityTag => 1
    case GrommetsTag => 1
    case GrommetCountTag => Ind(IsOn(data, GrommetsKey))
    case StandsTag => 1
    case StandsHeadingTag => Ind(StandsHeadingShown(data, parse))
    case StandsEntryTag => EntryCount(data, parse)
    case StandsRawTag => Ind(StandsRawShown(data, parse))
    case FrameTag => 1
    case FrameColorTag => Ind(IsOn(data, FrameKey) && Truthy(data, FrameColorKey))
    case FilesHeadingTag => Ind(|files| > 0)
    case FileLinkTag => |files|
  }

  lemma KindsAgree(data: Form, files: seq<FileMeta>, parse: string -> StandsParse, t: Tag)
    ensures LineCount(data, files, parse, t) == LinesOfKind(data, files, parse, t)
  {
    if t.HeadingTag? || t.NameTag? || t.PhoneTag? || t.EmailTag? || t.CommentTag? || t.TotalTag? {
      ContactKindsAgree(data, files, parse, t);
    } else if t.ProductTag? || t.SizeTag? || t.MaterialTag? || t.QuantityTag? {
      ProductKindsAgree(data, files, parse, t);
    } else if t.GrommetsTag? || t.GrommetCountTag? {
      GrommetsKindsAgree(data, files, parse, t);
    } else if t.StandsTag? || t.StandsHeadingTag? || t.StandsEntryTag? || t.StandsRawTag? {
      StandsKindsAgree(data, files, parse, t);
    } else if t.FrameTag? || t.FrameColorTag? {
      FrameKindsAgree(data, files, parse, t);
    } else if t.FilesHeadingTag? {
      FilesHeadingKindAgrees(data, files, parse);
    } else {
      FileLinkKindAgrees(data, files, parse);
    }
  }

  lemma ContactKindsAgree(data: Form, files: seq<FileMeta>, parse: string -> StandsParse, t: Tag)
    requires t.HeadingTag? || t.NameTag? || t.PhoneTag? || t.EmailTag? || t.CommentTag? || t.TotalTag?
    ensures LineCount(data, files, parse, t) == LinesOfKind(data, files, parse, t)
  {
  }

  lemma ProductKindsAgree(data: Form, files: seq<FileMeta>, parse: string -> StandsParse, t: Tag)
    requires t.ProductTag? || t.SizeTag? || t.MaterialTag? || t.QuantityTag?
    ensures LineCount(data, files, parse, t) == LinesOfKind(data, files, parse, t)
  {
  }

  lemma GrommetsKindsAgree(data: Form, files: seq<FileMeta>, parse: string -> StandsParse, t: Tag)
    requires t.GrommetsTag? || t.GrommetCountTag?
    ensures LineCount(data, files, parse, t) == LinesOfKind(data, files, parse, t)
  {
  }

  lemma StandsKindsAgree(data: Form, files: seq<FileMeta>, parse: string -> StandsParse, t: Tag)
    requires t.StandsTag? || t.StandsHeadingTag? || t.StandsEntryTag? || t.StandsRawTag?
    ensures LineCount(data, files, parse, t) == LinesOfKind(data, files, parse, t)
  {
  }

  lemma FrameKindsAgree(data: Form, files: seq<FileMeta>, parse: string -> StandsParse, t: Tag)
    requires t.FrameTag? || t.FrameColorTag?
    ensures LineCount(data, files, parse, t) == LinesOfKind(data, files, parse, t)
  {
  }

  lemma FilesHeadingKindAgrees(data: Form, files: seq<FileMeta>, parse: string -> StandsParse)
    ensures LineCount(data, files, parse, FilesHeadingTag) == Ind(|files| > 0)
  {
  }

  lemma FileLinkKindAgrees(data: Form, files: seq<FileMeta>, parse: string -> StandsParse)
    ensures LineCount(data, files, parse, FileLinkTag) == |files|
  {
  }

  lemma PieceCounts(data: Form, files: seq<FileMeta>, protocol: string, host: string,
                    parse: string -> StandsParse, t: Tag)
    ensures Count(Pieces(data, files, protocol, host, parse), t) == LinesOfKind(data, files, parse, t)
  {
    KindsAgree(data, files, parse, t);
    PiecesCount(data, files, protocol, host, parse, t);
    ContactCount(data, t);
    ProductCount(data, t);
    GrommetsCount(data, t);
    StandsCount(data, parse, t);
    FrameCount(data, t);
    FilesCount(files, protocol, host, t);
  }
}
