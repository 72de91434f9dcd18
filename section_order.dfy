/** The sections of the notification text come in the fixed order of the
    handler's `+=` statements: contact, product, grommets, stands, frame,
    files, and inside each section its lines in their own fixed order. */
module SectionOrder {
  import opened Submission
  import opened Formatter
  import opened MessageLayout

  /** Position of a kind of line in the fixed order. */
  function Rank(t: Tag): nat {
    match t
    case HeadingTag => 0
    case NameTag => 1
    case PhoneTag => 2
    case EmailTag => 3
    case CommentTag => 4
    case TotalTag => 5
    case ProductTag => 6
    case SizeTag => 7
    case MaterialTag => 8
    case QuantityTag => 9
    case GrommetsTag => 10
    case GrommetCountTag => 11
    case StandsTag => 12
    case StandsHeadingTag => 13
    case StandsEntryTag => 14
    case StandsRawTag => 15
    case FrameTag => 16
    case FrameColorTag => 17
    case FilesHeadingTag => 18
    case FileLinkTag => 19
  }

  function RankOf(p: Piece): nat {
    Rank(TagOf(p))
  }

  /** No piece comes after a piece of a later kind. */
  predicate InSectionOrder(ps: seq<Piece>) {
    forall i, j :: 0 <= i < j < |ps| ==> RankOf(ps[i]) <= RankOf(ps[j])
  }

  /** `ps` is in order and every kind in it ranks between `lo` and `hi`. */
  predicate Layered(ps: seq<Piece>, lo: nat, hi: nat) {
    && InSectionOrder(ps)
    && forall i :: 0 <= i < |ps| ==> lo <= RankOf(ps[i]) <= hi
  }

  lemma Join(a: seq<Piece>, b: seq<Piece>, lo: nat, m1: nat, m2: nat, hi: nat)
    requires Layered(a, lo, m1) && Layered(b, m2, hi) && lo <= m1 <= m2 <= hi
    ensures Layered(a + b, lo, hi)
  {
    var ab := a + b;
    forall i | 0 <= i < |ab|
      ensures lo <= RankOf(ab[i]) <= hi
    {
      if i < |a| {
        assert ab[i] == a[i];
      } else {
        assert ab[i] == b[i - |a|];
      }
    }
    forall i, j | 0 <= i < j < |ab|
      ensures RankOf(ab[i]) <= RankOf(ab[j])
    {
      if j < |a| {
        assert ab[i] == a[i] && ab[j] == a[j];
      } else if i >= |a| {
        assert ab[i] == b[i - |a|] && ab[j] == b[j - |a|];
      } else {
        assert ab[i] == a[i] && ab[j] == b[j - |a|];
      }
    }
  }

  lemma Single(p: Piece)
    ensures Layered([p], RankOf(p), RankOf(p))
  {
  }

  lemma Pair(p: Piece, q: Piece)
    requires RankOf(p) <= RankOf(q)
    ensures Layered([p, q], RankOf(p), RankOf(q))
  {
  }

  lemma Triple(p: Piece, q: Piece, r: Piece)
    requires RankOf(p) <= RankOf(q) <= RankOf(r)
    ensures Layered([p, q, r], RankOf(p), RankOf(r))
  {
  }

  /** A line that is there or not: nothing, or one piece of rank `r`. */
  lemma Optional(ps: seq<Piece>, r: nat)
    requires ps == [] || (|ps| == 1 && RankOf(ps[0]) == r)
    ensures Layered(ps, r, r)
  {
  }

  /** The entries of the stand details are all of one kind. */
  lemma EntriesLayered(es: seq<(string, string)>)
    ensures Layered(EntryPieces(es), 14, 14)
  {
    EntryPiecesAt(es);
  }

  /** The file links are all of one kind. */
  lemma LinksLayered(files: seq<FileMeta>, protocol: string, host: string)
    ensures Layered(FileLinks(files, protocol, host), 19, 19)
  {
    FileLinksAt(files, protocol, host);
  }

  lemma ContactLayered(data: Form)
    ensures Layered(ContactSection(data), 0, 5)
  {
    var required := ContactRequired(data);
    Triple(required[0], required[1], required[2]);
    ExtrasLayered(data);
    Join(required, ContactExtras(data), 0, 2, 3, 5);
  }

  lemma ExtrasLayered(data: Form)
    ensures Layered(ContactExtras(data), 3, 5)
  {
    var e, c, t := EmailLine(data), CommentLine(data), TotalLine(data);
    Optional(e, 3);
    Optional(c, 4);
    Optional(t, 5);
    Join(e, c, 3, 3, 4, 4);
    Join(e + c, t, 3, 4, 5, 5);
  }

  lemma ProductLayered(data: Form)
    ensures Layered(ProductSection(data), 6, 9)
  {
    var quantity := Quantity(Show(data, QuantityKey));
    Optional(MaterialLine(data), 8);
    Single(quantity);
    Join(MaterialLine(data), [quantity], 8, 8, 9, 9);
    Pair(Product(OrElse(data, ProductKey, ProductPlaceholder)), Size(Show(data, WidthKey), Show(data, HeightKey)));
    Join([Product(OrElse(data, ProductKey, ProductPlaceholder)), Size(Show(data, WidthKey), Show(data, HeightKey))],
         MaterialAndQuantity(data), 6, 7, 8, 9);
  }

  lemma GrommetsLayered(data: Form)
    ensures Layered(GrommetsSection(data), 10, 11)
  {
    Single(Grommets(IsOn(data, GrommetsKey)));
    Optional(GrommetCountLine(data), 11);
    Join([Grommets(IsOn(data, GrommetsKey))], GrommetCountLine(data), 10, 10, 11, 11);
  }

  lemma DetailsLayered(raw: string, parse: string -> StandsParse)
    ensures Layered(StandsDetails(raw, parse), 13, 15)
  {
    match parse(raw)
    case Unparsable =>
      Single(StandsRaw(raw));
      Join([], [StandsRaw(raw)], 13, 13, 15, 15);
    case ParsedEntries(es) =>
      Single(StandsHeading);
      EntriesLayered(es);
      Join([StandsHeading], EntryPieces(es), 13, 13, 14, 15);
    case ThrewAfterHeading(printed) =>
      ThrownDetailsLayered(raw, printed);
  }

  lemma ThrownDetailsLayered(raw: string, printed: seq<(string, string)>)
    ensures Layered([StandsHeading] + EntryPieces(printed) + [StandsRaw(raw)], 13, 15)
  {
    Single(StandsHeading);
    EntriesLayered(printed);
    Join([StandsHeading], EntryPieces(printed), 13, 13, 14, 14);
    Single(StandsRaw(raw));
    Join([StandsHeading] + EntryPieces(printed), [StandsRaw(raw)], 13, 14, 15, 15);
  }

  lemma StandsLayered(data: Form, parse: string -> StandsParse)
    ensures Layered(StandsSection(data, parse), 12, 15)
  {
    if IsOn(data, StandsKey) && Truthy(data, StandsDetailsKey) {
      DetailsLayered(data[StandsDetailsKey], parse);
    }
    Single(Stands(IsOn(data, StandsKey)));
    Join([Stands(IsOn(data, StandsKey))], ShownStandsDetails(data, parse), 12, 12, 13, 15);
  }

  lemma FrameLayered(data: Form)
    ensures Layered(FrameSection(data), 16, 17)
  {
    Single(Frame(IsOn(data, FrameKey)));
    Optional(FrameColorLine(data), 17);
    Join([Frame(IsOn(data, FrameKey))], FrameColorLine(data), 16, 16, 17, 17);
  }

  lemma FilesLayered(files: seq<FileMeta>, protocol: string, host: string)
    ensures Layered(FilesSection(files, protocol, host), 18, 19)
  {
    if |files| > 0 {
      Single(FilesHeading);
      LinksLayered(files, protocol, host);
      Join([FilesHeading], FileLinks(files, protocol, host), 18, 18, 19, 19);
    }
  }

  /** Lines 63-126: the message lists its lines in the fixed order, whatever
      is filled in, toggled, parsed or uploaded. */
  lemma PiecesInSectionOrder(data: Form, files: seq<FileMeta>, protocol: string, host: string,
                             parse: string -> StandsParse)
    ensures InSectionOrder(Pieces(data, files, protocol, host, parse))
  {
    var c, p, g := ContactSection(data), ProductSection(data), GrommetsSection(data);
    var st, fr, fi := StandsSection(data, parse), FrameSection(data), FilesSection(files, protocol, host);
    ContactLayered(data);
    ProductLayered(data);
    GrommetsLayered(data);
    StandsLayered(data, parse);
    FrameLayered(data);
    FilesLayered(files, protocol, host);
    Join(c, p, 0, 5, 6, 9);
    Join(c + p, g, 0, 9, 10, 11);
    Join(c + p + g, st, 0, 11, 12, 15);
    Join(c + p + g + st, fr, 0, 15, 16, 17);
    Join(c + p + g + st + fr, fi, 0, 17, 18, 19);
  }
}
