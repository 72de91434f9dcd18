/** The promises the notification text keeps, stated on the whole message:
    what it opens with, which lines are always there and with which values,
    which appear exactly when their field is filled in, how the stand details
    and the file links are laid out. */
module MessageProperties {
  import opened Submission
  import opened Decimal
  import opened Formatter
  import opened MessageLayout

  /** A prefix of `a` stays a prefix when more text follows. */
  lemma PrefixOfAppend(x: string, a: string, b: string)
    requires x <= a
    ensures x <= a + b
  {
    assert (a + b)[..|x|] == a[..|x|];
  }

  /** The rendered contact section starts with the heading, name and phone lines. */
  lemma ContactOpening(data: Form)
    ensures HeadingText
            + ("*Имя:* " + OrElse(data, NameKey, NamePlaceholder) + "\n")
            + ("*Телефон:* " + OrElse(data, PhoneKey, PhonePlaceholder) + "\n")
            <= Concat(ContactSection(data))
  {
    var required := ContactRequired(data);
    ConcatAppend(required, ContactExtras(data));
    ConcatThree(required[0], required[1], required[2]);
    PrefixOfAppend(Concat(required), Concat(required), Concat(ContactExtras(data)));
  }

  /** The first three pieces are the heading, the name and the phone. */
  lemma OpeningPieces(data: Form, files: seq<FileMeta>, protocol: string, host: string,
                      parse: string -> StandsParse)
    ensures var ps := Pieces(data, files, protocol, host, parse);
      && |ps| >= 3
      && ps[0] == Heading
      && ps[1] == Name(OrElse(data, NameKey, NamePlaceholder))
      && ps[2] == Phone(OrElse(data, PhoneKey, PhonePlaceholder))
  {
    var c := ContactSection(data);
    var rest := ProductSection(data) + GrommetsSection(data) + StandsSection(data, parse)
                + FrameSection(data) + FilesSection(files, protocol, host);
    assert c[..3] == ContactRequired(data);
    assert Pieces(data, files, protocol, host, parse)[..3] == c[..3];
  }

  /** The message text opens with the heading, the name line and the phone line. */
  lemma MessageOpening(data: Form, files: seq<FileMeta>, protocol: string, host: string,
                       parse: string -> StandsParse)
    ensures HeadingText
            + ("*Имя:* " + OrElse(data, NameKey, NamePlaceholder) + "\n")
            + ("*Телефон:* " + OrElse(data, PhoneKey, PhonePlaceholder) + "\n")
            <= Message(data, files, protocol, host, parse)
  {
    var opening := HeadingText
            + ("*Имя:* " + OrElse(data, NameKey, NamePlaceholder) + "\n")
            + ("*Телефон:* " + OrElse(data, PhoneKey, PhonePlaceholder) + "\n");
    var c, p, g := ContactSection(data), ProductSection(data), GrommetsSection(data);
    var st, fr, fi := StandsSection(data, parse), FrameSection(data), FilesSection(files, protocol, host);
    ContactOpening(data);
    ConcatAppend(c, p);
    PrefixOfAppend(opening, Concat(c), Concat(p));
    ConcatAppend(c + p, g);
    PrefixOfAppend(opening, Concat(c + p), Concat(g));
    ConcatAppend(c + p + g, st);
    PrefixOfAppend(opening, Concat(c + p + g), Concat(st));
    ConcatAppend(c + p + g + st, fr);
    PrefixOfAppend(opening, Concat(c + p + g + st), Concat(fr));
    ConcatAppend(c + p + g + st + fr, fi);
    PrefixOfAppend(opening, Concat(c + p + g + st + fr), Concat(fi));
  }

  /** Heading, name and phone appear exactly once. */
  lemma ContactLinesOnce(data: Form, files: seq<FileMeta>, protocol: string, host: string,
                         parse: string -> StandsParse)
    ensures var ps := Pieces(data, files, protocol, host, parse);
      Count(ps, HeadingTag) == 1 && Count(ps, NameTag) == 1 && Count(ps, PhoneTag) == 1
  {
    PieceCounts(data, files, protocol, host, parse, HeadingTag);
    PieceCounts(data, files, protocol, host, parse, NameTag);
    PieceCounts(data, files, protocol, host, parse, PhoneTag);
  }

  /** Product type, size and quantity appear exactly once. */
  lemma ProductLinesOnce(data: Form, files: seq<FileMeta>, protocol: string, host: string,
                         parse: string -> StandsParse)
    ensures var ps := Pieces(data, files, protocol, host, parse);
      Count(ps, ProductTag) == 1 && Count(ps, SizeTag) == 1 && Count(ps, QuantityTag) == 1
  {
    PieceCounts(data, files, protocol, host, parse, ProductTag);
    PieceCounts(data, files, protocol, host, parse, SizeTag);
    PieceCounts(data, files, protocol, host, parse, QuantityTag);
  }

  /** Each toggle (grommets, stands, frame) renders exactly one line. */
  lemma ToggleLinesOnce(data: Form, files: seq<FileMeta>, protocol: string, host: string,
                        parse: string -> StandsParse)
    ensures var ps := Pieces(data, files, protocol, host, parse);
      Count(ps, GrommetsTag) == 1 && Count(ps, StandsTag) == 1 && Count(ps, FrameTag) == 1
  {
    PieceCounts(data, files, protocol, host, parse, GrommetsTag);
    PieceCounts(data, files, protocol, host, parse, StandsTag);
    PieceCounts(data, files, protocol, host, parse, FrameTag);
  }

  /** The values the always-present lines carry: the product type or its
      placeholder, width and height, quantity, and for each toggle the
      answer "on" selects (`Да` exactly when the field is "on"). */
  lemma AlwaysPresentLineValues(data: Form, files: seq<FileMeta>, protocol: string, host: string,
                                parse: string -> StandsParse)
    ensures var ps := Pieces(data, files, protocol, host, parse);
      && Product(OrElse(data, ProductKey, ProductPlaceholder)) in ps
      && Size(Show(data, WidthKey), Show(data, HeightKey)) in ps
      && Quantity(Show(data, QuantityKey)) in ps
      && Grommets(IsOn(data, GrommetsKey)) in ps
      && Stands(IsOn(data, StandsKey)) in ps
      && Frame(IsOn(data, FrameKey)) in ps
  {
    assert Product(OrElse(data, ProductKey, ProductPlaceholder)) in ProductSection(data);
    assert Size(Show(data, WidthKey), Show(data, HeightKey)) in ProductSection(data);
    assert Quantity(Show(data, QuantityKey)) in MaterialAndQuantity(data);
    assert Grommets(IsOn(data, GrommetsKey)) in GrommetsSection(data);
    assert Stands(IsOn(data, StandsKey)) in StandsSection(data, parse);
    assert Frame(IsOn(data, FrameKey)) in FrameSection(data);
  }

  /** E-mail, comment, price summary and material each appear once when the
      field is filled in and not at all otherwise. */
  lemma OptionalLinesOnce(data: Form, files: seq<FileMeta>, protocol: string, host: string,
                          parse: string -> StandsParse)
    ensures var ps := Pieces(data, files, protocol, host, parse);
      && Count(ps, EmailTag) == (if Truthy(data, EmailKey) then 1 else 0)
      && Count(ps, CommentTag) == (if Truthy(data, CommentKey) then 1 else 0)
      && Count(ps, TotalTag) == (if Truthy(data, TotalKey) then 1 else 0)
      && Count(ps, MaterialTag) == (if Truthy(data, MaterialKey) then 1 else 0)
  {
    PieceCounts(data, files, protocol, host, parse, EmailTag);
    PieceCounts(data, files, protocol, host, parse, CommentTag);
    PieceCounts(data, files, protocol, host, parse, TotalTag);
    PieceCounts(data, files, protocol, host, parse, MaterialTag);
  }

  /** When present, an optional line carries the field's own value. */
  lemma OptionalLineValues(data: Form, files: seq<FileMeta>, protocol: string, host: string,
                           parse: string -> StandsParse)
    ensures var ps := Pieces(data, files, protocol, host, parse);
      && (Truthy(data, EmailKey) ==> Email(data[EmailKey]) in ps)
      && (Truthy(data, CommentKey) ==> Comment(data[CommentKey]) in ps)
      && (Truthy(data, TotalKey) ==> Total(data[TotalKey]) in ps)
      && (Truthy(data, MaterialKey) ==> Material(data[MaterialKey]) in ps)
  {
    if Truthy(data, EmailKey) {
      assert Email(data[EmailKey]) in ContactExtras(data);
    }
    if Truthy(data, CommentKey) {
      assert Comment(data[CommentKey]) in ContactExtras(data);
    }
    if Truthy(data, TotalKey) {
      assert Total(data[TotalKey]) in ContactExtras(data);
    }
    if Truthy(data, MaterialKey) {
      assert Material(data[MaterialKey]) in MaterialAndQuantity(data);
    }
  }

  /** The grommet count appears exactly when grommets are on, showing the
      field or `0`. */
  lemma GrommetCountShown(data: Form, files: seq<FileMeta>, protocol: string, host: string,
                          parse: string -> StandsParse)
    ensures var ps := Pieces(data, files, protocol, host, parse);
      && Count(ps, GrommetCountTag) == (if IsOn(data, GrommetsKey) then 1 else 0)
      && (IsOn(data, GrommetsKey) ==> GrommetCount(OrElse(data, GrommetCountKey, GrommetCountDefault)) in ps)
  {
    PieceCounts(data, files, protocol, host, parse, GrommetCountTag);
    if IsOn(data, GrommetsKey) {
      assert GrommetCount(OrElse(data, GrommetCountKey, GrommetCountDefault)) in GrommetsSection(data);
    }
  }

  /** The frame colour appears exactly when the frame is on and a colour is
      given, and then it shows that colour. */
  lemma FrameColorShown(data: Form, files: seq<FileMeta>, protocol: string, host: string,
                        parse: string -> StandsParse)
    ensures var ps := Pieces(data, files, protocol, host, parse);
      && Count(ps, FrameColorTag) == (if IsOn(data, FrameKey) && Truthy(data, FrameColorKey) then 1 else 0)
      && (IsOn(data, FrameKey) && Truthy(data, FrameColorKey) ==> FrameColor(data[FrameColorKey]) in ps)
  {
    PieceCounts(data, files, protocol, host, parse, FrameColorTag);
    if IsOn(data, FrameKey) && Truthy(data, FrameColorKey) {
      assert FrameColor(data[FrameColorKey]) in FrameSection(data);
    }
  }

  /** Once validation has passed, the required lines carry the submitted
      values: no placeholder and no "undefined" takes their place. */
  lemma ValidatedShowsSubmittedValues(data: Form, files: seq<FileMeta>, protocol: string, host: string,
                                      parse: string -> StandsParse)
    requires Validate(data)
    ensures var ps := Pieces(data, files, protocol, host, parse);
      && ps[1] == Name(data[NameKey])
      && ps[2] == Phone(data[PhoneKey])
      && Product(data[ProductKey]) in ps
      && Size(data[WidthKey], data[HeightKey]) in ps
      && Quantity(data[QuantityKey]) in ps
  {
    OpeningPieces(data, files, protocol, host, parse);
    AlwaysPresentLineValues(data, files, protocol, host, parse);
  }

  // The detail lines, counted by kind.

  lemma DetailHeadingCount(data: Form, files: seq<FileMeta>, protocol: string, host: string,
                           parse: string -> StandsParse)
    ensures Count(Pieces(data, files, protocol, host, parse), StandsHeadingTag) == Ind(StandsHeadingShown(data, parse))
  {
    PieceCounts(data, files, protocol, host, parse, StandsHeadingTag);
  }

  lemma DetailEntryCount(data: Form, files: seq<FileMeta>, protocol: string, host: string,
                         parse: string -> StandsParse)
    ensures Count(Pieces(data, files, protocol, host, parse), StandsEntryTag) == EntryCount(data, parse)
  {
    PieceCounts(data, files, protocol, host, parse, StandsEntryTag);
  }

  lemma DetailRawCount(data: Form, files: seq<FileMeta>, protocol: string, host: string,
                       parse: string -> StandsParse)
    ensures Count(Pieces(data, files, protocol, host, parse), StandsRawTag) == Ind(StandsRawShown(data, parse))
  {
    PieceCounts(data, files, protocol, host, parse, StandsRawTag);
  }

  /** With the stands toggle off or no details given, no detail line is
      written. */
  lemma StandsDetailsHidden(data: Form, files: seq<FileMeta>, protocol: string, host: string,
                            parse: string -> StandsParse)
    requires !DetailsShown(data)
    ensures var ps := Pieces(data, files, protocol, host, parse);
      Count(ps, StandsHeadingTag) == 0 && Count(ps, StandsEntryTag) == 0 && Count(ps, StandsRawTag) == 0
  {
    DetailHeadingCount(data, files, protocol, host, parse);
    DetailEntryCount(data, files, protocol, host, parse);
    DetailRawCount(data, files, protocol, host, parse);
  }

  /** Details whose entries all print give one heading and one line per
      entry, and no raw line. */
  lemma StandsDetailsParsed(data: Form, files: seq<FileMeta>, protocol: string, host: string,
                            parse: string -> StandsParse)
    requires DetailsShown(data) && parse(data[StandsDetailsKey]).ParsedEntries?
    ensures var ps := Pieces(data, files, protocol, host, parse);
      && Count(ps, StandsHeadingTag) == 1
      && Count(ps, StandsEntryTag) == |parse(data[StandsDetailsKey]).entries|
      && Count(ps, StandsRawTag) == 0
  {
    DetailHeadingCount(data, files, protocol, host, parse);
    DetailEntryCount(data, files, protocol, host, parse);
    DetailRawCount(data, files, protocol, host, parse);
  }

  /** Details that do not parse give the raw text on one line, and no
      heading and no entry. */
  lemma StandsDetailsUnparsed(data: Form, files: seq<FileMeta>, protocol: string, host: string,
                              parse: string -> StandsParse)
    requires DetailsShown(data) && parse(data[StandsDetailsKey]).Unparsable?
    ensures var ps := Pieces(data, files, protocol, host, parse);
      && Count(ps, StandsHeadingTag) == 0 && Count(ps, StandsEntryTag) == 0 && Count(ps, StandsRawTag) == 1
      && StandsRaw(data[StandsDetailsKey]) in ps
  {
    DetailHeadingCount(data, files, protocol, host, parse);
    DetailEntryCount(data, files, protocol, host, parse);
    DetailRawCount(data, files, protocol, host, parse);
    RawDetailsShown(data, files, protocol, host, parse);
  }

  /** Details that parse but then throw (the JSON literal `null`, or a value
      that cannot be printed) give one heading, one line per entry printed
      before the throw, and the raw text line. */
  lemma StandsDetailsThrew(data: Form, files: seq<FileMeta>, protocol: string, host: string,
                           parse: string -> StandsParse)
    requires DetailsShown(data) && parse(data[StandsDetailsKey]).ThrewAfterHeading?
    ensures var ps := Pieces(data, files, protocol, host, parse);
      && Count(ps, StandsHeadingTag) == 1
      && Count(ps, StandsEntryTag) == |parse(data[StandsDetailsKey]).printed|
      && Count(ps, StandsRawTag) == 1
      && StandsRaw(data[StandsDetailsKey]) in ps
  {
    DetailHeadingCount(data, files, protocol, host, parse);
    DetailEntryCount(data, files, protocol, host, parse);
    DetailRawCount(data, files, protocol, host, parse);
    RawDetailsShown(data, files, protocol, host, parse);
  }

  lemma RawDetailsShown(data: Form, files: seq<FileMeta>, protocol: string, host: string,
                        parse: string -> StandsParse)
    requires DetailsShown(data) && !parse(data[StandsDetailsKey]).ParsedEntries?
    ensures StandsRaw(data[StandsDetailsKey]) in Pieces(data, files, protocol, host, parse)
  {
    assert StandsRaw(data[StandsDetailsKey]) in StandsDetails(data[StandsDetailsKey], parse);
    assert StandsRaw(data[StandsDetailsKey]) in StandsSection(data, parse);
  }

  /** The sections written before the stands section. */
  function BeforeStands(data: Form): seq<Piece> {
    ContactSection(data) + ProductSection(data) + GrommetsSection(data)
  }

  /** The sections written after the stands section. */
  function AfterStands(data: Form, files: seq<FileMeta>, protocol: string, host: string): seq<Piece> {
    FrameSection(data) + FilesSection(files, protocol, host)
  }

  /** `b` occurs in `ps` starting at index `k`. */
  predicate SectionAt(ps: seq<Piece>, k: nat, b: seq<Piece>) {
    k + |b| <= |ps| && forall j :: 0 <= j < |b| ==> ps[k + j] == b[j]
  }

  /** From index `k` on, `ps` holds the stands toggle (on), the details
      heading and one line per entry of `es`, in entry order. */
  predicate EntriesListedAt(ps: seq<Piece>, k: nat, es: seq<(string, string)>) {
    && k + 2 + |es| <= |ps|
    && ps[k] == Stands(true)
    && ps[k + 1] == StandsHeading
    && forall j :: 0 <= j < |es| ==> ps[k + 2 + j] == StandsEntry(es[j].0, es[j].1)
  }

  lemma PiecesAroundStands(data: Form, files: seq<FileMeta>, protocol: string, host: string,
                           parse: string -> StandsParse)
    ensures Pieces(data, files, protocol, host, parse)
         == BeforeStands(data) + StandsSection(data, parse) + AfterStands(data, files, protocol, host)
  {
  }

  /** The middle one of three concatenated lists sits right after the first. */
  lemma MiddleAt(a: seq<Piece>, b: seq<Piece>, c: seq<Piece>)
    ensures SectionAt(a + b + c, |a|, b)
  {
  }

  /** The stands section sits in the piece list right after the contact,
      product and grommets sections. */
  lemma StandsSectionAt(data: Form, files: seq<FileMeta>, protocol: string, host: string,
                        parse: string -> StandsParse)
    ensures SectionAt(Pieces(data, files, protocol, host, parse), |BeforeStands(data)|, StandsSection(data, parse))
  {
    PiecesAroundStands(data, files, protocol, host, parse);
    MiddleAt(BeforeStands(data), StandsSection(data, parse), AfterStands(data, files, protocol, host));
  }

  /** What follows the listed entries: the raw line when something threw
      after the heading, nothing when every entry printed. */
  function RawTail(raw: string, parse: string -> StandsParse): seq<Piece> {
    if parse(raw).ThrewAfterHeading? then [StandsRaw(raw)] else []
  }

  lemma ParsedStandsShape(data: Form, parse: string -> StandsParse)
    requires DetailsShown(data) && !parse(data[StandsDetailsKey]).Unparsable?
    ensures var raw := data[StandsDetailsKey];
      StandsSection(data, parse)
        == [Stands(true)] + ([StandsHeading] + (EntryPieces(ListedEntries(parse(raw))) + RawTail(raw, parse)))
  {
    var raw := data[StandsDetailsKey];
    var e := EntryPieces(ListedEntries(parse(raw)));
    assert StandsDetails(raw, parse) == [StandsHeading] + (e + RawTail(raw, parse));
  }

  /** Where `b` is two pieces followed by `e` and sits at `k`, `e` sits at `k + 2`. */
  lemma TwoThenAt(ps: seq<Piece>, k: nat, b: seq<Piece>, x: Piece, y: Piece, e: seq<Piece>)
    requires SectionAt(ps, k, b)
    requires b == [x] + ([y] + e)
    ensures k + 2 + |e| <= |ps| && ps[k] == x && ps[k + 1] == y
    ensures forall j :: 0 <= j < |e| ==> ps[k + 2 + j] == e[j]
  {
    assert ps[k + 0] == b[0];
    assert ps[k + 1] == b[1];
    forall j | 0 <= j < |e|
      ensures ps[k + 2 + j] == e[j]
    {
      assert ps[k + (2 + j)] == b[2 + j];
      assert b[2 + j] == ([y] + e)[1 + j] == e[j];
    }
  }

  lemma {:induction false} EntriesAt(ps: seq<Piece>, k: nat, b: seq<Piece>, es: seq<(string, string)>, tail: seq<Piece>)
    requires SectionAt(ps, k, b)
    requires b == [Stands(true)] + ([StandsHeading] + (EntryPieces(es) + tail))
    ensures EntriesListedAt(ps, k, es)
    ensures k + 2 + |es| + |tail| <= |ps|
    ensures tail != [] ==> ps[k + 2 + |es|] == tail[0]
  {
    TwoThenAt(ps, k, b, Stands(true), StandsHeading, EntryPieces(es) + tail);
    EntryPiecesAt(es);
    forall j | 0 <= j < |es|
      ensures ps[k + 2 + j] == StandsEntry(es[j].0, es[j].1)
    {
      assert (EntryPieces(es) + tail)[j] == EntryPieces(es)[j];
    }
    if tail != [] {
      assert (EntryPieces(es) + tail)[|es|] == tail[0];
    }
  }

  /** Listed entries follow the toggle and the heading directly, one line per
      entry, in the order the parse returned them. */
  lemma StandsEntriesInOrder(data: Form, files: seq<FileMeta>, protocol: string, host: string,
                             parse: string -> StandsParse)
    requires DetailsShown(data) && !parse(data[StandsDetailsKey]).Unparsable?
    ensures EntriesListedAt(Pieces(data, files, protocol, host, parse), |BeforeStands(data)|,
                            ListedEntries(parse(data[StandsDetailsKey])))
  {
    StandsSectionAt(data, files, protocol, host, parse);
    ParsedStandsShape(data, parse);
    EntriesAt(Pieces(data, files, protocol, host, parse), |BeforeStands(data)|, StandsSection(data, parse),
              ListedEntries(parse(data[StandsDetailsKey])), RawTail(data[StandsDetailsKey], parse));
  }

  /** When something throws after the heading, the raw line comes right after
      the last entry printed before the throw. */
  lemma RawAfterPrintedEntries(data: Form, files: seq<FileMeta>, protocol: string, host: string,
                               parse: string -> StandsParse)
    requires DetailsShown(data) && parse(data[StandsDetailsKey]).ThrewAfterHeading?
    ensures var ps, k, n := Pieces(data, files, protocol, host, parse), |BeforeStands(data)|,
                            |parse(data[StandsDetailsKey]).printed|;
      k + 2 + n < |ps| && ps[k + 2 + n] == StandsRaw(data[StandsDetailsKey])
  {
    var raw := data[StandsDetailsKey];
    StandsSectionAt(data, files, protocol, host, parse);
    ThrownStandsShape(data, parse);
    EntriesAt(Pieces(data, files, protocol, host, parse), |BeforeStands(data)|, StandsSection(data, parse),
              parse(raw).printed, [StandsRaw(raw)]);
  }

  lemma ThrownStandsShape(data: Form, parse: string -> StandsParse)
    requires DetailsShown(data) && parse(data[StandsDetailsKey]).ThrewAfterHeading?
    ensures var raw := data[StandsDetailsKey];
      StandsSection(data, parse)
        == [Stands(true)] + ([StandsHeading] + (EntryPieces(parse(raw).printed) + [StandsRaw(raw)]))
  {
    var raw := data[StandsDetailsKey];
    var e := EntryPieces(parse(raw).printed);
    assert StandsDetails(raw, parse) == [StandsHeading] + (e + [StandsRaw(raw)]);
  }

  /** The sections written before the files section. */
  function BeforeFiles(data: Form, parse: string -> StandsParse): seq<Piece> {
    ContactSection(data) + ProductSection(data) + GrommetsSection(data) + StandsSection(data, parse) + FrameSection(data)
  }

  /** From index `k` to the end, `ps` holds the files heading and one
      numbered link per file, in upload order. */
  predicate LinksListedAt(ps: seq<Piece>, k: nat, files: seq<FileMeta>, protocol: string, host: string) {
    && k + 1 + |files| == |ps|
    && ps[k] == FilesHeading
    && forall i :: 0 <= i < |files| ==>
         ps[k + 1 + i] == FileLink(i + 1, files[i].originalName, FileUrl(protocol, host, files[i].path))
  }

  /** The last of two concatenated lists sits at the end. */
  lemma LastAt(a: seq<Piece>, b: seq<Piece>)
    ensures SectionAt(a + b, |a|, b) && |a| + |b| == |a + b|
  {
  }

  /** Where `b` is one piece followed by `e` and sits at `k`, `e` sits at `k + 1`. */
  lemma OneThenAt(ps: seq<Piece>, k: nat, b: seq<Piece>, x: Piece, e: seq<Piece>)
    requires SectionAt(ps, k, b)
    requires b == [x] + e
    ensures k + 1 + |e| <= |ps| && ps[k] == x
    ensures forall j :: 0 <= j < |e| ==> ps[k + 1 + j] == e[j]
  {
    assert ps[k + 0] == b[0];
    forall j | 0 <= j < |e|
      ensures ps[k + 1 + j] == e[j]
    {
      assert ps[k + (1 + j)] == b[1 + j];
    }
  }

  lemma LinksAt(ps: seq<Piece>, k: nat, b: seq<Piece>, files: seq<FileMeta>, protocol: string, host: string)
    requires SectionAt(ps, k, b) && k + |b| == |ps|
    requires b == [FilesHeading] + FileLinks(files, protocol, host)
    ensures LinksListedAt(ps, k, files, protocol, host)
  {
    OneThenAt(ps, k, b, FilesHeading, FileLinks(files, protocol, host));
    FileLinksAt(files, protocol, host);
  }

  /** When files were uploaded, the message ends with the files heading and
      one numbered link per file, in upload order. */
  lemma FileLinksInOrder(data: Form, files: seq<FileMeta>, protocol: string, host: string,
                         parse: string -> StandsParse)
    requires |files| > 0
    ensures LinksListedAt(Pieces(data, files, protocol, host, parse), |BeforeFiles(data, parse)|, files, protocol, host)
  {
    assert Pieces(data, files, protocol, host, parse) == BeforeFiles(data, parse) + FilesSection(files, protocol, host);
    LastAt(BeforeFiles(data, parse), FilesSection(files, protocol, host));
    LinksAt(Pieces(data, files, protocol, host, parse), |BeforeFiles(data, parse)|, FilesSection(files, protocol, host),
            files, protocol, host);
  }

  /** The text of a link line starts with its number and a dot. */
  lemma LinkLineStart(n: nat, originalName: string, url: string)
    ensures NatToString(n) + ". " <= Render(FileLink(n, originalName, url))
  {
    var start := NatToString(n) + ". ";
    PrefixOfAppend(start, start, MarkdownLink(originalName, url));
    PrefixOfAppend(start, start + MarkdownLink(originalName, url), "\n");
  }

  /** The line of the i-th file (from 0) starts with `i+1. `; by
      `Decimal.ParseNatToString` that number reads back as the file's position
      counted from 1. */
  lemma FileLinkNumbering(data: Form, files: seq<FileMeta>, protocol: string, host: string,
                          parse: string -> StandsParse, i: nat)
    requires |files| > 0 && i < |files|
    ensures var ps := Pieces(data, files, protocol, host, parse);
      && |BeforeFiles(data, parse)| + 1 + i < |ps|
      && NatToString(i + 1) + ". " <= Render(ps[|BeforeFiles(data, parse)| + 1 + i])
  {
    FileLinksInOrder(data, files, protocol, host, parse);
    LinkLineStart(i + 1, files[i].originalName, FileUrl(protocol, host, files[i].path));
  }
}
