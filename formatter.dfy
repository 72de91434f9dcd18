/** The notification text built by the `/submit` handler. The text is grown
    by one `+=` after another; each appended piece is a `Piece` here, so the
    message is the concatenation of the rendered pieces, in order. */
module Formatter {
  import opened Submission
  import opened Decimal

  /** How the `try` block over `stands_details` ends. Entry values are given
      as the template literal prints them.
      - `Unparsable`: `JSON.parse` threw, before anything was written.
      - `ParsedEntries(entries)`: every entry was printed.
      - `ThrewAfterHeading(printed)`: parsing succeeded, so the heading is
        out, and then something threw: `Object.entries` itself (the JSON
        literal `null`, with nothing `printed`), or `${value}` on an entry
        whose value cannot be printed, after the entries `printed` before it. */
  datatype StandsParse =
    | Unparsable
    | ParsedEntries(entries: seq<(string, string)>)
    | ThrewAfterHeading(printed: seq<(string, string)>)

  /** The entries written under the details heading. */
  function ListedEntries(outcome: StandsParse): seq<(string, string)> {
    match outcome
    case Unparsable => []
    case ParsedEntries(es) => es
    case ThrewAfterHeading(printed) => printed
  }

  /** One appended piece of the message. */
  datatype Piece =
    | Heading
    | Name(name: string)
    | Phone(phone: string)
    | Email(email: string)
    | Comment(comment: string)
    | Total(total: string)
    | Product(product: string)
    | Size(width: string, height: string)
    | Material(material: string)
    | Quantity(quantity: string)
    | Grommets(grommetsOn: bool)
    | GrommetCount(count: string)
    | Stands(standsOn: bool)
    | StandsHeading
    | StandsEntry(key: string, value: string)
    | StandsRaw(raw: string)
    | Frame(frameOn: bool)
    | FrameColor(color: string)
    | FilesHeading
    | FileLink(ordinal: nat, linkText: string, url: string)

  // What `||` substitutes for an empty field.
  const NamePlaceholder := "Не указано"
  const PhonePlaceholder := "Не указан"
  const ProductPlaceholder := "Не выбран"
  const GrommetCountDefault := "0"

  const HeadingText := "📄 *Новая заявка*:\n\n"
  const FilesHeadingText := "\n📎 *Файлы:*\n"

  /** The link target of an uploaded file: `${protocol}://${host}/${path}`. */
  function FileUrl(protocol: string, host: string, path: string): string {
    protocol + "://" + host + "/" + path
  }

  /** A Markdown link `[text](url)`. */
  function MarkdownLink(linkText: string, url: string): string {
    "[" + linkText + "](" + url + ")"
  }

  /** The Markdown text of one piece. */
  function Render(p: Piece): string {
    match p
    case Heading => HeadingText
    case Name(v) => "*Имя:* " + v + "\n"
    case Phone(v) => "*Телефон:* " + v + "\n"
    case Email(v) => "*Почта:* " + v + "\n"
    case Comment(v) => "*Комментарий:* " + v + "\n"
    case Total(v) => "*Итого:* " + v + "\n"
    case Product(v) => "\n*Вид продукции:* " + v + "\n"
    case Size(w, h) => "*Размер:* " + w + " x " + h + " мм\n"
    case Material(v) => "*Материал:* " + v + "\n"
    case Quantity(v) => "*Количество:* " + v + "\n"
    case Grommets(on) => if on then "*Установка люверсов:* Да\n" else "*Установка люверсов:* Нет\n"
    case GrommetCount(v) => "*Количество люверсов:* " + v + "\n"
    case Stands(on) => if on then "*Для стендов:* Да\n" else "*Для стендов:* Нет\n"
    case StandsHeading => "*Детали стендов:*\n"
    case StandsEntry(k, v) => " - " + k + ": " + v + "\n"
    case StandsRaw(raw) => "*Детали стендов:* " + raw + "\n"
    case Frame(on) => if on then "*Обрамление профилем:* Да\n" else "*Обрамление профилем:* Нет\n"
    case FrameColor(v) => "*Цвет обрамления:* " + v + "\n"
    case FilesHeading => FilesHeadingText
    case FileLink(n, linkText, url) => NatToString(n) + ". " + MarkdownLink(linkText, url) + "\n"
  }

  /** The rendered pieces, one after another. */
  function Concat(ps: seq<Piece>): string {
    if ps == [] then [] else Concat(ps[..|ps| - 1]) + Render(ps[|ps| - 1])
  }

  // The sections of the message, in the order the handler appends them.

  /** Lines 63-65: the heading, then name and phone with their placeholders. */
  function ContactRequired(data: Form): seq<Piece> {
    [Heading, Name(OrElse(data, NameKey, NamePlaceholder)), Phone(OrElse(data, PhoneKey, PhonePlaceholder))]
  }

  // Lines 66-74: e-mail, comment and price summary, each only when filled in.
  function EmailLine(data: Form): seq<Piece> {
    if Truthy(data, EmailKey) then [Email(data[EmailKey])] else []
  }

  function CommentLine(data: Form): seq<Piece> {
    if Truthy(data, CommentKey) then [Comment(data[CommentKey])] else []
  }

  function TotalLine(data: Form): seq<Piece> {
    if Truthy(data, TotalKey) then [Total(data[TotalKey])] else []
  }

  function ContactExtras(data: Form): seq<Piece> {
    EmailLine(data) + CommentLine(data) + TotalLine(data)
  }

  function ContactSection(data: Form): seq<Piece> {
    ContactRequired(data) + ContactExtras(data)
  }

  /** Lines 79-81: material, only when filled in. */
  function MaterialLine(data: Form): seq<Piece> {
    if Truthy(data, MaterialKey) then [Material(data[MaterialKey])] else []
  }

  /** Lines 79-82: material when filled in, then quantity. */
  function MaterialAndQuantity(data: Form): seq<Piece> {
    MaterialLine(data) + [Quantity(Show(data, QuantityKey))]
  }

  /** Lines 77-82: product type and size, then material and quantity. */
  function ProductSection(data: Form): seq<Piece> {
    [Product(OrElse(data, ProductKey, ProductPlaceholder)), Size(Show(data, WidthKey), Show(data, HeightKey))]
    + MaterialAndQuantity(data)
  }

  /** Lines 84-89: the grommets toggle, then the count when the toggle is on. */
  function GrommetsSection(data: Form): seq<Piece> {
    [Grommets(IsOn(data, GrommetsKey))] + GrommetCountLine(data)
  }

  function GrommetCountLine(data: Form): seq<Piece> {
    if IsOn(data, GrommetsKey) then [GrommetCount(OrElse(data, GrommetCountKey, GrommetCountDefault))] else []
  }

  /** One ` - key: value` piece per parsed entry, in entry order. */
  function EntryPieces(es: seq<(string, string)>): seq<Piece> {
    if es == [] then []
    else EntryPieces(es[..|es| - 1]) + [StandsEntry(es[|es| - 1].0, es[|es| - 1].1)]
  }

  /** Lines 93-105, the `try` block and its `catch`: the raw text when parsing
      threw; the heading and the entries when all of them print; the heading,
      the entries printed so far and then the raw text when something throws
      after the heading. */
  function StandsDetails(raw: string, parse: string -> StandsParse): seq<Piece> {
    match parse(raw)
    case Unparsable => [StandsRaw(raw)]
    case ParsedEntries(es) => [StandsHeading] + EntryPieces(es)
    case ThrewAfterHeading(printed) => [StandsHeading] + EntryPieces(printed) + [StandsRaw(raw)]
  }

  /** The stands toggle and, when it is on and details are given, the details. */
  function StandsSection(data: Form, parse: string -> StandsParse): seq<Piece> {
    [Stands(IsOn(data, StandsKey))] + ShownStandsDetails(data, parse)
  }

  /** The details, when the toggle is on and details are given. */
  function ShownStandsDetails(data: Form, parse: string -> StandsParse): seq<Piece> {
    if IsOn(data, StandsKey) && Truthy(data, StandsDetailsKey) then StandsDetails(data[StandsDetailsKey], parse) else []
  }

  /** Lines 110-117: the frame toggle, then the colour when the toggle is on
      and a colour is given. */
  function FrameSection(data: Form): seq<Piece> {
    [Frame(IsOn(data, FrameKey))] + FrameColorLine(data)
  }

  function FrameColorLine(data: Form): seq<Piece> {
    if IsOn(data, FrameKey) && Truthy(data, FrameColorKey) then [FrameColor(data[FrameColorKey])] else []
  }

  /** One numbered link per file, in upload order. */
  function FileLinks(files: seq<FileMeta>, protocol: string, host: string): seq<Piece> {
    if files == [] then []
    else
      var last := files[|files| - 1];
      FileLinks(files[..|files| - 1], protocol, host) + [FileLink(|files|, last.originalName, FileUrl(protocol, host, last.path))]
  }

  function FilesSection(files: seq<FileMeta>, protocol: string, host: string): seq<Piece> {
    if |files| == 0 then [] else [FilesHeading] + FileLinks(files, protocol, host)
  }

  /** Every piece of the message, in order. */
  function Pieces(data: Form, files: seq<FileMeta>, protocol: string, host: string,
                  parse: string -> StandsParse): seq<Piece>
  {
    ContactSection(data) + ProductSection(data) + GrommetsSection(data)
    + StandsSection(data, parse) + FrameSection(data) + FilesSection(files, protocol, host)
  }

  /** The notification text. */
  function Message(data: Form, files: seq<FileMeta>, protocol: string, host: string,
                   parse: string -> StandsParse): string
  {
    Concat(Pieces(data, files, protocol, host, parse))
  }

  lemma ConcatSnoc(ps: seq<Piece>, p: Piece)
    ensures Concat(ps + [p]) == Concat(ps) + Render(p)
  {
    assert (ps + [p])[..|ps|] == ps;
  }

  /** String concatenation is associative. Stated apart so that the
      appender lemmas below use it without their own context. */
  lemma Associative(x: string, y: string, z: string)
    ensures (x + y) + z == x + (y + z)
  {
  }

  lemma {:induction false} ConcatAppend(a: seq<Piece>, b: seq<Piece>)
    ensures Concat(a + b) == Concat(a) + Concat(b)
    decreases |b|
  {
    if b == [] {
      assert a + b == a;
    } else {
      var b', x := b[..|b| - 1], b[|b| - 1];
      assert b == b' + [x];
      assert a + b == (a + b') + [x];
      ConcatSnoc(a + b', x);
      ConcatAppend(a, b');
      ConcatSnoc(b', x);
      Associative(Concat(a), Concat(b'), Render(x));
    }
  }

  /** One `+=` step of a section appender: appending the rendered piece `p`
      to `message + Concat(ps)` extends the section by `p`. */
  lemma AppendStep(message: string, ps: seq<Piece>, p: Piece)
    ensures message + Concat(ps + [p]) == (message + Concat(ps)) + Render(p)
  {
    ConcatSnoc(ps, p);
    Associative(message, Concat(ps), Render(p));
  }

  lemma ConcatSingle(p: Piece)
    ensures Concat([p]) == Render(p)
  {
    ConcatSnoc([], p);
    assert [] + [p] == [p];
  }

  lemma ConcatTwo(p: Piece, q: Piece)
    ensures Concat([p, q]) == Render(p) + Render(q)
  {
    ConcatSingle(p);
    ConcatSnoc([p], q);
    assert [p] + [q] == [p, q];
  }

  lemma ConcatThree(p: Piece, q: Piece, r: Piece)
    ensures Concat([p, q, r]) == Render(p) + Render(q) + Render(r)
  {
    ConcatTwo(p, q);
    ConcatSnoc([p, q], r);
    assert [p, q] + [r] == [p, q, r];
  }

  // One, two or three `+=` steps append the rendered pieces in order.

  lemma AppendOne(message: string, p: Piece)
    ensures message + Concat([p]) == message + Render(p)
  {
    ConcatSingle(p);
  }

  lemma AppendTwo(message: string, p: Piece, q: Piece)
    ensures message + Concat([p, q]) == (message + Render(p)) + Render(q)
  {
    ConcatTwo(p, q);
    Associative(message, Render(p), Render(q));
  }

  lemma AppendThree(message: string, p: Piece, q: Piece, r: Piece)
    ensures message + Concat([p, q, r]) == ((message + Render(p)) + Render(q)) + Render(r)
  {
    ConcatThree(p, q, r);
    Associative(message, Render(p), Render(q));
    Associative(message, Render(p) + Render(q), Render(r));
  }

  // The toggle sections, branch by branch.

  lemma GrommetsShape(data: Form)
    ensures GrommetsSection(data)
         == if IsOn(data, GrommetsKey) then [Grommets(true), GrommetCount(OrElse(data, GrommetCountKey, GrommetCountDefault))]
            else [Grommets(false)]
  {
  }

  lemma StandsShape(data: Form, parse: string -> StandsParse)
    ensures StandsSection(data, parse)
         == if !IsOn(data, StandsKey) then [Stands(false)]
            else if !Truthy(data, StandsDetailsKey) then [Stands(true)]
            else [Stands(true)] + StandsDetails(data[StandsDetailsKey], parse)
  {
  }

  lemma FrameShape(data: Form)
    ensures FrameSection(data)
         == if !IsOn(data, FrameKey) then [Frame(false)]
            else if Truthy(data, FrameColorKey) then [Frame(true), FrameColor(data[FrameColorKey])]
            else [Frame(true)]
  {
  }

  /** Appending a whole run of pieces `qs` at once. */
  lemma AppendSection(message: string, ps: seq<Piece>, qs: seq<Piece>)
    ensures message + Concat(ps + qs) == (message + Concat(ps)) + Concat(qs)
  {
    ConcatAppend(ps, qs);
    Associative(message, Concat(ps), Concat(qs));
  }

  lemma EntryPiecesStep(es: seq<(string, string)>, i: nat, message: string)
    requires i < |es|
    ensures message + Concat(EntryPieces(es[..i + 1]))
         == (message + Concat(EntryPieces(es[..i]))) + Render(StandsEntry(es[i].0, es[i].1))
  {
    assert es[..i + 1][..i] == es[..i];
    AppendStep(message, EntryPieces(es[..i]), StandsEntry(es[i].0, es[i].1));
  }

  lemma FileLinksStep(files: seq<FileMeta>, protocol: string, host: string, i: nat, message: string)
    requires i < |files|
    ensures message + Concat(FileLinks(files[..i + 1], protocol, host))
         == (message + Concat(FileLinks(files[..i], protocol, host)))
            + Render(FileLink(i + 1, files[i].originalName, FileUrl(protocol, host, files[i].path)))
  {
    assert files[..i + 1][..i] == files[..i];
    AppendStep(message, FileLinks(files[..i], protocol, host),
               FileLink(i + 1, files[i].originalName, FileUrl(protocol, host, files[i].path)));
  }

  // The message is grown section by section; each method below appends one
  // section to `message` with `+=`, exactly as the handler does.

  /** Lines 63-65: heading, name and phone, then the optional lines. */
  method AppendContact(data: Form, message: string) returns (out: string)
    ensures out == message + Concat(ContactSection(data))
  {
    var name, phone := OrElse(data, NameKey, NamePlaceholder), OrElse(data, PhoneKey, PhonePlaceholder);
    out := message + "📄 *Новая заявка*:\n\n";
    out := out + ("*Имя:* " + name + "\n");
    out := out + ("*Телефон:* " + phone + "\n");
    AppendThree(message, Heading, Name(name), Phone(phone));
    out := AppendContactExtras(data, out);
    AppendSection(message, ContactRequired(data), ContactExtras(data));
  }

  /** Lines 66-74: e-mail, comment and price summary when filled in. */
  method AppendContactExtras(data: Form, message: string) returns (out: string)
    ensures out == message + Concat(ContactExtras(data))
  {
    out := AppendEmail(data, message);
    out := AppendComment(data, out);
    AppendSection(message, EmailLine(data), CommentLine(data));
    out := AppendTotal(data, out);
    AppendSection(message, EmailLine(data) + CommentLine(data), TotalLine(data));
  }

  method AppendEmail(data: Form, message: string) returns (out: string)
    ensures out == message + Concat(EmailLine(data))
  {
    if Truthy(data, EmailKey) {
      out := message + ("*Почта:* " + data[EmailKey] + "\n");
      AppendOne(message, Email(data[EmailKey]));
    } else {
      out := message;
      assert message + Concat([]) == message;
    }
  }

  method AppendComment(data: Form, message: string) returns (out: string)
    ensures out == message + Concat(CommentLine(data))
  {
    if Truthy(data, CommentKey) {
      out := message + ("*Комментарий:* " + data[CommentKey] + "\n");
      AppendOne(message, Comment(data[CommentKey]));
    } else {
      out := message;
      assert message + Concat([]) == message;
    }
  }

  method AppendTotal(data: Form, message: string) returns (out: string)
    ensures out == message + Concat(TotalLine(data))
  {
    if Truthy(data, TotalKey) {
      out := message + ("*Итого:* " + data[TotalKey] + "\n");
      AppendOne(message, Total(data[TotalKey]));
    } else {
      out := message;
      assert message + Concat([]) == message;
    }
  }

  /** Lines 77-78: product type and size, then material and quantity. */
  method AppendProduct(data: Form, message: string) returns (out: string)
    ensures out == message + Concat(ProductSection(data))
  {
    var product, width, height := OrElse(data, ProductKey, ProductPlaceholder), Show(data, WidthKey), Show(data, HeightKey);
    out := AppendProductAndSize(product, width, height, message);
    out := AppendMaterialAndQuantity(data, out);
    AppendSection(message, [Product(product), Size(width, height)], MaterialAndQuantity(data));
  }

  method AppendProductAndSize(product: string, width: string, height: string, message: string) returns (out: string)
    ensures out == message + Concat([Product(product), Size(width, height)])
  {
    out := message + ("\n*Вид продукции:* " + product + "\n");
    out := out + ("*Размер:* " + width + " x " + height + " мм\n");
    AppendTwo(message, Product(product), Size(width, height));
  }

  /** Lines 79-82: material when filled in, then quantity. */
  method AppendMaterialAndQuantity(data: Form, message: string) returns (out: string)
    ensures out == message + Concat(MaterialAndQuantity(data))
  {
    if Truthy(data, MaterialKey) {
      out := message + ("*Материал:* " + data[MaterialKey] + "\n");
      AppendOne(message, Material(data[MaterialKey]));
    } else {
      out := message;
      assert message + Concat([]) == message;
    }
    var quantity := Show(data, QuantityKey);
    out := out + ("*Количество:* " + quantity + "\n");
    AppendStep(message, MaterialLine(data), Quantity(quantity));
  }

  /** Lines 84-89: the grommets toggle and, when on, the grommet count. */
  method AppendGrommets(data: Form, message: string) returns (out: string)
    ensures out == message + Concat(GrommetsSection(data))
  {
    GrommetsShape(data);
    if IsOn(data, GrommetsKey) {
      var count := OrElse(data, GrommetCountKey, GrommetCountDefault);
      out := message + "*Установка люверсов:* Да\n";
      out := out + ("*Количество люверсов:* " + count + "\n");
      AppendTwo(message, Grommets(true), GrommetCount(count));
    } else {
      out := message + "*Установка люверсов:* Нет\n";
      AppendOne(message, Grommets(false));
    }
  }

  /** Lines 98-100: the `for…of` loop over the parsed entries, one
      ` - key: value` line each, in entry order. */
  method AppendEntries(es: seq<(string, string)>, message: string) returns (out: string)
    ensures out == message + Concat(EntryPieces(es))
  {
    out := message;
    var i := 0;
    while i < |es|
      invariant 0 <= i <= |es|
      invariant out == message + Concat(EntryPieces(es[..i]))
    {
      var (key, value) := es[i];
      out := out + (" - " + key + ": " + value + "\n");
      EntryPiecesStep(es, i, message);
      i := i + 1;
    }
    assert es[..i] == es;
  }

  /** Lines 97-100: the details heading, then the entries. */
  method AppendListedEntries(es: seq<(string, string)>, message: string) returns (out: string)
    ensures out == message + Concat([StandsHeading] + EntryPieces(es))
  {
    out := message + "*Детали стендов:*\n";
    AppendOne(message, StandsHeading);
    out := AppendEntries(es, out);
    AppendSection(message, [StandsHeading], EntryPieces(es));
  }

  /** Lines 94-105: parse the details and list the entries under a heading;
      when something throws, the `catch` block writes the raw text after
      whatever the `try` block had written. */
  method AppendStandsDetails(raw: string, parse: string -> StandsParse, message: string) returns (out: string)
    ensures out == message + Concat(StandsDetails(raw, parse))
  {
    var parsed := parse(raw);
    match parsed
    case Unparsable =>
      out := message + ("*Детали стендов:* " + raw + "\n");
      AppendOne(message, StandsRaw(raw));
    case ParsedEntries(entries) =>
      out := AppendListedEntries(entries, message);
    case ThrewAfterHeading(printed) =>
      out := AppendThrownDetails(raw, printed, message);
  }

  /** Lines 97-104 when something throws after the heading: the heading, the
      entries printed before the throw, then the raw text from the `catch`. */
  method AppendThrownDetails(raw: string, printed: seq<(string, string)>, message: string) returns (out: string)
    ensures out == message + Concat([StandsHeading] + EntryPieces(printed) + [StandsRaw(raw)])
  {
    out := AppendListedEntries(printed, message);
    out := out + ("*Детали стендов:* " + raw + "\n");
    AppendStep(message, [StandsHeading] + EntryPieces(printed), StandsRaw(raw));
  }

  /** Lines 91-108: the stands toggle and, when on and details are given, the details. */
  method AppendStands(data: Form, parse: string -> StandsParse, message: string) returns (out: string)
    ensures out == message + Concat(StandsSection(data, parse))
  {
    StandsShape(data, parse);
    if IsOn(data, StandsKey) {
      out := message + "*Для стендов:* Да\n";
      AppendOne(message, Stands(true));
      if Truthy(data, StandsDetailsKey) {
        out := AppendStandsDetails(data[StandsDetailsKey], parse, out);
        AppendSection(message, [Stands(true)], StandsDetails(data[StandsDetailsKey], parse));
      }
    } else {
      out := message + "*Для стендов:* Нет\n";
      AppendOne(message, Stands(false));
    }
  }

  /** Lines 112-114: the frame colour, when the frame is on and a colour is given. */
  method AppendFrameColor(data: Form, message: string) returns (out: string)
    requires IsOn(data, FrameKey)
    ensures out == message + Concat(FrameColorLine(data))
  {
    if Truthy(data, FrameColorKey) {
      out := message + ("*Цвет обрамления:* " + data[FrameColorKey] + "\n");
      AppendOne(message, FrameColor(data[FrameColorKey]));
    } else {
      out := message;
      assert message + Concat([]) == message;
    }
  }

  /** Lines 110-117: the frame toggle and, when on, the frame colour if given. */
  method AppendFrame(data: Form, message: string) returns (out: string)
    ensures out == message + Concat(FrameSection(data))
  {
    FrameShape(data);
    if IsOn(data, FrameKey) {
      out := message + "*Обрамление профилем:* Да\n";
      AppendOne(message, Frame(true));
      out := AppendFrameColor(data, out);
      AppendSection(message, [Frame(true)], FrameColorLine(data));
    } else {
      out := message + "*Обрамление профилем:* Нет\n";
      AppendOne(message, Frame(false));
    }
  }

  /** Lines 122-125: the `forEach` loop over the files, one numbered link
      per file, in upload order. */
  method AppendFileLinks(files: seq<FileMeta>, protocol: string, host: string, message: string)
    returns (out: string)
    ensures out == message + Concat(FileLinks(files, protocol, host))
  {
    out := message;
    var index := 0;
    while index < |files|
      invariant 0 <= index <= |files|
      invariant out == message + Concat(FileLinks(files[..index], protocol, host))
    {
      out := AppendFileLink(index + 1, files[index], protocol, host, out);
      FileLinksStep(files, protocol, host, index, message);
      index := index + 1;
    }
    assert files[..index] == files;
  }

  /** Lines 123-124: one numbered link to an uploaded file. */
  method AppendFileLink(number: nat, file: FileMeta, protocol: string, host: string, message: string)
    returns (out: string)
    ensures out == message + Render(FileLink(number, file.originalName, FileUrl(protocol, host, file.path)))
  {
    var fileUrl := protocol + "://" + host + "/" + file.path;
    out := message + (NatToString(number) + ". " + MarkdownLink(file.originalName, fileUrl) + "\n");
  }

  /** Lines 120-126: when there are files, a heading and then the links. */
  method AppendFiles(files: seq<FileMeta>, protocol: string, host: string, message: string)
    returns (out: string)
    ensures out == message + Concat(FilesSection(files, protocol, host))
  {
    if |files| > 0 {
      out := message + "\n📎 *Файлы:*\n";
      AppendOne(message, FilesHeading);
      out := AppendFileLinks(files, protocol, host, out);
      AppendSection(message, [FilesHeading], FileLinks(files, protocol, host));
    } else {
      out := message;
      assert message + Concat([]) == message;
    }
  }

  /** The message builder of the handler (lines 63-126): the sections, one
      after another, starting from the empty text. The text it builds is `Message`. */
  method BuildMessage(data: Form, files: seq<FileMeta>, protocol: string, host: string,
                      parse: string -> StandsParse) returns (message: string)
    ensures message == Message(data, files, protocol, host, parse)
  {
    message := AppendContact(data, "");
    message := AppendProduct(data, message);
    message := AppendGrommets(data, message);
    message := AppendStands(data, parse, message);
    message := AppendFrame(data, message);
    message := AppendFiles(files, protocol, host, message);
    ghost var c, p, g := ContactSection(data), ProductSection(data), GrommetsSection(data);
    ghost var st, fr, fi := StandsSection(data, parse), FrameSection(data), FilesSection(files, protocol, host);
    ConcatAppend(c, p);
    ConcatAppend(c + p, g);
    ConcatAppend(c + p + g, st);
    ConcatAppend(c + p + g + st, fr);
    ConcatAppend(c + p + g + st + fr, fi);
    assert "" + Concat(c) == Concat(c);
  }
}
