/** The `/submit` handler as the sequence of outside effects it issues: the
    400 rejection, or the notification text, then each attachment sent and
    unlinked in upload order, then the 200 reply. */
module Handler {
  import opened Submission
  import opened Formatter

  /** One observable step of the handler. `Unlink` is the removal of the
      stored copy being issued; its callback only logs. */
  datatype Effect =
    | SendMessage(text: string)
    | SendDocument(file: FileMeta)
    | Unlink(path: string)
    | Respond(status: nat, body: string)

  const MissingFieldsStatus: nat := 400
  const MissingFieldsText := "Пожалуйста, заполните все обязательные поля."
  const AcceptedStatus: nat := 200
  const AcceptedText := "Заявка успешно отправлена!"

  /** Each file is sent as a document and then unlinked, file after file. */
  function DispatchTrace(files: seq<FileMeta>): (trace: seq<Effect>)
    ensures |trace| == 2 * |files|
  {
    if files == [] then []
    else
      var last := files[|files| - 1];
      DispatchTrace(files[..|files| - 1]) + [SendDocument(last), Unlink(last.path)]
  }

  /** What the handler does for one request. */
  function SubmitTrace(data: Form, files: seq<FileMeta>, protocol: string, host: string,
                       parse: string -> StandsParse): seq<Effect>
  {
    if !Validate(data) then [Respond(MissingFieldsStatus, MissingFieldsText)]
    else [SendMessage(Message(data, files, protocol, host, parse))]
         + DispatchTrace(files)
         + [Respond(AcceptedStatus, AcceptedText)]
  }

  lemma DispatchStep(files: seq<FileMeta>, i: nat)
    requires i < |files|
    ensures DispatchTrace(files[..i + 1])
         == DispatchTrace(files[..i]) + [SendDocument(files[i]), Unlink(files[i].path)]
  {
    assert files[..i + 1][..i] == files[..i];
  }

  /** The handler at lines 48-146 without the `catch` block: validate, build
      the text, send it, then send and unlink every attachment in order, and
      reply 200. */
  method Submit(data: Form, files: seq<FileMeta>, protocol: string, host: string,
                parse: string -> StandsParse) returns (trace: seq<Effect>)
    ensures trace == SubmitTrace(data, files, protocol, host, parse)
  {
    if !Validate(data) {
      trace := [Respond(MissingFieldsStatus, MissingFieldsText)];
      return;
    }
    var message := BuildMessage(data, files, protocol, host, parse);
    trace := [SendMessage(message)];
    if |files| > 0 {
      trace := Dispatch(files, trace);
    } else {
      assert trace == trace + DispatchTrace(files);
    }
    trace := trace + [Respond(AcceptedStatus, AcceptedText)];
  }

  /** Lines 133-139: the `for…of` loop that sends each attachment and then
      issues the removal of its stored copy. */
  method Dispatch(files: seq<FileMeta>, before: seq<Effect>) returns (trace: seq<Effect>)
    ensures trace == before + DispatchTrace(files)
  {
    trace := before;
    assert before + DispatchTrace(files[..0]) == before;
    for i := 0 to |files|
      invariant trace == before + DispatchTrace(files[..i])
    {
      trace := trace + [SendDocument(files[i])];
      trace := trace + [Unlink(files[i].path)];
      assert before + DispatchTrace(files[..i]) + [SendDocument(files[i]), Unlink(files[i].path)]
          == before + (DispatchTrace(files[..i]) + [SendDocument(files[i]), Unlink(files[i].path)]);
      DispatchStep(files, i);
    }
    assert files[..|files|] == files;
  }

  // What the trace promises.

  /** The files sent as documents, in the order they were sent. */
  function DocumentsSent(trace: seq<Effect>): seq<FileMeta> {
    if trace == [] then []
    else
      var rest := DocumentsSent(trace[..|trace| - 1]);
      match trace[|trace| - 1]
      case SendDocument(file) => rest + [file]
      case _ => rest
  }

  /** The stored copies unlinked, in the order the removals were issued. */
  function PathsUnlinked(trace: seq<Effect>): seq<string> {
    if trace == [] then []
    else
      var rest := PathsUnlinked(trace[..|trace| - 1]);
      match trace[|trace| - 1]
      case Unlink(path) => rest + [path]
      case _ => rest
  }

  /** The request was rejected: the 400 reply and nothing else. */
  predicate Rejected(trace: seq<Effect>) {
    trace == [Respond(MissingFieldsStatus, MissingFieldsText)]
  }

  /** An accepted trace for `files`: the text first and nowhere else, then
      for every file its document and right after it its unlink, then the
      200 reply last. */
  predicate AcceptedShape(trace: seq<Effect>, text: string, files: seq<FileMeta>) {
    && |trace| == 2 * |files| + 2
    && trace[0] == SendMessage(text)
    && (forall i :: 0 <= i < |files| ==>
          trace[1 + 2 * i] == SendDocument(files[i]) && trace[2 + 2 * i] == Unlink(files[i].path))
    && trace[|trace| - 1] == Respond(AcceptedStatus, AcceptedText)
  }

  lemma {:induction false} DocumentsSentAppend(a: seq<Effect>, b: seq<Effect>)
    ensures DocumentsSent(a + b) == DocumentsSent(a) + DocumentsSent(b)
    decreases |b|
  {
    if b == [] {
      assert a + b == a;
    } else {
      var b' := b[..|b| - 1];
      assert (a + b)[..|a + b| - 1] == a + b';
      DocumentsSentAppend(a, b');
    }
  }

  lemma {:induction false} PathsUnlinkedAppend(a: seq<Effect>, b: seq<Effect>)
    ensures PathsUnlinked(a + b) == PathsUnlinked(a) + PathsUnlinked(b)
    decreases |b|
  {
    if b == [] {
      assert a + b == a;
    } else {
      var b' := b[..|b| - 1];
      assert (a + b)[..|a + b| - 1] == a + b';
      PathsUnlinkedAppend(a, b');
    }
  }

  lemma DocumentsOfPair(file: FileMeta)
    ensures DocumentsSent([SendDocument(file), Unlink(file.path)]) == [file]
  {
    assert [SendDocument(file), Unlink(file.path)][..1] == [SendDocument(file)];
    assert [SendDocument(file)][..0] == [];
    assert DocumentsSent([SendDocument(file)]) == [file];
  }

  lemma UnlinksOfPair(file: FileMeta)
    ensures PathsUnlinked([SendDocument(file), Unlink(file.path)]) == [file.path]
  {
    assert [SendDocument(file), Unlink(file.path)][..1] == [SendDocument(file)];
    assert [SendDocument(file)][..0] == [];
    assert PathsUnlinked([SendDocument(file)]) == [];
  }

  /** The storage paths of `files`, in upload order. */
  function PathsOf(files: seq<FileMeta>): (paths: seq<string>)
    ensures |paths| == |files|
  {
    if files == [] then [] else PathsOf(files[..|files| - 1]) + [files[|files| - 1].path]
  }

  lemma {:induction false} PathsOfAt(files: seq<FileMeta>, i: nat)
    requires i < |files|
    ensures PathsOf(files)[i] == files[i].path
    decreases |files|
  {
    if i < |files| - 1 {
      PathsOfAt(files[..|files| - 1], i);
    }
  }

  /** Dispatching sends every file exactly once, in upload order. */
  lemma {:induction false} DispatchSendsEach(files: seq<FileMeta>)
    ensures DocumentsSent(DispatchTrace(files)) == files
  {
    if files != [] {
      var init, last := files[..|files| - 1], files[|files| - 1];
      DispatchSendsEach(init);
      DocumentsSentAppend(DispatchTrace(init), [SendDocument(last), Unlink(last.path)]);
      DocumentsOfPair(last);
      assert init + [last] == files;
    }
  }

  /** Dispatching unlinks every stored copy, in upload order. */
  lemma {:induction false} DispatchUnlinksEach(files: seq<FileMeta>)
    ensures PathsUnlinked(DispatchTrace(files)) == PathsOf(files)
  {
    if files != [] {
      var init, last := files[..|files| - 1], files[|files| - 1];
      DispatchUnlinksEach(init);
      PathsUnlinkedAppend(DispatchTrace(init), [SendDocument(last), Unlink(last.path)]);
      UnlinksOfPair(last);
    }
  }

  /** Dispatching issues only document sends and unlinks. */
  lemma {:induction false} DispatchOnlyFileEffects(files: seq<FileMeta>)
    ensures OnlyFileEffects(DispatchTrace(files))
  {
    if files != [] {
      var init, last := files[..|files| - 1], files[|files| - 1];
      DispatchOnlyFileEffects(init);
      OnlyFileEffectsAppend(DispatchTrace(init), [SendDocument(last), Unlink(last.path)]);
    }
  }

  predicate OnlyFileEffects(trace: seq<Effect>) {
    forall e :: e in trace ==> e.SendDocument? || e.Unlink?
  }

  lemma OnlyFileEffectsAppend(a: seq<Effect>, b: seq<Effect>)
    requires OnlyFileEffects(a) && OnlyFileEffects(b)
    ensures OnlyFileEffects(a + b)
  {
  }

  /** The text is sent only as the first effect. */
  predicate TextOnlyFirst(trace: seq<Effect>) {
    forall j :: 0 < j < |trace| ==> !trace[j].SendMessage?
  }

  /** A reply is given only as the last effect. */
  predicate ReplyOnlyLast(trace: seq<Effect>) {
    forall j :: 0 <= j < |trace| - 1 ==> !trace[j].Respond?
  }

  lemma Framed(first: Effect, middle: seq<Effect>, last: Effect)
    requires !first.Respond? && !last.SendMessage?
    requires OnlyFileEffects(middle)
    ensures TextOnlyFirst([first] + middle + [last])
    ensures ReplyOnlyLast([first] + middle + [last])
  {
    var trace := [first] + middle + [last];
    forall j | 0 < j < |trace| - 1
      ensures trace[j] in middle
    {
      assert trace[j] == middle[j - 1];
    }
  }

  /** Position `2i` holds the i-th file's document, position `2i + 1` its unlink. */
  lemma {:induction false} DispatchAt(files: seq<FileMeta>, i: nat)
    requires i < |files|
    ensures DispatchTrace(files)[2 * i] == SendDocument(files[i])
    ensures DispatchTrace(files)[2 * i + 1] == Unlink(files[i].path)
    decreases |files|
  {
    if i < |files| - 1 {
      DispatchAt(files[..|files| - 1], i);
    }
  }

  /** The request is rejected, with nothing sent and nothing unlinked,
      exactly when a required field is missing or empty. */
  lemma RejectedIffInvalid(data: Form, files: seq<FileMeta>, protocol: string, host: string,
                           parse: string -> StandsParse)
    ensures var trace := SubmitTrace(data, files, protocol, host, parse);
      && (Rejected(trace) <==> !Validate(data))
      && (!Validate(data) ==> DocumentsSent(trace) == [] && PathsUnlinked(trace) == []
                              && forall e :: e in trace ==> e.Respond?)
  {
    var trace := SubmitTrace(data, files, protocol, host, parse);
    if Validate(data) {
      assert trace[0].SendMessage?;
    } else {
      assert trace[..0] == [];
    }
  }

  lemma AcceptedParts(text: string, files: seq<FileMeta>, i: nat)
    requires i < |files|
    ensures var trace := [SendMessage(text)] + DispatchTrace(files) + [Respond(AcceptedStatus, AcceptedText)];
      trace[1 + 2 * i] == DispatchTrace(files)[2 * i] && trace[2 + 2 * i] == DispatchTrace(files)[2 * i + 1]
  {
  }

  /** An accepted request sends the text first, then each file followed
      directly by its unlink in upload order, and replies 200 last. */
  lemma AcceptedTraceShape(data: Form, files: seq<FileMeta>, protocol: string, host: string,
                           parse: string -> StandsParse)
    requires Validate(data)
    ensures AcceptedShape(SubmitTrace(data, files, protocol, host, parse),
                          Message(data, files, protocol, host, parse), files)
  {
    var text := Message(data, files, protocol, host, parse);
    forall i | 0 <= i < |files|
      ensures SubmitTrace(data, files, protocol, host, parse)[1 + 2 * i] == SendDocument(files[i])
      ensures SubmitTrace(data, files, protocol, host, parse)[2 + 2 * i] == Unlink(files[i].path)
    {
      AcceptedParts(text, files, i);
      DispatchAt(files, i);
    }
  }

  /** On acceptance the text is sent exactly once, as the very first effect,
      so before any document, and the 200 reply is the only reply. */
  lemma AcceptedSendsTextOnce(data: Form, files: seq<FileMeta>, protocol: string, host: string,
                              parse: string -> StandsParse)
    requires Validate(data)
    ensures var trace := SubmitTrace(data, files, protocol, host, parse);
      && trace[0] == SendMessage(Message(data, files, protocol, host, parse))
      && TextOnlyFirst(trace)
      && ReplyOnlyLast(trace)
  {
    DispatchOnlyFileEffects(files);
    Framed(SendMessage(Message(data, files, protocol, host, parse)), DispatchTrace(files),
           Respond(AcceptedStatus, AcceptedText));
  }

  /** On acceptance every attachment is sent once, in upload order, and
      every stored copy is unlinked, in the same order. */
  lemma AcceptedSendsEachFile(data: Form, files: seq<FileMeta>, protocol: string, host: string,
                              parse: string -> StandsParse)
    requires Validate(data)
    ensures var trace := SubmitTrace(data, files, protocol, host, parse);
      DocumentsSent(trace) == files && PathsUnlinked(trace) == PathsOf(files)
  {
    var head := [SendMessage(Message(data, files, protocol, host, parse))];
    var tail := [Respond(AcceptedStatus, AcceptedText)];
    var d := DispatchTrace(files);
    DispatchSendsEach(files);
    DispatchUnlinksEach(files);
    DocumentsSentAppend(head, d);
    DocumentsSentAppend(head + d, tail);
    PathsUnlinkedAppend(head, d);
    PathsUnlinkedAppend(head + d, tail);
    assert head[..0] == [] && tail[..0] == [];
  }

  /** With no attachments the handler sends the text and replies 200. */
  lemma NoFilesTrace(data: Form, protocol: string, host: string, parse: string -> StandsParse)
    requires Validate(data)
    ensures SubmitTrace(data, [], protocol, host, parse)
         == [SendMessage(Message(data, [], protocol, host, parse)), Respond(AcceptedStatus, AcceptedText)]
  {
  }
}
