# Order form relay — verified model

`server.js` is an Express endpoint (`POST /submit`). It receives an order
form with up to ten attached files and relays the form to a Telegram chat.
First it checks the six required fields. Then it builds one Markdown
notification text by appending line after line. It sends that text, then
sends each attachment as a document and removes its stored copy, and finally
answers the browser. The upload storage names each stored file after the
client's file name, with every character outside `[a-zA-Z0-9.\-_]` (ASCII
letters, digits, `.`, `-` and `_`) removed.

The model is written in Dafny and covers:

- **the required-field check** (`Submission`): a submission is a map from
  field name to string, and JavaScript truthiness is modelled as
  "present and not empty". `Submission.OrElse` is the handler's
  `data[k] || fallback`: the field when it is truthy, the fallback otherwise;
- **the message formatter** (`Formatter`): the message is the concatenation of
  a list of `Piece`s, one per `+=` of the handler. The handler's
  imperative construction is kept as methods that append to a string, one
  method per block of the handler and a loop per `for…of` / `forEach`, each
  proved to produce exactly `Concat` of that block's pieces. `BuildMessage`
  is proved to produce `Message`. The text of a piece is defined once, in
  `Render`; `MarkdownLink` and `FileUrl` give the file-link text;
- **the properties of the message**, stated on the piece list:
  - `MessageLayout` counts the lines of each kind;
  - `MessageProperties` states what the message opens with, which lines are
    always present or present exactly when their field is filled in, how the
    toggles render, and where the stand entries and file links sit;
  - `SectionOrder` shows that the lines always come in the fixed order.
  Field values may themselves hold line breaks, so the properties are stated
  on the pieces, not on the text;
- **the file-name filter** (`Sanitizer`) and the storage name built around it;
- **the handler's observable behaviour** (`Handler`): the sequence of
  effects it issues. These are the 400 reply, the text message, each
  document send and unlink, and the 200 reply. `Submit` builds that
  sequence with the handler's own loop and is proved equal to the
  specification `SubmitTrace`.

How the `try` block over the stand details ends (`JSON.parse`, then
`Object.entries` and the printing of each value) is a parameter `parse`
with three outcomes:

- `Unparsable`: the parser threw before anything was written, and the
  `catch` block writes the raw text.
- `ParsedEntries`: every key/value pair printed, in order, under the
  details heading.
- `ThrewAfterHeading(printed)`: parsing succeeded, so the details heading
  is already written, and then something threw. Either `Object.entries`
  threw (the JSON literal `null`, nothing printed), or printing a value
  threw (an object whose `toString` is not a function, say) after the
  entries `printed`. The `catch` block then adds the raw text line. The
  model keeps this as written: the heading, the entries printed so far,
  then the raw line.

Decimal numbers (`${index + 1}`, the time stamp of a storage name) are
rendered by `Decimal.NatToString`, which is proved to read back to its value.

## Model

| member | source | states |
|---|---|---|
| Submission.Validate | server.js:58-59 | passes exactly when each of the six required fields is present and non-empty; "0" counts as filled in |
| Submission.MissingRequiredRejects | server.js:58-59 | one missing or empty required field is enough to reject |
| Submission.ValidateDependsOnlyOnRequired | server.js:58 | two submissions that agree on the required fields get the same verdict |
| Decimal.NatToString | server.js:124 | a number prints as a non-empty string of digits with no leading zero |
| Decimal.ParseNatToString | server.js:124 | reading the printed digits back gives the number |
| Decimal.NatToStringInjective | server.js:124 | different numbers print differently, so link numbers are distinct |
| Sanitizer.Sanitize | server.js:31 | the filtered name has only letters, digits, `.`, `-`, `_` and is no longer than the original |
| Sanitizer.SanitizeIsSubsequence | server.js:31 | the filtered name is the original with characters deleted, in the original order |
| Sanitizer.SanitizeKeepsExactlyAllowed | server.js:31 | each allowed character is kept as often as it occurs; every other character is dropped |
| Sanitizer.SanitizeAllowedIsIdentity | server.js:31 | a name of allowed characters only is left unchanged |
| Sanitizer.SanitizeIdempotent | server.js:31 | filtering twice is filtering once |
| Sanitizer.SanitizeFixedPoint | server.js:31 | the filter leaves a name unchanged exactly when all its characters are allowed |
| Sanitizer.SanitizeConcat | server.js:31 | the filter works character by character: it distributes over concatenation |
| Sanitizer.StorageName | server.js:30-32 | the storage name has only allowed characters and ends with the filtered original name |
| Formatter.AppendContact | server.js:63-74 | appends the heading, name, phone and the optional contact lines, exactly the rendered contact section |
| Formatter.AppendContactExtras | server.js:66-74 | appends e-mail, comment and price summary, each only when filled in |
| Formatter.AppendEmail | server.js:66-68 | appends the e-mail line when the field is filled in, nothing otherwise |
| Formatter.AppendComment | server.js:69-71 | appends the comment line when the field is filled in, nothing otherwise |
| Formatter.AppendTotal | server.js:72-74 | appends the price-summary line when the field is filled in, nothing otherwise |
| Formatter.AppendProduct | server.js:77-82 | appends the rendered product section |
| Formatter.AppendProductAndSize | server.js:77-78 | appends the product-type line and the `W x H мм` size line |
| Formatter.AppendMaterialAndQuantity | server.js:79-82 | appends the material line when filled in, then the quantity line |
| Formatter.AppendGrommets | server.js:84-89 | appends the grommets toggle and, when it is on, the count line |
| Formatter.AppendEntries | server.js:98-100 | the loop appends one ` - key: value` line per entry, in entry order |
| Formatter.AppendListedEntries | server.js:97-100 | appends the details heading and then one line per entry, in entry order |
| Formatter.AppendThrownDetails | server.js:97-104 | appends the heading, the entries printed before the throw, then the raw text line of the `catch` |
| Formatter.AppendStandsDetails | server.js:94-105 | appends the raw text when parsing threw; the heading and all entries when they all print; the heading, the entries printed so far and the raw text when something throws after the heading |
| Formatter.AppendStands | server.js:91-108 | appends the stands toggle and, when on and details are given, the details |
| Formatter.AppendFrameColor | server.js:112-114 | appends the frame-colour line when a colour is given, nothing otherwise |
| Formatter.AppendFrame | server.js:110-117 | appends the frame toggle and, when on, the colour line |
| Formatter.AppendFileLink | server.js:123-124 | appends one numbered Markdown link to `protocol://host/path` |
| Formatter.AppendFileLinks | server.js:122-125 | the loop appends the link lines of all files, in upload order |
| Formatter.AppendFiles | server.js:120-126 | appends the files heading and the links when there are files, nothing otherwise |
| Formatter.BuildMessage | server.js:63-126 | the text the handler builds is the concatenation of the rendered pieces, `Message` |
| MessageLayout.EntryPiecesAt | server.js:98-100 | the i-th entry line shows the i-th parsed entry |
| MessageLayout.FileLinksAt | server.js:122-125 | the i-th link line carries number i+1, the i-th original name and its URL |
| MessageLayout.ContactCount | server.js:63-74 | the contact section holds heading, name and phone once each, and each optional line once exactly when filled in |
| MessageLayout.ProductCount | server.js:77-82 | the product section holds product, size and quantity once each, and the material line once exactly when filled in |
| MessageLayout.GrommetsCount | server.js:84-89 | the grommets section holds one toggle line, and the count line exactly when the toggle is on |
| MessageLayout.StandsCount | server.js:91-108 | the stands section holds one toggle line, and the heading, entry and raw lines the parse outcome calls for |
| MessageLayout.FrameCount | server.js:110-117 | the frame section holds one toggle line, and the colour line exactly when on and given |
| MessageLayout.FilesCount | server.js:120-126 | the files section holds a heading exactly when there are files, and one link per file |
| MessageLayout.PieceCounts | server.js:63-126 | the whole message holds each kind of line exactly as often as `LinesOfKind` says |
| MessageProperties.MessageOpening | server.js:63-65 | the text starts with the heading, then the name line, then the phone line |
| MessageProperties.OpeningPieces | server.js:63-65 | the first three lines are heading, name and phone |
| MessageProperties.ContactLinesOnce | server.js:63-65 | heading, name and phone appear exactly once |
| MessageProperties.ProductLinesOnce | server.js:77-82 | product type, size and quantity appear exactly once |
| MessageProperties.ToggleLinesOnce | server.js:84-117 | each of the three toggles renders exactly one line |
| MessageProperties.AlwaysPresentLineValues | server.js:77-117 | product, size and quantity show their values, and each toggle shows `Да` exactly when its field is "on" |
| MessageProperties.OptionalLinesOnce | server.js:66-81 | e-mail, comment, price summary and material appear once when filled in and not at all otherwise |
| MessageProperties.OptionalLineValues | server.js:66-81 | a present optional line shows the field's own value |
| MessageProperties.GrommetCountShown | server.js:84-86 | the grommet count appears exactly when grommets are on, showing the field or `0` |
| MessageProperties.FrameColorShown | server.js:110-114 | the frame colour appears exactly when the frame is on and a colour is given |
| MessageProperties.ValidatedShowsSubmittedValues | server.js:58-82 | after validation, name, phone, product, size and quantity show the submitted values, never a placeholder |
| MessageProperties.StandsDetailsHidden | server.js:91-108 | with the stands toggle off or no details, no detail line appears |
| MessageProperties.StandsDetailsParsed | server.js:94-100 | details whose entries all print give one heading, one line per entry, and no raw line |
| MessageProperties.StandsDetailsUnparsed | server.js:101-104 | details that do not parse give only the raw text line |
| MessageProperties.StandsDetailsThrew | server.js:96-104 | details that throw after the heading give one heading, one line per entry printed before the throw, and one raw text line |
| MessageProperties.StandsEntriesInOrder | server.js:96-100 | the listed entries follow the toggle and the heading directly, in parse order |
| MessageProperties.RawAfterPrintedEntries | server.js:97-104 | after a throw past the heading, the raw text line comes right after the last printed entry |
| MessageProperties.FileLinksInOrder | server.js:120-126 | with files, the message ends with the files heading and one link per file, in upload order |
| MessageProperties.FileLinkNumbering | server.js:122-124 | in the message, the line of the i-th file (from 0) starts with `i+1. ` |
| SectionOrder.PiecesInSectionOrder | server.js:63-126 | whatever is filled in, toggled, parsed or uploaded, the lines come in the fixed section order |
| Handler.Submit | server.js:48-142 | the handler's effects are exactly `SubmitTrace` |
| Handler.Dispatch | server.js:133-139 | the loop sends each file and then unlinks it, file after file |
| Handler.DispatchSendsEach | server.js:133-139 | the dispatch sends every file exactly once, in upload order |
| Handler.DispatchUnlinksEach | server.js:133-139 | the dispatch unlinks every stored copy, in upload order |
| Handler.RejectedIffInvalid | server.js:58-59 | the request gets only the 400 reply exactly when a required field is missing or empty; then nothing is sent or unlinked |
| Handler.AcceptedTraceShape | server.js:129-142 | when accepted: the text first, then each file's send directly followed by its unlink, in upload order, and the 200 reply last |
| Handler.AcceptedSendsTextOnce | server.js:129-142 | when accepted, the text is sent once, before any document, and the only reply is the last effect |
| Handler.AcceptedSendsEachFile | server.js:133-142 | when accepted, the documents sent are exactly the files in upload order, and so are the unlinked paths |
| Handler.NoFilesTrace | server.js:129-142 | with no files, the effects are the text message and then the 200 reply |

## Left out

- Express setup, the JSON and form middleware, static serving of `uploads/`, `app.listen` and the port choice: framework plumbing.
- Creating the `uploads` directory, the upload destination, the 20 MB size limit and the ten-file limit: the upload library enforces these, and the handler sees only the resulting file list.
- The clock and the random number in the storage name are parameters of `Sanitizer.StorageName`; `Math.round(Math.random() * 1E9)` is taken as a given natural number.
- Telegram calls, `fs.createReadStream` and `fs.unlink` are modelled only as `Effect` values. `Unlink` stands for the removal being issued; it is asynchronous in the source, and its callback only logs.
- The `catch` block that answers 500, and partial delivery when a send fails: both depend on a remote failure, which the model does not represent.
- Console logging.
- The internals of `JSON.parse`, `Object.entries` and the printing of values: `parse` is a parameter. Its outcome says where the `try` block stopped; entry values are taken as already printed (`${value}`), so how JavaScript prints numbers, objects or arrays, and which values fail to print, is not modelled.
- Form values are strings. A body field sent as an array or an object (extended URL encoding) is not modelled.
- `req.files` being absent is modelled as an empty file list, which the handler treats the same way. `req.get('host')` is a string parameter; its absence is not modelled.
- Submission.Show: an absent field prints as "undefined"; its contract states only the present case. Every field shown this way is required, so it is present whenever a message is built (`MessageProperties.ValidatedShowsSubmittedValues`).
- Telegram's own handling of the Markdown (escaping, entity parsing) is outside the model; the text is modelled as the string sent.
