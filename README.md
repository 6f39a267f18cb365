# new-year-card in Dafny

A model of the holiday-card generator "new-year-card" (a Next.js application)
and proofs about it. The user uploads a photo. An image model repaints it as
a festive illustration. The browser composes the card on a canvas: the
picture, a title, the wrapped message, the sender and the recipient. The card
can then be stored and e-mailed. The model covers the parts of the
application that make decisions:

- `canvas_utils.dfy` (module `CanvasUtils`): `drawCardToCanvas`.
  - The scale-to-fit computation of the canvas size.
  - The greedy word wrap of the message.
  - Where every text line is placed.
  - The two error outcomes.
  - Text measurement is a function parameter (`measure`). Drawing is reduced
    to the list of text placements.
- `generate_route.dfy` (module `GenerateRoute`): `POST /api/generate`.
  - Client-address extraction.
  - The fail-closed rate gate of 5 generations per 24 hours, and the
    remaining-quota arithmetic.
  - The mock path.
  - Derivation of the input file's extension and storage key.
  - Creation of the prediction.
  - The poll loop of at most 60 checks.
  - Output extraction.
  - The rule that a usage row is written only after a success.
- `upload_route.dfy`, `save_card_route.dfy`, `send_email_route.dfy`:
  `POST /api/upload`, `POST /api/save/card` and `POST /api/send/email`.
  Each is written as a pure function from the request, plus the services'
  answers, to the response and the write it makes.
- `validation.dfy` (module `Validation`): the part of zod's `safeParse` that
  the two schemas use. It models string fields with minimum and maximum
  lengths counted in UTF-16 code units, and format checks.
- `card_editor.dfy` (module `CardEditor`): the editor page `app/page.tsx`
  as a class. Its fields are the page's React state and its methods are
  the event handlers.
- `js_strings.dfy` (module `JsStrings`): the JavaScript string operations
  the code relies on, with JavaScript's semantics: `split` on one
  character, `trim`, ASCII `toLowerCase` and `length`.
- `storage.dfy` and `wrappers.dfy`: the storage request record, and
  `Option`/`Result`.

Every call to Supabase, Replicate, Resend or the browser becomes an input
value:

- a failing query is a flag;
- an upload error is an optional message;
- the public-URL lookup is a function;
- the prediction's creation reply is a datatype;
- the status replies are a sequence;
- the provider's answer is a `Result`.

The clock and the random filename suffixes are inputs too.

The message is wrapped at 88% of the card width (`drawW - drawW * 0.12`)
with a fixed font size.

## Model

| member | source | states |
|---|---|---|
| CanvasUtils.Round | lib/canvas-utils.ts:26-27 | `Math.round` gives an integer within half a unit of its argument: above x - 0.5 and at most x + 0.5. |
| CanvasUtils.ScaleFactor | lib/canvas-utils.ts:25 | `Math.min(900 / w, 900 / h, 1)` is a fitting factor: in (0, 1], both scaled sides at most 900, and tight (1, or one scaled side exactly 900). It is exactly 1 when the image already fits. |
| CanvasUtils.FitFactorIsLargest | lib/canvas-utils.ts:25 | No factor of at most 1 under which both sides fit is larger than the fitting factor, so the image is never shrunk more than needed. |
| CanvasUtils.FitFactorIsTheMinimum | lib/canvas-utils.ts:25 | Any factor that fits and is tight equals the minimum of the per-side limits, so the factor is unique. |
| CanvasUtils.DrawSide | lib/canvas-utils.ts:26-27 | One drawn side is within half a pixel of side × scale, lies in [0, 900], never exceeds the source side, and equals it when the scale is 1. |
| CanvasUtils.DrawSize | lib/canvas-utils.ts:17-30 | Both canvas sides come from the same fitting factor, each rounded to within half a pixel of the exact value, so the aspect ratio is kept up to rounding. Neither side exceeds 900 or the source side (no upscaling). An image within 900×900 keeps exactly its size. |
| CanvasUtils.MaxLineWidth | lib/canvas-utils.ts:53 | A message line may take 88% of the canvas width, and never more than the width. |
| CanvasUtils.LineHeight | lib/canvas-utils.ts:54 | The line height is 6.5% of the canvas height, rounded to within half a pixel, and never negative. |
| CanvasUtils.FirstLineY | lib/canvas-utils.ts:57 | The first message line sits at 45% of the height, in the upper half of the card. |
| CanvasUtils.Extend | lib/canvas-utils.ts:59-71 | One loop step: the word opens a new line exactly when the tested line `line + word + ' '` measures wider than maxWidth; otherwise it joins the current line. |
| CanvasUtils.GroupsOf | lib/canvas-utils.ts:55-71 | The greedy wrap always yields at least one line, even for an empty message, and no line is empty; the first word never breaks. |
| CanvasUtils.GroupsPartitionWords | lib/canvas-utils.ts:55-71 | The lines, read in order, are exactly the words of `message.split(' ')`: nothing is dropped, duplicated or reordered. |
| CanvasUtils.WrapKeepsEveryWord | lib/canvas-utils.ts:55-73 | Concatenating the drawn line texts gives every word of the message in order, each followed by one space. |
| CanvasUtils.GroupsFit | lib/canvas-utils.ts:53-70 | A line of two or more words measures at most maxWidth, without assuming `measure` is monotone. |
| CanvasUtils.GroupsBreakOnlyWhenTooWide | lib/canvas-utils.ts:60-67 | Every line break is forced: the line before a break, extended with the next line's first word, measured wider than maxWidth. |
| CanvasUtils.TooWideWordStandsAlone | lib/canvas-utils.ts:60-70 | If no text is narrower than a piece of it, a word too wide on its own is emitted unbroken on a line by itself. |
| CanvasUtils.LineYClosedForm | lib/canvas-utils.ts:54-67 | Line k is drawn at y = 0.45·drawH + k·round(0.065·drawH). |
| CanvasUtils.WrapMessage | lib/canvas-utils.ts:53-73 | The wrap loop emits one text per greedy line. Line k carries the words of that line, each followed by a space, centred at drawW / 2, at height LineY(drawH, k). |
| CanvasUtils.DrawCardToCanvas | lib/canvas-utils.ts:9-104 | A missing 2D context fails with "Canvas not supported" and a failed load with "Failed to load image"; a card is produced exactly otherwise. The card has the fitted size and the title at (drawW / 2, 12% height). The wrapped message lines are centred at drawW / 2. "— sender" is anchored at (94% width, 93% height) and "To recipient" at (drawW / 2, 82% height). |
| JsStrings.Split | app/api/upload/route.ts:29 | `split` on one character yields at least one piece, and no piece contains the separator. |
| JsStrings.JoinSplit | app/api/upload/route.ts:29 | Joining the pieces of a split with the separator gives back the text. |
| JsStrings.SplitJoin | app/api/upload/route.ts:29 | Splitting a join of separator-free pieces gives back the pieces. |
| JsStrings.SplitFirst | app/api/generate/route.ts:19 | The first piece is the prefix before the first separator, followed by it unless the piece is the whole text. |
| JsStrings.SplitTail | app/api/upload/route.ts:29 | After the first piece and its separator, the remaining pieces are the split of the rest. |
| JsStrings.SplitLastAfter | app/api/generate/route.ts:124 | `pop()` after a split returns the text after the last separator. |
| JsStrings.At | app/api/upload/route.ts:29 | Indexing past the end of the pieces is `undefined`; an index inside them yields exactly that piece. |
| JsStrings.TrimStart | app/api/generate/route.ts:19 | The result is a suffix that does not start with white space, and everything dropped is white space. |
| JsStrings.TrimEnd | app/api/generate/route.ts:19 | The result is a prefix that does not end with white space, and everything dropped is white space. |
| JsStrings.Trim | app/api/generate/route.ts:19 | `trim()` leaves no white space at either end and never lengthens the text. |
| JsStrings.TrimBounds | app/api/generate/route.ts:19 | `trim()` keeps one contiguous piece `s[i..j]` of the text. |
| JsStrings.TrimDropsOnlyWhiteSpace | app/api/generate/route.ts:19 | Everything `trim()` removes, before and after the kept piece, is white space. |
| JsStrings.TrimFirstPiece | app/api/generate/route.ts:19 | `s.split(sep)[0].trim()` is a piece `s[i..j]` of the text before the first separator, which is at `c` or `c` is the end of the text; everything in `s[..i]` and `s[j..c]` is white space. |
| JsStrings.ToLower | app/api/generate/route.ts:124 | `toLowerCase()` keeps the length, maps each character, and leaves no ASCII capital. |
| JsStrings.Utf16Length | app/api/save/card/route.ts:12-15 | A JavaScript length is between the number of characters and twice it. |
| JsStrings.Utf16LengthBmp | app/api/save/card/route.ts:12-15 | For text inside the Basic Multilingual Plane the JavaScript length is the number of characters. |
| GenerateRoute.ClientIp | app/api/generate/route.ts:12-27 | Without x-forwarded-for, a non-empty x-real-ip is the address; with neither, "127.0.0.1". |
| GenerateRoute.ForwardedClientIp | app/api/generate/route.ts:18-20 | With a non-empty x-forwarded-for, the address is a piece `xff[i..j]` of the text before the header's first comma (at `c`, or the end of the header), and only white space lies around it in `xff[..c]`. |
| GenerateRoute.ForwardedClientIpTrimmed | app/api/generate/route.ts:18-20 | A forwarded address has no white space at either end. |
| GenerateRoute.CountSince | app/api/generate/route.ts:31-35 | The count query never returns more rows than the table holds. |
| GenerateRoute.CountSinceAppend | app/api/generate/route.ts:271-281 | A row inserted for the address now adds exactly one to the count of its 24-hour window. |
| GenerateRoute.RecentCount | app/api/generate/route.ts:29-43 | A failed count query reports at least MAX_GENERATIONS (fail closed); otherwise the count is bounded by the table. |
| GenerateRoute.MockEnabled | app/api/generate/route.ts:84-85 | Mock mode is on only when MOCK_AI is exactly "1" or "true"; an unset variable or any other value leaves it off. |
| GenerateRoute.Remaining | app/api/generate/route.ts:281-282 | `max(0, 5 - count)` lies in [0, 5], is exactly 5 - count when count ≤ 5, and 0 when count ≥ 5. |
| GenerateRoute.EffectiveMime | app/api/generate/route.ts:118 | An empty MIME type becomes image/jpeg; a non-empty one is kept. |
| GenerateRoute.MimeExt | app/api/generate/route.ts:119-123 | Exactly image/jpeg, image/png and image/webp have an entry, and each maps to its own extension: jpg, png or webp. |
| GenerateRoute.NameExt | app/api/generate/route.ts:124 | The file-name extension contains no dot. |
| GenerateRoute.FileExt | app/api/generate/route.ts:119-125 | The extension is never empty, never contains a dot and is never "jpeg". It comes from the MIME table when the type is known; otherwise from the name, with jpeg → jpg; otherwise it is "jpg". |
| GenerateRoute.InputKey | app/api/generate/route.ts:126 | The storage key starts with "inputs/" and ends with "." + ext. |
| GenerateRoute.InputKeyExtension | app/api/generate/route.ts:124-126 | Reading the extension back from the key, as the route reads a name's extension, gives the chosen extension. |
| GenerateRoute.ExtractImageUrl | app/api/generate/route.ts:262-267 | The first element of a list output, or a single output itself, is the image URL. The result is a success exactly when that value is present and non-empty, and then it is that value. Otherwise it is the "生成结果为空" error. |
| GenerateRoute.PollStopsAtFirstTerminal | app/api/generate/route.ts:237-256 | The loop ends at the first non-pending status among the first 60, with that status's outcome. |
| GenerateRoute.PollTimesOutIffAllPending | app/api/generate/route.ts:237-260 | The loop times out exactly when all 60 checks are pending. |
| GenerateRoute.PollSuccessIsConfirmed | app/api/generate/route.ts:250-260 | A success is reported only for a "succeeded" reply within 60 checks, after only pending replies, with that reply's output. |
| GenerateRoute.PollFrom | app/api/generate/route.ts:237-260 | The specification of the poll loop: a success is reported after at most 60 checks, and a timeout only when every check from the start on was pending. |
| GenerateRoute.PollPrediction | app/api/generate/route.ts:236-260 | The imperative loop's outcome is the poll specification's outcome. |
| GenerateRoute.Prefix500 | app/api/generate/route.ts:214 | `slice(0, 500)` is the prefix of the text of length min(500, length). |
| GenerateRoute.LogGeneration | app/api/generate/route.ts:270-282 | A failed insert leaves the log unchanged. The remaining quota is taken from the recount. With both calls succeeding, it is 5 minus (old count + 1), floored at 0. |
| GenerateRoute.StoreAndPredict | app/api/generate/route.ts:117-291 | The input is uploaded under the derived key with its MIME type and no overwrite. The response follows the route's order. An upload error gives 500 with its message. A missing public URL gives MISSING_INPUT_URL and a missing token MISSING_API_TOKEN. A thrown creation gives 500. A non-JSON body gives 502 with the first 500 characters. A rejected creation gives `status \|\| 502` with `error \|\| 'REPLICATE_CREATE_FAILED'`. Then come the poll outcome and the output extraction. Only a success writes a log row, and a success needs a confirmed "succeeded" and a usable output. |
| GenerateRoute.Post | app/api/generate/route.ts:45-303 | A count ≥ 5, including a failed query, gives 429 with no upload and no log row. An unreadable form gives 500 and a missing image 400 MISSING_IMAGE. The mock path always succeeds, with the origin's mock picture, whether or not the insert works. The real path answers as StoreAndPredict states. A confirmed success with a usable output is always Generated with that output's URL. A log row is added only for a success, and for every success whose insert works. The quota lies in [0, 5]. |
| UploadRoute.PayloadAfterFirstComma | app/api/upload/route.ts:29-40 | The payload exists exactly when the image has a comma. It is the text after the first comma, up to the next comma or the end. |
| UploadRoute.DataUrlPayload | app/api/upload/route.ts:29 | A data URL `header,payload` without further commas yields exactly its payload. |
| UploadRoute.CardFilename | app/api/upload/route.ts:46 | The stored filename starts with "card-" and ends with ".jpg". |
| UploadRoute.Post | app/api/upload/route.ts:9-101 | A missing or empty image gives 400 MISSING_IMAGE_DATA and an absent or empty payload gives 400 INVALID_IMAGE_FORMAT, both without a write. The write happens exactly for a non-empty payload, always as image/jpeg without overwrite. A storage error gives 500 with its message. Success returns the public URL of exactly that filename, plus the filename. |
| Validation.CheckIssues | app/api/save/card/route.ts:27 | One issue per failed check at most; no issue exactly when every check passes; each issue carries the field name and a failed check's message. |
| Validation.FailedCheckReported | app/api/save/card/route.ts:27 | Every failed check is reported with its message. |
| Validation.FieldIssues | app/api/save/card/route.ts:27 | A field has no issue exactly when it is present and passes all its checks. |
| Validation.SchemaIssues | app/api/save/card/route.ts:27 | The schema has no issue exactly when every field is accepted; every issue names a schema field. |
| Validation.FieldIssuesReported | app/api/save/card/route.ts:27 | Every issue of a field appears among the schema's issues. |
| Validation.LengthFieldAccepts | app/api/save/card/route.ts:12-15 | A `min(a).max(b)` field accepts exactly the strings whose JavaScript length is between a and b. |
| Validation.FormatFieldAccepts | app/api/save/card/route.ts:14-16 | An `email()` or `url()` field accepts exactly what the recogniser accepts. |
| SaveCardRoute.SchemaAcceptsValidCards | app/api/save/card/route.ts:11-17 | The schema accepts exactly bodies with names of length 1..50, a message of length 1..1000, a valid e-mail and a valid URL. |
| SaveCardRoute.Schema | app/api/save/card/route.ts:11-17 | The schema lists the five body fields in declaration order, each with at least one check. |
| SaveCardRoute.MessageTooLongReported | app/api/save/card/route.ts:15 | A message longer than 1000 is reported with "祝福语太长". |
| SaveCardRoute.Post | app/api/save/card/route.ts:19-97 | A row is inserted exactly for a valid body. It holds the sender, recipient, message and image URL, and not the e-mail. An invalid body gives 400 with its non-empty issues. A database error gives 500 with its message. Success copies the row's fields, with cardId = row id. |
| SendEmailRoute.NonEmptyFieldAccepts | app/api/send/email/route.ts:8-10 | A `min(1)` field accepts exactly the present, non-empty strings. |
| SendEmailRoute.SchemaAcceptsValidRequests | app/api/send/email/route.ts:7-12 | The schema accepts exactly bodies with non-empty names, a valid e-mail and a valid card URL. |
| SendEmailRoute.Schema | app/api/send/email/route.ts:7-12 | The schema lists the four body fields in declaration order, each with one check. |
| SendEmailRoute.Subject | app/api/send/email/route.ts:37 | The subject is the sender's name followed by " 为你制作了一张专属贺卡". |
| SendEmailRoute.ComposeHtml | app/api/send/email/route.ts:39-150 | The page title is the subject, opening with the sender's name. The sender is named in the header and the text, and the recipient in the greeting. The card URL is both the image and the link. |
| SendEmailRoute.Post | app/api/send/email/route.ts:14-195 | A message is sent exactly for a valid body; an invalid one gives 400 and the provider is never called. The mail goes from the fixed sender to the validated address, with the composed subject. Its HTML names the sender and the recipient and uses cardUrl as image and link. A provider error gives 500 with its message. Success returns the provider id and the recipient. |
| CardEditor.WithField | app/page.tsx:221-276 | Editing a field sets that field and keeps every other field. |
| CardEditor.Editor.constructor | app/page.tsx:21-32 | The page starts at illustration 0 with an empty form, no photo, no generated image, not generating and no error. |
| CardEditor.Editor.PaintAgain | app/page.tsx:38-44 | The index advances by one modulo 5 and stays in [0, 5); nothing else changes. |
| CardEditor.Editor.StartOver | app/page.tsx:46-56 | All five fields become "" and the index 0; photo, generated image and error are kept. |
| CardEditor.Editor.EditField | app/page.tsx:221-276 | A field's onChange replaces only that field. |
| CardEditor.Editor.SelectFile | app/page.tsx:114-122 | A chosen file becomes the photo and the preview, clearing the generated image and the error; choosing nothing changes nothing. |
| CardEditor.Editor.BeginGenerate | app/page.tsx:127-139 | Without a photo no request is made and no state changes. Otherwise the page is generating, with the error and the generated image cleared, and sends the photo as `image`. |
| CardEditor.Editor.FinishGenerate | app/page.tsx:141-162 | A success shows the returned imageUrl. A rejection shows its message, or "生成失败" if it has none. A thrown request shows "生成出错，请重试". Generating ends in every case. |
| CardEditor.Editor.PreviewSource | app/page.tsx:78-96 | The preview is the generated image if set, else the photo, else the current illustration, or the placeholder when the index names none. |

## Left out

- Drawing: pixel drawing, fonts, stroke and fill styles, and the JPEG export of the canvas are not modelled. The real `measureText` metrics are replaced by the parameter `measure`.
- Floating point: JavaScript arithmetic is IEEE-754 double precision. The model computes the scale, positions and rounding on exact reals.
- CanvasUtils.DrawCardToCanvas: only the text lines, their anchors and the canvas size are recorded. The font sizes and line widths computed with `Math.round`/`Math.max` at lines 36, 40, 48, 51, 77, 80, 86 and 89 are left out.
- Services as inputs: Supabase, Replicate and Resend are not called. Their answers are inputs: a failure flag or message, a public-URL function, the creation reply, the sequence of status replies, and the provider result. The network request bodies (prompt, headers) are not modelled.
- Sleeps: the 2-second `setTimeout` between status checks is left out.
- Clock and randomness: `Date.now()` and the `Math.random()` suffixes are inputs. One request sees one clock value.
- GenerateRoute.Post: the creation reply's `details` (the whole prediction object) is not reproduced in the 4xx/5xx response for a failed creation.
- GenerateRoute.Post: a form entry `image` that is a string rather than a file is not modelled. In the route such an entry passes the `!imageFile` test. The mock path then succeeds, while the real path throws at `imageFile.arrayBuffer()` (line 117) and the outer catch answers 500 with the error's message.
- SendEmailRoute.ComposeHtml: the fixed markup of the template is not modelled; the HTML is reduced to the six places where values are interpolated. The route inserts `senderName`, `recipientName` and `cardUrl` without HTML escaping, so the slot facts (the card URL is the image and the link, the names sit in the title, header, greeting and text) describe the document only for values that hold no markup and no `"`. The HTML clause of SendEmailRoute.Post rests on the same reduction.
- Concurrency: two requests from one address can both pass the check before either inserts. This check-then-insert race is concurrency, outside this sequential model.
- JSON bodies: only objects with string fields or missing fields are modelled. `null`, numbers, non-object bodies and JSON values of other types are not. Every falsy value is folded into "missing" where the code tests truthiness.
- JsStrings.ToLower: only ASCII letters are mapped. `toLowerCase` on other scripts is not modelled.
- GenerateRoute.Prefix500: JavaScript's `slice` counts UTF-16 code units; the model counts characters, so text beyond the Basic Multilingual Plane is cut at a different place.
- GenerateRoute.MimeExt: lookups of prototype keys (such as `constructor`) in the `extFromMime` object are not modelled.
- Validation: zod's e-mail and URL recognisers are parameters, and its issue objects are reduced to path and message.
- Page handlers: `handleSubmit` only shows an alert, and the alerts, console logging and JSX rendering are left out.
- debug-email.js: this diagnostic script is all I/O and is not part of this model.
- CardEditor.Editor.BeginGenerate, CardEditor.Editor.FinishGenerate: React's batching of state updates and the window between the request and its answer (during which other handlers may run) are not modelled. The handler is split into the part before the request and the part after the answer.
