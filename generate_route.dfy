/** `POST /api/generate` (app/api/generate/route.ts): client-address
    extraction, the fail-closed 5-per-24-hours rate gate, the mock path, the
    input upload, the prediction creation, the bounded poll loop, output
    extraction and the log-after-success rule. Every call to Supabase or
    Replicate is replaced by the value it returns. */
module GenerateRoute {

  import opened Wrappers
  import opened JsStrings
  import Storage

  const MaxGenerations: nat := 5
  const WindowMs: int := 24 * 60 * 60 * 1000
  const MaxPolls: nat := 60
  const Loopback: string := "127.0.0.1"
  const XForwardedFor: string := "x-forwarded-for"
  const XRealIp: string := "x-real-ip"
  const MockImagePath: string := "/watercolor-bunny-in-winter-scene.jpg"

  const ServerErrorMessage: string := "服务器错误"
  const GenerationFailedPrefix: string := "生成失败: "
  const GenerationTimeout: string := "生成超时"
  const EmptyResult: string := "生成结果为空"

  // ---------------------------------------------------------------------
  // Client address

  /** A header that is present with a non-empty value (JavaScript truthiness). */
  predicate HeaderSet(headers: map<string, string>, name: string)
  {
    name in headers && headers[name] != ""
  }

  /** `getClientIP`: the first comma-separated entry of x-forwarded-for,
      trimmed; else x-real-ip; else the loopback address. */
  function ClientIp(headers: map<string, string>): (ip: string)
    ensures !HeaderSet(headers, XForwardedFor) && HeaderSet(headers, XRealIp) ==> ip == headers[XRealIp]
    ensures !HeaderSet(headers, XForwardedFor) && !HeaderSet(headers, XRealIp) ==> ip == Loopback
  {
    if HeaderSet(headers, XForwardedFor) then Trim(Split(headers[XForwardedFor], ',')[0])
    else if HeaderSet(headers, XRealIp) then headers[XRealIp]
    else Loopback
  }

  /** A forwarded address is the first hop only, with only white space
      dropped around it: `c` is where the header's first comma is (or its
      end), the address is a piece `xff[i..j]` of `xff[..c]`, and everything
      else in `xff[..c]` is white space. */
  lemma ForwardedClientIp(headers: map<string, string>) returns (c: nat, i: nat, j: nat)
    requires HeaderSet(headers, XForwardedFor)
    ensures var xff := headers[XForwardedFor];
      && i <= j <= c <= |xff| && ClientIp(headers) == xff[i..j]
      && (c == |xff| || xff[c] == ',') && (forall k :: 0 <= k < c ==> xff[k] != ',')
      && (forall k :: 0 <= k < i ==> IsWhiteSpace(xff[k]))
      && (forall k :: j <= k < c ==> IsWhiteSpace(xff[k]))
  {
    i, j, c := TrimFirstPiece(headers[XForwardedFor], ',');
  }

  /** A forwarded address carries no white space at either end. */
  lemma ForwardedClientIpTrimmed(headers: map<string, string>)
    requires HeaderSet(headers, XForwardedFor)
    ensures var ip := ClientIp(headers);
      ip == [] || (!IsWhiteSpace(ip[0]) && !IsWhiteSpace(ip[|ip| - 1]))
  {
    assert ClientIp(headers) == Trim(Split(headers[XForwardedFor], ',')[0]);
  }

  // ---------------------------------------------------------------------
  // Rate limiting

  /** A row of the `generation_logs` table; `createdAt` is in milliseconds. */
  datatype LogRow = LogRow(ip: string, createdAt: int)

  /** Rows for `ip` created at or after `since`: the rows the count query
      `.eq('ip', ip).gte('created_at', since)` returns. */
  function CountSince(rows: seq<LogRow>, ip: string, since: int): (n: nat)
    ensures n <= |rows|
    decreases |rows|
  {
    if |rows| == 0 then 0
    else (if rows[0].ip == ip && rows[0].createdAt >= since then 1 else 0) + CountSince(rows[1..], ip, since)
  }

  /** A row just inserted for `ip` at time `now` adds exactly one to the
      count of its window. */
  lemma {:induction false} CountSinceAppend(rows: seq<LogRow>, ip: string, now: int)
    ensures CountSince(rows + [LogRow(ip, now)], ip, now - WindowMs) == CountSince(rows, ip, now - WindowMs) + 1
    decreases |rows|
  {
    if |rows| == 0 {
      assert CountSince([LogRow(ip, now)], ip, now - WindowMs) == 1 + CountSince([], ip, now - WindowMs);
    } else {
      assert (rows + [LogRow(ip, now)])[1..] == rows[1..] + [LogRow(ip, now)];
      CountSinceAppend(rows[1..], ip, now);
    }
  }

  /** `getRecentCount`: the number of rows for `ip` in the 24 hours before
      `now`, or MAX_GENERATIONS when the query fails (fail closed). */
  function RecentCount(queryFails: bool, rows: seq<LogRow>, ip: string, now: int): (n: nat)
    ensures queryFails ==> n >= MaxGenerations
    ensures !queryFails ==> n <= |rows|
  {
    if queryFails then MaxGenerations else CountSince(rows, ip, now - WindowMs)
  }

  /** `Math.max(0, MAX_GENERATIONS - count)`: always within [0, 5], and
      together with the count it reaches the limit. */
  function Remaining(count: nat): (r: int)
    ensures 0 <= r <= MaxGenerations
    ensures r + count >= MaxGenerations
    ensures count <= MaxGenerations ==> r + count == MaxGenerations
    ensures count >= MaxGenerations ==> r == 0
  {
    if MaxGenerations - count > 0 then MaxGenerations - count else 0
  }

  // ---------------------------------------------------------------------
  // Input file extension and storage key

  /** The `extFromMime` table: JPEG, PNG and WebP, each with its usual
      extension; no other type has an entry. */
  function MimeExt(mime: string): (ext: Option<string>)
    ensures ext.Some? <==> mime in {"image/jpeg", "image/png", "image/webp"}
    ensures ext.Some? ==> ext.value in {"jpg", "png", "webp"} && mime == "image/" + (if ext.value == "jpg" then "jpeg" else ext.value)
  {
    if mime == "image/jpeg" then Some("jpg")
    else if mime == "image/png" then Some("png")
    else if mime == "image/webp" then Some("webp")
    else None
  }

  /** `imageFile.type || 'image/jpeg'`. */
  function EffectiveMime(fileType: string): (mime: string)
    ensures mime != ""
    ensures fileType != "" ==> mime == fileType
  {
    if fileType != "" then fileType else "image/jpeg"
  }

  /** `name.split('.').pop().toLowerCase()`: the text after the last dot,
      or the whole name when it has no dot. */
  function NameExt(name: string): (ext: string)
    ensures '.' !in ext
  {
    var parts := Split(name, '.');
    var last := Last(parts);
    assert forall i :: 0 <= i < |last| ==> last[i] != '.';
    ToLower(last)
  }

  /** `extFromMime[mimeType] || (nameExt === 'jpeg' ? 'jpg' : nameExt) || 'jpg'`:
      never empty, never containing a dot, never "jpeg", taken from the MIME
      table when the type is known and from the file name otherwise. */
  function FileExt(mime: string, name: string): (ext: string)
    ensures ext != "" && '.' !in ext && ext != "jpeg"
    ensures MimeExt(mime).Some? ==> ext == MimeExt(mime).value
    ensures MimeExt(mime).None? && NameExt(name) != "" ==>
              ext == (if NameExt(name) == "jpeg" then "jpg" else NameExt(name))
    ensures MimeExt(mime).None? && NameExt(name) == "" ==> ext == "jpg"
  {
    match MimeExt(mime)
    case Some(e) => e
    case None =>
      var fromName := NameExt(name);
      var normalized := if fromName == "jpeg" then "jpg" else fromName;
      if normalized != "" then normalized else "jpg"
  }

  /** `inputs/${Date.now()}-${random}.${fileExt}`; the time stamp and the
      random suffix are inputs. */
  function InputKey(stamp: string, suffix: string, ext: string): (key: string)
    ensures |key| > |"inputs/"| + |ext| && key[..7] == "inputs/"
    ensures key[|key| - |ext| - 1..] == "." + ext
  {
    "inputs/" + stamp + "-" + suffix + "." + ext
  }

  /** The extension of the stored key, read back the way the route reads a
      file name's extension, is the extension that was chosen. */
  lemma InputKeyExtension(stamp: string, suffix: string, ext: string)
    requires '.' !in ext
    ensures Last(Split(InputKey(stamp, suffix, ext), '.')) == ext
  {
    var a := "inputs/" + stamp + "-" + suffix;
    assert InputKey(stamp, suffix, ext) == a + ['.'] + ext;
    SplitLastAfter(a, '.', ext);
  }

  // ---------------------------------------------------------------------
  // Prediction creation and polling

  /** `result.output`: a single value or a list; `None` stands for every
      falsy JSON value. */
  datatype Output = Single(value: Option<string>) | Many(items: seq<Option<string>>)

  /** `Array.isArray(output) ? output[0] : output`, then the emptiness
      check: a non-empty URL, or the "empty result" error. */
  function ExtractImageUrl(output: Output): (r: Result<string, string>)
    ensures r.Success? ==> r.value != ""
    ensures r.Failure? ==> r.error == EmptyResult
    ensures output.Many? && |output.items| > 0 && output.items[0].Some? && output.items[0].value != "" ==>
              r == Success(output.items[0].value)
    ensures output.Single? && output.value.Some? && output.value.value != "" ==>
              r == Success(output.value.value)
    ensures r.Success? <==> match output
      case Single(v) => v.Some? && v.value != ""
      case Many(items) => |items| > 0 && items[0].Some? && items[0].value != ""
  {
    var first := match output
      case Single(v) => v
      case Many(items) => if |items| > 0 then items[0] else None;
    match first
    case Some(url) => if url != "" then Success(url) else Failure(EmptyResult)
    case None => Failure(EmptyResult)
  }

  /** What one status check yields: a parsed status record, or the error
      thrown by `fetch` or `.json()`. */
  datatype PollReply =
    | StatusReply(status: string, error: string, output: Output)
    | PollThrew(message: string)

  /** The end of the poll loop. */
  datatype PollOutcome =
    | Succeeded(output: Output, checks: nat)
    | JobFailed(error: string)
    | PollError(message: string)
    | TimedOut

  /** A reply after which the loop goes on polling. */
  predicate Pending(reply: PollReply)
  {
    reply.StatusReply? && reply.status != "succeeded" && reply.status != "failed"
  }

  /** The poll loop from check `i` on: stop at the first "succeeded", raise
      at the first "failed" or thrown check, time out after check 60. */
  function PollFrom(replies: seq<PollReply>, i: nat): (outcome: PollOutcome)
    requires |replies| >= MaxPolls
    ensures outcome.Succeeded? ==> i < outcome.checks <= MaxPolls
    ensures outcome == TimedOut ==> forall k :: i <= k < MaxPolls ==> Pending(replies[k])
    decreases MaxPolls - i
  {
    if i >= MaxPolls then TimedOut
    else match replies[i]
      case PollThrew(m) => PollError(m)
      case StatusReply(status, error, output) =>
        if status == "succeeded" then Succeeded(output, i + 1)
        else if status == "failed" then JobFailed(error)
        else PollFrom(replies, i + 1)
  }

  /** The loop ends at the first reply among the first 60 that is not
      pending, with that reply's outcome; a success reports how many checks
      were made. */
  lemma {:induction false} PollStopsAtFirstTerminal(replies: seq<PollReply>, i: nat, j: nat)
    requires |replies| >= MaxPolls
    requires i <= j < MaxPolls
    requires forall k :: i <= k < j ==> Pending(replies[k])
    requires !Pending(replies[j])
    ensures PollFrom(replies, i) == match replies[j]
      case PollThrew(m) => PollError(m)
      case StatusReply(status, error, output) =>
        if status == "succeeded" then Succeeded(output, j + 1) else JobFailed(error)
    decreases j - i
  {
    if i < j {
      PollStopsAtFirstTerminal(replies, i + 1, j);
    }
  }

  /** The loop times out exactly when all 60 checks are pending. */
  lemma {:induction false} PollTimesOutIffAllPending(replies: seq<PollReply>, i: nat)
    requires |replies| >= MaxPolls
    ensures PollFrom(replies, i) == TimedOut <==> forall k :: i <= k < MaxPolls ==> Pending(replies[k])
    decreases MaxPolls - i
  {
    if i < MaxPolls {
      PollTimesOutIffAllPending(replies, i + 1);
    }
  }

  /** A success is only ever reported for a "succeeded" reply within the
      budget of 60 checks, after only pending replies. */
  lemma {:induction false} PollSuccessIsConfirmed(replies: seq<PollReply>, i: nat)
    requires |replies| >= MaxPolls
    requires PollFrom(replies, i).Succeeded?
    ensures var c := PollFrom(replies, i).checks;
      && i < c <= MaxPolls
      && replies[c - 1].StatusReply? && replies[c - 1].status == "succeeded"
      && PollFrom(replies, i).output == replies[c - 1].output
      && forall k :: i <= k < c - 1 ==> Pending(replies[k])
    decreases MaxPolls - i
  {
    if i < MaxPolls && Pending(replies[i]) {
      PollSuccessIsConfirmed(replies, i + 1);
    }
  }

  /** The poll loop (lines 236-260): at most 60 checks; a "succeeded" status
      ends it, a "failed" status or a thrown check raises at once, and
      running out of checks raises the timeout. */
  method PollPrediction(replies: seq<PollReply>) returns (outcome: PollOutcome)
    requires |replies| >= MaxPolls
    ensures outcome == PollFrom(replies, 0)
  {
    var lastStatus := "";
    var i := 0;
    while i < MaxPolls
      invariant 0 <= i <= MaxPolls
      invariant PollFrom(replies, 0) == PollFrom(replies, i)
      invariant lastStatus != "succeeded"
      decreases MaxPolls - i
    {
      match replies[i] {
        case PollThrew(m) =>
          return PollError(m);
        case StatusReply(status, error, output) =>
          lastStatus := status;
          if status == "succeeded" {
            return Succeeded(output, i + 1);
          } else if status == "failed" {
            return JobFailed(error);
          }
      }
      i := i + 1;
    }
    // `result.status !== 'succeeded'` (line 258) always holds here, since a
    // success returns from inside the loop
    assert lastStatus != "succeeded";
    outcome := TimedOut;
  }

  // ---------------------------------------------------------------------
  // The request handler

  datatype ImageFile = ImageFile(name: string, fileType: string)

  /** `request.formData()`: the parsed form (with or without an `image`
      entry), or the error it throws. */
  datatype Form = FormUnreadable(message: string) | FormData(image: Option<ImageFile>)

  datatype GenerateRequest = GenerateRequest(headers: map<string, string>, form: Form, origin: string)

  /** The environment: MOCK_AI and REPLICATE_API_TOKEN. */
  datatype Config = Config(mockAi: Option<string>, replicateToken: Option<string>)

  /** `MOCK_AI === '1' || MOCK_AI === 'true'`: a strict comparison, so an
      unset variable, "0", "TRUE" or any other text leaves it off. */
  predicate MockEnabled(config: Config)
    ensures MockEnabled(config) ==> config.mockAi.Some? && config.mockAi.value in {"1", "true"}
    ensures config.mockAi.None? || config.mockAi.value !in {"1", "true"} ==> !MockEnabled(config)
  {
    config.mockAi == Some("1") || config.mockAi == Some("true")
  }

  predicate TokenSet(config: Config)
  {
    config.replicateToken.Some? && config.replicateToken.value != ""
  }

  /** The prediction-creation call: `fetch` threw, the body was not JSON,
      or a parsed body with the HTTP status and its `error` field. */
  datatype CreateReply =
    | CreateThrew(message: string)
    | NotJson(body: string)
    | Created(httpStatus: nat, error: Option<string>)

  /** Everything the outside world answers during one request. */
  datatype Services = Services(
    now: int,
    stamp: string,
    suffix: string,
    countFails: bool,
    insertFails: bool,
    recountFails: bool,
    uploadError: Option<string>,
    publicUrl: string -> string,
    create: CreateReply,
    replies: seq<PollReply>)

  datatype GenerateResponse =
    | Generated(message: string, imageUrl: string, remainingGenerations: int)
    | Rejected(status: nat, message: string, error: string, details: Option<string>)

  const RateLimited: GenerateResponse :=
    Rejected(429, "每个IP每24小时最多生成5张图片", "RATE_LIMIT_EXCEEDED", None)

  /** `text.slice(0, 500)`: the first 500 characters, or all of a shorter
      text. */
  function Prefix500(text: string): (r: string)
    ensures |r| == if |text| <= 500 then |text| else 500
    ensures r == text[..|r|]
  {
    if |text| <= 500 then text else text[..500]
  }

  /** The rows the route's insert leaves in `generation_logs` (a failed
      insert is only logged), and the quota recounted from them. */
  ghost predicate GenerationLogged(log: seq<LogRow>, ip: string, svc: Services,
                                   logAfter: seq<LogRow>, remaining: int)
  {
    && logAfter == (if svc.insertFails then log else log + [LogRow(ip, svc.now)])
    && remaining == Remaining(RecentCount(svc.recountFails, logAfter, ip, svc.now))
  }

  /** Records a generation in `generation_logs` and recounts the window for
      the response's quota: the row just written counts against the
      address. */
  method LogGeneration(log: seq<LogRow>, ip: string, svc: Services)
    returns (logAfter: seq<LogRow>, remaining: int)
    ensures GenerationLogged(log, ip, svc, logAfter, remaining)
    ensures !svc.insertFails && !svc.recountFails ==>
      remaining == Remaining(CountSince(log, ip, svc.now - WindowMs) + 1)
  {
    logAfter := log;
    if !svc.insertFails {
      logAfter := log + [LogRow(ip, svc.now)];
      CountSinceAppend(log, ip, svc.now);
    }
    remaining := Remaining(RecentCount(svc.recountFails, logAfter, ip, svc.now));
  }

  /** The storage key the input image is uploaded under. */
  function InputKeyFor(file: ImageFile, svc: Services): string
  {
    InputKey(svc.stamp, svc.suffix, FileExt(EffectiveMime(file.fileType), file.name))
  }

  /** The input is stored, has a public URL, and a token is configured: the
      route goes on to create the prediction. */
  ghost predicate ReadyToCreate(file: ImageFile, config: Config, svc: Services)
  {
    svc.uploadError.None? && svc.publicUrl(InputKeyFor(file, svc)) != "" && TokenSet(config)
  }

  /** `response.ok && !prediction?.error`: the prediction was created. */
  predicate CreateAccepted(create: CreateReply)
  {
    && create.Created?
    && 200 <= create.httpStatus <= 299
    && (create.error.None? || create.error.value == "")
  }

  /** The response of the real path for an uploaded `file`, from the input
      upload to the logged success, in the order the route checks: upload
      error, missing public URL, missing token, the three ways creating the
      prediction can fail, then the outcome of the poll loop and of output
      extraction. Only a success writes a log row. */
  ghost predicate PredictionAnswer(file: ImageFile, ip: string, config: Config, svc: Services,
                                   log: seq<LogRow>, resp: GenerateResponse, logAfter: seq<LogRow>)
    requires |svc.replies| >= MaxPolls
  {
    if svc.uploadError.Some? then
      resp == Rejected(500, "原图上传失败", svc.uploadError.value, None) && logAfter == log
    else if svc.publicUrl(InputKeyFor(file, svc)) == "" then
      resp == Rejected(500, "原图链接获取失败", "MISSING_INPUT_URL", None) && logAfter == log
    else if !TokenSet(config) then
      resp == Rejected(500, "服务器配置错误", "MISSING_API_TOKEN", None) && logAfter == log
    else match svc.create
      case CreateThrew(m) =>
        resp == Rejected(500, ServerErrorMessage, m, None) && logAfter == log
      case NotJson(body) =>
        resp == Rejected(502, "Replicate 响应格式异常", "REPLICATE_INVALID_RESPONSE", Some(Prefix500(body)))
        && logAfter == log
      case Created(httpStatus, error) =>
        if !CreateAccepted(svc.create) then
          // `response.status || 502` and `prediction?.error || 'REPLICATE_CREATE_FAILED'`
          && resp == Rejected(if httpStatus != 0 then httpStatus else 502, "Replicate 创建预测失败",
                              if error.Some? && error.value != "" then error.value else "REPLICATE_CREATE_FAILED", None)
          && logAfter == log
        else match PollFrom(svc.replies, 0)
          case JobFailed(e) => resp == Rejected(500, ServerErrorMessage, GenerationFailedPrefix + e, None) && logAfter == log
          case PollError(m) => resp == Rejected(500, ServerErrorMessage, m, None) && logAfter == log
          case TimedOut => resp == Rejected(500, ServerErrorMessage, GenerationTimeout, None) && logAfter == log
          case Succeeded(output, _) =>
            match ExtractImageUrl(output)
            case Failure(e) => resp == Rejected(500, ServerErrorMessage, e, None) && logAfter == log
            case Success(url) =>
              && resp.Generated? && resp.message == "图片生成成功" && resp.imageUrl == url
              && GenerationLogged(log, ip, svc, logAfter, resp.remainingGenerations)
  }

  /** Lines 117-291: uploads the input, creates the prediction, polls it and
      logs a success. Returns the response, the log after the request and
      the upload it made. */
  method StoreAndPredict(file: ImageFile, ip: string, config: Config, svc: Services, log: seq<LogRow>)
    returns (resp: GenerateResponse, logAfter: seq<LogRow>, upload: Option<Storage.UploadRequest>)
    requires |svc.replies| >= MaxPolls
    ensures upload == Some(Storage.UploadRequest(Storage.Bucket, InputKeyFor(file, svc), EffectiveMime(file.fileType), false))
    ensures PredictionAnswer(file, ip, config, svc, log, resp, logAfter)
    // a success needs a stored input, an accepted prediction, a confirmed
    // "succeeded" within 60 checks and a usable output
    ensures resp.Generated? ==>
      && ReadyToCreate(file, config, svc) && CreateAccepted(svc.create)
      && PollFrom(svc.replies, 0).Succeeded?
      && ExtractImageUrl(PollFrom(svc.replies, 0).output) == Success(resp.imageUrl)
      && GenerationLogged(log, ip, svc, logAfter, resp.remainingGenerations)
    ensures !resp.Generated? ==> logAfter == log
  {
    logAfter := log;
    var mime := EffectiveMime(file.fileType);
    var key := InputKey(svc.stamp, svc.suffix, FileExt(mime, file.name));
    upload := Some(Storage.UploadRequest(Storage.Bucket, key, mime, false));
    if svc.uploadError.Some? {
      return Rejected(500, "原图上传失败", svc.uploadError.value, None), logAfter, upload;
    }
    var inputUrl := svc.publicUrl(key);
    if inputUrl == "" {
      return Rejected(500, "原图链接获取失败", "MISSING_INPUT_URL", None), logAfter, upload;
    }
    if !TokenSet(config) {
      return Rejected(500, "服务器配置错误", "MISSING_API_TOKEN", None), logAfter, upload;
    }

    match svc.create {
      case CreateThrew(m) =>
        return Rejected(500, ServerErrorMessage, m, None), logAfter, upload;
      case NotJson(body) =>
        return Rejected(502, "Replicate 响应格式异常", "REPLICATE_INVALID_RESPONSE", Some(Prefix500(body))),
               logAfter, upload;
      case Created(httpStatus, error) =>
        var ok := 200 <= httpStatus <= 299;
        var errorSet := error.Some? && error.value != "";
        if !ok || errorSet {
          return Rejected(if httpStatus != 0 then httpStatus else 502, "Replicate 创建预测失败",
                          if errorSet then error.value else "REPLICATE_CREATE_FAILED", None),
                 logAfter, upload;
        }
    }

    var outcome := PollPrediction(svc.replies);
    match outcome {
      case PollError(m) =>
        return Rejected(500, ServerErrorMessage, m, None), logAfter, upload;
      case JobFailed(error) =>
        return Rejected(500, ServerErrorMessage, GenerationFailedPrefix + error, None), logAfter, upload;
      case TimedOut =>
        return Rejected(500, ServerErrorMessage, GenerationTimeout, None), logAfter, upload;
      case Succeeded(output, _) =>
        var extracted := ExtractImageUrl(output);
        if extracted.Failure? {
          return Rejected(500, ServerErrorMessage, extracted.error, None), logAfter, upload;
        }
        var remaining;
        logAfter, remaining := LogGeneration(log, ip, svc);
        resp := Generated("图片生成成功", extracted.value, remaining);
    }
  }

  /** The rate gate admits the request: the count of the last 24 hours, or
      the fail-closed value, leaves room for one more generation. */
  ghost predicate UnderLimit(req: GenerateRequest, svc: Services, log: seq<LogRow>)
  {
    RecentCount(svc.countFails, log, ClientIp(req.headers), svc.now) < MaxGenerations
  }

  /** The requests that get as far as the poll loop: under the limit, an
      image in the form, not mocked, input stored with a public URL, a token
      configured, and a prediction created. */
  ghost predicate ReachesPolling(req: GenerateRequest, config: Config, svc: Services, log: seq<LogRow>)
  {
    && UnderLimit(req, svc, log)
    && req.form.FormData? && req.form.image.Some?
    && !MockEnabled(config)
    && ReadyToCreate(req.form.image.value, config, svc)
    && CreateAccepted(svc.create)
  }

  /** `POST`: returns the response and the `generation_logs` table after the
      request, and the input upload it made, if any. */
  method Post(req: GenerateRequest, config: Config, svc: Services, log: seq<LogRow>)
    returns (resp: GenerateResponse, logAfter: seq<LogRow>, upload: Option<Storage.UploadRequest>)
    requires |svc.replies| >= MaxPolls
    // the rate gate comes first and fails closed
    ensures !UnderLimit(req, svc, log) ==> resp == RateLimited && logAfter == log && upload == None
    ensures svc.countFails ==> resp == RateLimited
    // an unreadable form and a missing image
    ensures UnderLimit(req, svc, log) && req.form.FormUnreadable? ==>
      resp == Rejected(500, ServerErrorMessage, req.form.message, None) && logAfter == log && upload == None
    ensures UnderLimit(req, svc, log) && req.form.FormData? && req.form.image.None? ==>
      resp == Rejected(400, "请上传图片", "MISSING_IMAGE", None) && logAfter == log && upload == None
    // the mock path always succeeds, whether or not the insert does
    ensures UnderLimit(req, svc, log) && req.form.FormData? && req.form.image.Some? && MockEnabled(config) ==>
      && resp.Generated? && resp.message == "Mock 图片生成成功" && resp.imageUrl == req.origin + MockImagePath
      && GenerationLogged(log, ClientIp(req.headers), svc, logAfter, resp.remainingGenerations)
      && upload == None
    // the real path: the input upload and the response table
    ensures UnderLimit(req, svc, log) && req.form.FormData? && req.form.image.Some? && !MockEnabled(config) ==>
      var file := req.form.image.value;
      && upload == Some(Storage.UploadRequest(Storage.Bucket, InputKeyFor(file, svc), EffectiveMime(file.fileType), false))
      && PredictionAnswer(file, ClientIp(req.headers), config, svc, log, resp, logAfter)
    // a log row is written only for a success, and for every success whose insert succeeds
    ensures logAfter == log || logAfter == log + [LogRow(ClientIp(req.headers), svc.now)]
    ensures logAfter != log ==> resp.Generated? && !svc.insertFails
    ensures resp.Generated? ==>
      && GenerationLogged(log, ClientIp(req.headers), svc, logAfter, resp.remainingGenerations)
      && 0 <= resp.remainingGenerations <= MaxGenerations
      && resp.imageUrl != ""
    // the real path succeeds only after a confirmed "succeeded" with a usable output
    ensures resp.Generated? && !MockEnabled(config) ==>
      && ReachesPolling(req, config, svc, log)
      && PollFrom(svc.replies, 0).Succeeded?
      && ExtractImageUrl(PollFrom(svc.replies, 0).output) == Success(resp.imageUrl)
    // and every such request is answered with the output's URL, whether or
    // not the log insert or the recount fails
    ensures ReachesPolling(req, config, svc, log) && PollFrom(svc.replies, 0).Succeeded?
            && ExtractImageUrl(PollFrom(svc.replies, 0).output).Success? ==>
      resp.Generated? && resp.imageUrl == ExtractImageUrl(PollFrom(svc.replies, 0).output).value
  {
    logAfter, upload := log, None;
    var ip := ClientIp(req.headers);
    var count := RecentCount(svc.countFails, log, ip, svc.now);
    if count >= MaxGenerations {
      return RateLimited, logAfter, upload;
    }

    if req.form.FormUnreadable? {
      return Rejected(500, ServerErrorMessage, req.form.message, None), logAfter, upload;
    }
    if req.form.image.None? {
      return Rejected(400, "请上传图片", "MISSING_IMAGE", None), logAfter, upload;
    }
    var file := req.form.image.value;

    if MockEnabled(config) {
      var remaining;
      logAfter, remaining := LogGeneration(log, ip, svc);
      return Generated("Mock 图片生成成功", req.origin + MockImagePath, remaining), logAfter, upload;
    }

    resp, logAfter, upload := StoreAndPredict(file, ip, config, svc, log);
  }
}
