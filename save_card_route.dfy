/** `POST /api/save/card` (app/api/save/card/route.ts): validates the card
    fields with the zod schema and inserts a row into the `cards` table. The
    database's answer and the e-mail and URL recognisers are inputs. */
module SaveCardRoute {

  import opened Wrappers
  import opened JsStrings
  import opened Validation

  const NameMax: nat := 50
  const MessageMax: nat := 1000
  const MessageTooLong: string := "祝福语太长"

  /** The request body: its five fields (`None` when missing), or the error
      `request.json()` threw. */
  datatype SaveBody =
    | Unparseable(error: string)
    | CardFields(senderName: Option<string>, recipientName: Option<string>, recipientEmail: Option<string>,
                 message: Option<string>, imageUrl: Option<string>)

  /** `saveCardSchema`, in declaration order: the five body fields, each
      with at least one check. */
  function Schema(isEmail: string -> bool, isUrl: string -> bool): (fields: seq<Field>)
    ensures |fields| == 5
    ensures fields[0].name == "senderName" && fields[1].name == "recipientName"
            && fields[2].name == "recipientEmail" && fields[3].name == "message"
            && fields[4].name == "imageUrl"
    ensures forall k :: 0 <= k < |fields| ==> |fields[k].checks| >= 1
  {
    [ Field("senderName", [MinLength(1, "发送人姓名不能为空"), MaxLength(NameMax, "姓名太长")]),
      Field("recipientName", [MinLength(1, "收件人姓名不能为空"), MaxLength(NameMax, "姓名太长")]),
      Field("recipientEmail", [Format(isEmail, "邮箱格式不正确")]),
      Field("message", [MinLength(1, "祝福语不能为空"), MaxLength(MessageMax, MessageTooLong)]),
      Field("imageUrl", [Format(isUrl, "图片URL格式不正确")]) ]
  }

  function Values(body: SaveBody): seq<Option<string>>
    requires body.CardFields?
  {
    [body.senderName, body.recipientName, body.recipientEmail, body.message, body.imageUrl]
  }

  /** What the schema accepts, written out field by field. */
  predicate ValidCard(body: SaveBody, isEmail: string -> bool, isUrl: string -> bool)
    requires body.CardFields?
  {
    && body.senderName.Some? && 1 <= Utf16Length(body.senderName.value) <= NameMax
    && body.recipientName.Some? && 1 <= Utf16Length(body.recipientName.value) <= NameMax
    && body.recipientEmail.Some? && isEmail(body.recipientEmail.value)
    && body.message.Some? && 1 <= Utf16Length(body.message.value) <= MessageMax
    && body.imageUrl.Some? && isUrl(body.imageUrl.value)
  }

  /** The schema finds no issue exactly when every field is present, the
      names hold 1 to 50 code units, the message 1 to 1000, and the e-mail
      and image URL are well formed. */
  lemma SchemaAcceptsValidCards(body: SaveBody, isEmail: string -> bool, isUrl: string -> bool)
    requires body.CardFields?
    ensures SchemaIssues(Schema(isEmail, isUrl), Values(body)) == [] <==> ValidCard(body, isEmail, isUrl)
  {
    var fields, values := Schema(isEmail, isUrl), Values(body);
    LengthFieldAccepts("senderName", 1, "发送人姓名不能为空", NameMax, "姓名太长", body.senderName);
    LengthFieldAccepts("recipientName", 1, "收件人姓名不能为空", NameMax, "姓名太长", body.recipientName);
    FormatFieldAccepts("recipientEmail", isEmail, "邮箱格式不正确", body.recipientEmail);
    LengthFieldAccepts("message", 1, "祝福语不能为空", MessageMax, MessageTooLong, body.message);
    FormatFieldAccepts("imageUrl", isUrl, "图片URL格式不正确", body.imageUrl);
    assert (forall i :: 0 <= i < 5 ==> Accepts(fields[i], values[i])) <==>
      Accepts(fields[0], values[0]) && Accepts(fields[1], values[1]) && Accepts(fields[2], values[2])
      && Accepts(fields[3], values[3]) && Accepts(fields[4], values[4]);
  }

  /** A message longer than 1000 code units is reported as too long. */
  lemma MessageTooLongReported(body: SaveBody, isEmail: string -> bool, isUrl: string -> bool)
    requires body.CardFields? && body.message.Some? && Utf16Length(body.message.value) > MessageMax
    ensures Issue("message", MessageTooLong) in SchemaIssues(Schema(isEmail, isUrl), Values(body))
  {
    var fields, values := Schema(isEmail, isUrl), Values(body);
    assert fields[3].checks[1] == MaxLength(MessageMax, MessageTooLong);
    FailedCheckReported("message", fields[3].checks, body.message.value, 1);
    var issues := FieldIssues(fields[3], values[3]);
    assert issues == CheckIssues("message", fields[3].checks, body.message.value);
    var k :| 0 <= k < |issues| && issues[k] == Issue("message", MessageTooLong);
    FieldIssuesReported(fields, values, 3);
  }

  /** The row inserted into `cards`; the recipient's e-mail is not stored. */
  datatype CardInsert = CardInsert(senderName: string, recipientName: string, message: string, imageUrl: string)

  /** The row the insert returns. */
  datatype CardRow = CardRow(id: string, senderName: string, recipientName: string, message: string,
                             imageUrl: string, createdAt: string)

  datatype SaveResponse =
    | Saved(message: string, cardId: string, senderName: string, recipientName: string,
            cardMessage: string, imageUrl: string, createdAt: string)
    | ValidationFailed(status: nat, message: string, issues: seq<Issue>)
    | SaveFailed(status: nat, message: string, error: string)

  /** The response together with the row handed to the database, if any. */
  datatype SaveOutcome = SaveOutcome(response: SaveResponse, insert: Option<CardInsert>)

  /** `POST`. The database's answer to the insert is an input. */
  function Post(body: SaveBody, isEmail: string -> bool, isUrl: string -> bool, db: Result<CardRow, string>)
    : (out: SaveOutcome)
    ensures body.Unparseable? ==> out == SaveOutcome(SaveFailed(500, "服务器错误", body.error), None)
    // the database is written exactly when the schema accepts the body, with the validated fields
    ensures out.insert.Some? <==> body.CardFields? && ValidCard(body, isEmail, isUrl)
    ensures out.insert.Some? ==>
              out.insert.value == CardInsert(body.senderName.value, body.recipientName.value,
                                             body.message.value, body.imageUrl.value)
    ensures body.CardFields? && !ValidCard(body, isEmail, isUrl) ==>
              && out.response == ValidationFailed(400, "数据验证失败", SchemaIssues(Schema(isEmail, isUrl), Values(body)))
              && out.response.issues != []
    ensures out.insert.Some? && db.Failure? ==> out.response == SaveFailed(500, "保存到数据库失败", db.error)
    ensures out.response.Saved? <==> out.insert.Some? && db.Success?
    ensures out.response.Saved? ==>
              var row := db.value;
              out.response == Saved("贺卡数据保存成功", row.id, row.senderName, row.recipientName,
                                    row.message, row.imageUrl, row.createdAt)
  {
    match body
    case Unparseable(e) => SaveOutcome(SaveFailed(500, "服务器错误", e), None)
    case CardFields(senderName, recipientName, recipientEmail, message, imageUrl) =>
      var issues := SchemaIssues(Schema(isEmail, isUrl), Values(body));
      SchemaAcceptsValidCards(body, isEmail, isUrl);
      if issues != [] then SaveOutcome(ValidationFailed(400, "数据验证失败", issues), None)
      else
        var insert := Some(CardInsert(senderName.value, recipientName.value, message.value, imageUrl.value));
        match db
        case Failure(e) => SaveOutcome(SaveFailed(500, "保存到数据库失败", e), insert)
        case Success(row) =>
          SaveOutcome(Saved("贺卡数据保存成功", row.id, row.senderName, row.recipientName,
                            row.message, row.imageUrl, row.createdAt), insert)
  }
}
