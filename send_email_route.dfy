/** `POST /api/send/email` (app/api/send/email/route.ts): validates the four
    fields with the zod schema, composes the subject and the HTML body, and
    hands the message to the mail provider, whose answer is an input. */
module SendEmailRoute {

  import opened Wrappers
  import opened JsStrings
  import opened Validation

  const Sender: string := "WishMint AI <noreply@wishmintai.com>"
  const SubjectSuffix: string := " 为你制作了一张专属贺卡"

  /** The request body: its four fields (`None` when missing), or the error
      `request.json()` threw. */
  datatype EmailBody =
    | Unparseable(error: string)
    | EmailFields(recipientName: Option<string>, recipientEmail: Option<string>,
                  senderName: Option<string>, cardUrl: Option<string>)

  /** `sendEmailSchema`, in declaration order: the four body fields, each
      with exactly one check. */
  function Schema(isEmail: string -> bool, isUrl: string -> bool): (fields: seq<Field>)
    ensures |fields| == 4
    ensures fields[0].name == "recipientName" && fields[1].name == "recipientEmail"
            && fields[2].name == "senderName" && fields[3].name == "cardUrl"
    ensures forall k :: 0 <= k < |fields| ==> |fields[k].checks| == 1
  {
    [ Field("recipientName", [MinLength(1, "收件人姓名不能为空")]),
      Field("recipientEmail", [Format(isEmail, "邮箱格式不正确")]),
      Field("senderName", [MinLength(1, "发件人姓名不能为空")]),
      Field("cardUrl", [Format(isUrl, "贺卡链接格式不正确")]) ]
  }

  function Values(body: EmailBody): seq<Option<string>>
    requires body.EmailFields?
  {
    [body.recipientName, body.recipientEmail, body.senderName, body.cardUrl]
  }

  /** What the schema accepts, written out field by field. */
  predicate ValidRequest(body: EmailBody, isEmail: string -> bool, isUrl: string -> bool)
    requires body.EmailFields?
  {
    && body.recipientName.Some? && body.recipientName.value != ""
    && body.recipientEmail.Some? && isEmail(body.recipientEmail.value)
    && body.senderName.Some? && body.senderName.value != ""
    && body.cardUrl.Some? && isUrl(body.cardUrl.value)
  }

  /** A field whose only check is a minimum length of one accepts exactly
      the present, non-empty strings. */
  lemma NonEmptyFieldAccepts(name: string, message: string, value: Option<string>)
    ensures Accepts(Field(name, [MinLength(1, message)]), value) <==> value.Some? && value.value != ""
  {
    if value.Some? {
      var s := value.value;
      assert Passes([MinLength(1, message)][0], s) <==> Utf16Length(s) >= 1;
      if s != [] {
        assert Utf16Length(s) >= |s| >= 1;
      }
    }
  }

  /** The schema finds no issue exactly when both names are non-empty and
      the address and the card link are well formed. */
  lemma SchemaAcceptsValidRequests(body: EmailBody, isEmail: string -> bool, isUrl: string -> bool)
    requires body.EmailFields?
    ensures SchemaIssues(Schema(isEmail, isUrl), Values(body)) == [] <==> ValidRequest(body, isEmail, isUrl)
  {
    var fields, values := Schema(isEmail, isUrl), Values(body);
    NonEmptyFieldAccepts("recipientName", "收件人姓名不能为空", body.recipientName);
    FormatFieldAccepts("recipientEmail", isEmail, "邮箱格式不正确", body.recipientEmail);
    NonEmptyFieldAccepts("senderName", "发件人姓名不能为空", body.senderName);
    FormatFieldAccepts("cardUrl", isUrl, "贺卡链接格式不正确", body.cardUrl);
    assert (forall i :: 0 <= i < 4 ==> Accepts(fields[i], values[i])) <==>
      Accepts(fields[0], values[0]) && Accepts(fields[1], values[1])
      && Accepts(fields[2], values[2]) && Accepts(fields[3], values[3]);
  }

  /** The subject line: the sender's name followed by the fixed phrase. */
  function Subject(senderName: string): (subject: string)
    ensures |subject| == |senderName| + |SubjectSuffix|
    ensures subject[..|senderName|] == senderName
    ensures subject[|senderName|..] == SubjectSuffix
  {
    senderName + SubjectSuffix
  }

  /** The HTML body, as the values interpolated into its fixed template:
      the page title, the sender named in the header and in the text, the
      card image, the greeting and the link button. */
  datatype EmailHtml = EmailHtml(title: string, headerSender: string, imageSrc: string,
                                 greetingName: string, bodySender: string, linkHref: string)

  /** The page title is the subject, so it opens with the sender's name;
      the sender is named in the header and in the text, the recipient in
      the greeting, and the card link is both the image and the button. */
  function ComposeHtml(recipientName: string, senderName: string, cardUrl: string): (html: EmailHtml)
    ensures |html.title| == |senderName| + |SubjectSuffix|
    ensures html.title[..|senderName|] == senderName && html.title[|senderName|..] == SubjectSuffix
    ensures html.headerSender == senderName && html.bodySender == senderName
    ensures html.greetingName == recipientName
    ensures html.imageSrc == cardUrl && html.linkHref == cardUrl
  {
    EmailHtml(Subject(senderName), senderName, cardUrl, recipientName, senderName, cardUrl)
  }

  /** The message handed to the provider. */
  datatype Email = Email(from: string, to: string, subject: string, html: EmailHtml)

  datatype EmailResponse =
    | EmailSent(message: string, emailId: string, recipient: string)
    | ValidationFailed(status: nat, message: string, issues: seq<Issue>)
    | SendFailed(status: nat, message: string, error: string)

  /** The response together with the message handed to the provider, if any. */
  datatype EmailOutcome = EmailOutcome(response: EmailResponse, sent: Option<Email>)

  /** `POST`. The provider's answer (a message id or an error message) is
      an input. */
  function Post(body: EmailBody, isEmail: string -> bool, isUrl: string -> bool, provider: Result<string, string>)
    : (out: EmailOutcome)
    ensures body.Unparseable? ==> out == EmailOutcome(SendFailed(500, "服务器错误", body.error), None)
    // a message goes out exactly when the schema accepts the body
    ensures out.sent.Some? <==> body.EmailFields? && ValidRequest(body, isEmail, isUrl)
    ensures body.EmailFields? && !ValidRequest(body, isEmail, isUrl) ==>
              && out.response == ValidationFailed(400, "数据验证失败", SchemaIssues(Schema(isEmail, isUrl), Values(body)))
              && out.response.issues != []
    ensures out.sent.Some? ==>
              var email := out.sent.value;
              && email.from == Sender
              && email.to == body.recipientEmail.value
              && email.subject == Subject(body.senderName.value)
              && email.html.title == email.subject
              && email.html.headerSender == body.senderName.value && email.html.bodySender == body.senderName.value
              && email.html.greetingName == body.recipientName.value
              && email.html.imageSrc == body.cardUrl.value && email.html.linkHref == body.cardUrl.value
    ensures out.sent.Some? && provider.Failure? ==> out.response == SendFailed(500, "邮件发送失败", provider.error)
    ensures out.response.EmailSent? <==> out.sent.Some? && provider.Success?
    ensures out.response.EmailSent? ==>
              out.response == EmailSent("邮件发送成功", provider.value, body.recipientEmail.value)
  {
    match body
    case Unparseable(e) => EmailOutcome(SendFailed(500, "服务器错误", e), None)
    case EmailFields(recipientName, recipientEmail, senderName, cardUrl) =>
      var issues := SchemaIssues(Schema(isEmail, isUrl), Values(body));
      SchemaAcceptsValidRequests(body, isEmail, isUrl);
      if issues != [] then EmailOutcome(ValidationFailed(400, "数据验证失败", issues), None)
      else
        var subject := Subject(senderName.value);
        var html := ComposeHtml(recipientName.value, senderName.value, cardUrl.value);
        var sent := Some(Email(Sender, recipientEmail.value, subject, html));
        match provider
        case Failure(e) => EmailOutcome(SendFailed(500, "邮件发送失败", e), sent)
        case Success(id) => EmailOutcome(EmailSent("邮件发送成功", id, recipientEmail.value), sent)
  }
}
