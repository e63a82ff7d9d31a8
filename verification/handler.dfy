/**
  The `POST /api/apply` handler: required-field validation, then the mail
  configuration check, then rendering and sending the mail, and on a failed
  send the classification of the error text into a user-facing message.
  The mail transport is abstracted to the outcome it would report.
 */
module ApplyHandler {
  import opened Wrappers
  import opened JsValues
  import opened Text
  import opened Config
  import opened Format

  /** What `transporter.sendMail` reports: delivery, or an error with its message. */
  datatype SendOutcome = Delivered | SendFailed(message: string)

  /** The JSON body of a response. */
  datatype Body =
    | SuccessBody(success: bool, message: string)
    | ErrorBody(error: string, details: Option<string>)

  datatype Response = Response(status: int, body: Body)

  /** The `mailOptions` handed to the transport. */
  datatype MailOptions = MailOptions(from: string, to: string, subject: string, text: string, html: string)

  /** The response, and the mail handed to the transport if the handler got that far. */
  datatype Outcome = Outcome(response: Response, mail: Option<MailOptions>)

  const MissingFieldsError: string := "Missing required fields: name, age, or terms not accepted"
  const NotConfiguredError: string := "Email service not configured"
  const NotConfiguredDetails: string := "Set EMAIL_USER, EMAIL_PASSWORD, and RECIPIENT_EMAIL in .env"
  const SentMessage: string := "Application submitted and email sent!"
  const GenericSendError: string := "Failed to send email."
  const AuthSendError: string := "Email auth failed. Use a Gmail App Password."
  const NetworkSendError: string := "Internet issue: check your connection."
  const SubjectPrefix: string := "💕 New Girlfriend Application from "

  const InvalidLogin: string := "Invalid login"
  const NotFound: string := "ENOTFOUND"

  const RequiredFields: seq<string> := ["name", "age", "terms"]

  /** `data.name && data.age && data.terms`: none of the three is falsy. */
  function HasRequiredFields(data: Record): (ok: bool)
    ensures ok <==> forall k :: k in RequiredFields ==> Get(data, k) !in FalsyValues
  {
    assert RequiredFields[0] == "name" && RequiredFields[1] == "age" && RequiredFields[2] == "terms";
    Truthy(Get(data, "name")) && Truthy(Get(data, "age")) && Truthy(Get(data, "terms"))
  }

  /**
    The user-facing message for a failed send: an authentication failure
    takes priority over a lookup failure, and anything else is generic.
   */
  function ClassifySendError(message: string): (r: string)
    ensures Contains(message, InvalidLogin) ==> r == AuthSendError
    ensures !Contains(message, InvalidLogin) && Contains(message, NotFound) ==> r == NetworkSendError
    ensures !Contains(message, InvalidLogin) && !Contains(message, NotFound) ==> r == GenericSendError
  {
    if Includes(message, InvalidLogin) then AuthSendError
    else if Includes(message, NotFound) then NetworkSendError
    else GenericSendError
  }

  /** The `catch` branch: status 500, the classified message, and the raw message as details. */
  function SendErrorResponse(message: string): (r: Response)
    ensures r.status == 500 && r.body.ErrorBody?
    ensures r.body.error == ClassifySendError(message) && r.body.details == Some(message)
  {
    Response(500, ErrorBody(ClassifySendError(message), Some(message)))
  }

  /** The `mailOptions` for a rendered text; the configuration check guarantees the addresses exist. */
  function ComposeMail(data: Record, env: Env, text: string): (m: MailOptions)
    requires ValidateEnvVars(env)
    ensures "EMAIL_USER" in env && m.from == env["EMAIL_USER"]
    ensures "RECIPIENT_EMAIL" in env && m.to == env["RECIPIENT_EMAIL"]
    ensures m.subject == SubjectPrefix + ToJsString(Get(data, "name"))
    ensures m.text == text
    ensures m.html == ReplaceNewlines(text)
    ensures '\n' !in m.html
    ensures !Contains(text, Br) ==> RestoreNewlines(m.html) == text
  {
    ValidateEnvVarsByKey(env);
    RestoreWhenNoBr(text);
    MailOptions(env["EMAIL_USER"], env["RECIPIENT_EMAIL"],
                SubjectPrefix + ToJsString(Get(data, "name")), text, ReplaceNewlines(text))
  }

  /**
    The `/api/apply` handler for request body `data`, process environment
    `env`, clock reading `submittedAt` and the outcome `send` the transport
    would report.
   */
  function HandleApply(data: Record, env: Env, submittedAt: string, send: SendOutcome): (o: Outcome)
    ensures o.response.status == 200 || o.response.status == 400 || o.response.status == 500
    ensures !HasRequiredFields(data) ==>
      o == Outcome(Response(400, ErrorBody(MissingFieldsError, None)), None)
    ensures HasRequiredFields(data) && !ValidateEnvVars(env) ==>
      o == Outcome(Response(500, ErrorBody(NotConfiguredError, Some(NotConfiguredDetails))), None)
    ensures o.mail.Some? <==>
      HasRequiredFields(data) && ValidateEnvVars(env) && FormatApplicationData(data, submittedAt).Ok?
    ensures o.mail.Some? ==>
      && ValidateEnvVars(env)
      && o.mail.value == ComposeMail(data, env, FormatApplicationData(data, submittedAt).value)
    ensures o.response.status == 200 <==> o.mail.Some? && send == Delivered
    ensures o.response.status == 200 ==> o.response.body == SuccessBody(true, SentMessage)
    ensures o.mail.Some? && send.SendFailed? ==> o.response == SendErrorResponse(send.message)
    ensures HasRequiredFields(data) && ValidateEnvVars(env) && FormatApplicationData(data, submittedAt).Err? ==>
      o.response == SendErrorResponse(CharAtTypeError)
  {
    if !HasRequiredFields(data) then
      Outcome(Response(400, ErrorBody(MissingFieldsError, None)), None)
    else if !ValidateEnvVars(env) then
      Outcome(Response(500, ErrorBody(NotConfiguredError, Some(NotConfiguredDetails))), None)
    else
      match FormatApplicationData(data, submittedAt)
      case Err(thrown) => Outcome(SendErrorResponse(thrown), None)
      case Ok(text) =>
        var mail := ComposeMail(data, env, text);
        match send
        case Delivered => Outcome(Response(200, SuccessBody(true, SentMessage)), Some(mail))
        case SendFailed(message) => Outcome(SendErrorResponse(message), Some(mail))
  }

  /** Field validation comes first: an incomplete record gets the same 400 whatever the configuration or transport. */
  lemma ValidationPrecedesConfig(data: Record, env1: Env, env2: Env, at1: string, at2: string,
                                 send1: SendOutcome, send2: SendOutcome)
    requires !HasRequiredFields(data)
    ensures HandleApply(data, env1, at1, send1) == HandleApply(data, env2, at2, send2)
    ensures HandleApply(data, env1, at1, send1).response.status == 400
  {
  }

  /** A complete record under a bad configuration gets 500 and never reaches the transport. */
  lemma BadConfigNeverSends(data: Record, env: Env, submittedAt: string, send: SendOutcome)
    requires HasRequiredFields(data) && !ValidateEnvVars(env)
    ensures HandleApply(data, env, submittedAt, send).mail == None
    ensures HandleApply(data, env, submittedAt, send).response.body.error == NotConfiguredError
  {
  }

  /** An authentication error is reported as such even when the text also mentions `ENOTFOUND`. */
  lemma AuthFailureTakesPriority(before: string, middle: string, after: string)
    ensures ClassifySendError(before + InvalidLogin + middle + NotFound + after) == AuthSendError
    ensures ClassifySendError(before + NotFound + middle + InvalidLogin + after) == AuthSendError
  {
    ContainsInMiddle(before, InvalidLogin, middle + NotFound + after);
    assert before + InvalidLogin + (middle + NotFound + after) == before + InvalidLogin + middle + NotFound + after;
    ContainsInMiddle(before + NotFound + middle, InvalidLogin, after);
  }

  /** The thrown `TypeError` text matches neither pattern, so it gets the generic message. */
  lemma TypeErrorIsGeneric()
    ensures ClassifySendError(CharAtTypeError) == GenericSendError
  {
    assert 'I' !in CharAtTypeError && 'E' !in CharAtTypeError;
    AbsentFirstCharNotContained(CharAtTypeError, InvalidLogin);
    AbsentFirstCharNotContained(CharAtTypeError, NotFound);
  }

  /** The authentication message carries the App Password advice. */
  lemma AuthMessageAdvisesAppPassword()
    ensures Contains(AuthSendError, "App Password")
  {
    ContainsInMiddle("Email auth failed. Use a Gmail ", "App Password", ".");
    assert "Email auth failed. Use a Gmail " + "App Password" + "." == AuthSendError;
  }

  /** A rejected login surfaces the App Password advice with status 500 and the raw text as details. */
  lemma InvalidCredentialsAdviseAppPassword(data: Record, env: Env, submittedAt: string, before: string, after: string)
    requires HasRequiredFields(data) && ValidateEnvVars(env)
    requires FormatApplicationData(data, submittedAt).Ok?
    ensures HandleApply(data, env, submittedAt, SendFailed(before + InvalidLogin + after)).response
      == Response(500, ErrorBody(AuthSendError, Some(before + InvalidLogin + after)))
    ensures Contains(AuthSendError, "App Password")
  {
    ContainsInMiddle(before, InvalidLogin, after);
    AuthMessageAdvisesAppPassword();
  }

  /** A configuration with real-looking credentials. */
  const SampleEnv: Env := map[
    "EMAIL_USER" := "me@gmail.com",
    "EMAIL_PASSWORD" := "abcd efgh ijkl mnop",
    "RECIPIENT_EMAIL" := "inbox@example.com"
  ]

  /** The sample credentials pass the configuration check. */
  lemma SampleEnvIsValid()
    ensures ValidateEnvVars(SampleEnv)
  {
    assert 'y' !in "me@gmail.com" && 'y' !in "abcd efgh ijkl mnop" && 'y' !in "inbox@example.com";
    AbsentFirstCharNotContained("me@gmail.com", Placeholder);
    AbsentFirstCharNotContained("abcd efgh ijkl mnop", Placeholder);
    AbsentFirstCharNotContained("inbox@example.com", Placeholder);
    ValidateEnvVarsByKey(SampleEnv);
  }

  /**
    A complete application under a valid configuration, whose zodiac is
    absent or a string, reaches the transport; when the transport delivers,
    the answer is 200 with the fixed message.
   */
  lemma DeliveredApplicationSucceeds(data: Record, env: Env, submittedAt: string)
    requires HasRequiredFields(data) && ValidateEnvVars(env)
    requires !Truthy(Get(data, "zodiac")) || Get(data, "zodiac").JStr?
    ensures HandleApply(data, env, submittedAt, Delivered).response == Response(200, SuccessBody(true, SentMessage))
    ensures HandleApply(data, env, submittedAt, Delivered).mail.Some?
  {
  }

  /** The sample application `Alex, 24` is accepted and mailed under the subject naming Alex. */
  lemma CompleteApplicationDelivered(data: Record, env: Env, submittedAt: string)
    requires data == map["name" := JStr("Alex"), "age" := JNum(24), "terms" := JBool(true),
                         "cuddleRating" := JNum(5), "petApproval" := JBool(true)]
    requires ValidateEnvVars(env)
    ensures HandleApply(data, env, submittedAt, Delivered).response == Response(200, SuccessBody(true, SentMessage))
    ensures HandleApply(data, env, submittedAt, Delivered).mail.Some?
    ensures HandleApply(data, env, submittedAt, Delivered).mail.value.subject == SubjectPrefix + "Alex"
  {
    assert HasRequiredFields(data) && Get(data, "zodiac") == JMissing;
    assert ToJsString(Get(data, "name")) == "Alex";
    DeliveredApplicationSucceeds(data, env, submittedAt);
  }

  /** An empty name is missing, even with age and terms present. */
  lemma EmptyNameRejected(env: Env, submittedAt: string, send: SendOutcome)
    ensures var data := map["name" := JStr(""), "age" := JNum(24), "terms" := JBool(true)];
      HandleApply(data, env, submittedAt, send)
        == Outcome(Response(400, ErrorBody(MissingFieldsError, None)), None)
  {
  }
}
