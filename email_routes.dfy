/**
 * The server's email routes: `POST /send-test`, `POST /send-custom` and
 * `GET /status/:emailId`, each a function from the request, the process
 * environment, the provider's answer and the clock to the one response the
 * route emits, together with the provider call it makes, if any.
 */
module EmailRoutes {
  import opened Js
  import opened EmailPattern

  // ---------------------------------------------------------------------
  // Requests, environment, provider and responses
  // ---------------------------------------------------------------------

  /** The JSON body of `POST /send-test`; a missing property is `None`. */
  datatype TestRequest = TestRequest(to: Option<string>, from: Option<string>, message: Option<string>)

  /** The JSON body of `POST /send-custom`. */
  datatype CustomRequest = CustomRequest(to: Option<string>, subject: Option<string>, message: Option<string>, from: Option<string>)

  /** The variables `RESEND_API_KEY`, `FROM_EMAIL` and `NODE_ENV` of the process environment. */
  datatype Env = Env(resendApiKey: Option<string>, fromEmail: Option<string>, nodeEnv: Option<string>)

  /**
   * The two readings of the clock a send makes: `toLocaleString()` while the
   * body is rendered and `toISOString()` when the reply is built.
   */
  datatype Clock = Clock(renderedAt: string, sentAt: string)

  /** What the provider's `emails.send` does: resolve with a message id, or throw an error whose `message` may be absent. */
  datatype ProviderOutcome = Sent(id: string) | Failed(message: Option<string>)

  /** The argument passed to the provider's `emails.send`. */
  datatype ProviderRequest = ProviderRequest(from: string, to: seq<string>, subject: string, html: string)

  /** The JSON bodies the routes reply with; an absent optional property is `None`. */
  datatype Body =
    | ErrorBody(error: string, details: Option<string>, field: Option<string>, required: Option<seq<string>>)
    | TestSent(message: string, emailId: string, to: string, sentAt: string)
    | CustomSent(message: string, emailId: string, to: string, subject: string, sentAt: string)
    | StatusPending(message: string, emailId: string, note: string)

  datatype Response = Response(status: int, body: Body)

  /** The outcome of one request: the provider call made (if any) and the response sent. */
  datatype Handled = Handled(call: Option<ProviderRequest>, response: Response)

  // ---------------------------------------------------------------------
  // Templates
  // ---------------------------------------------------------------------

  /** The `data` argument of `getEmailTemplate`. */
  datatype TemplateData = TemplateData(from: Option<string>, message: Option<string>, subject: Option<string>)

  datatype Template = Template(subject: string, html: string)

  const TestSubject: string := "Test Email from Resend Demo"
  const CustomDefaultSubject: string := "Message from Resend Demo"
  const DefaultFromName: string := "Demo Application"
  const DefaultTestMessage: string := "Default test message"
  const DefaultCustomMessage: string := "No message provided"
  const DefaultSender: string := "demo@resend.dev"

  // The fixed markup of the two templates, between their interpolated values.

  const TestHtmlHead: string :=
    "\n" +
    "        <div style=\"font-family: Arial, sans-serif; max-width: 600px; margin: 0 auto; padding: 20px;\">\n" +
    "          <h2 style=\"color: #333; text-align: center;\">\U{1F680} Test Email Successful!</h2>\n" +
    "          <p style=\"color: #666; line-height: 1.6;\">\n" +
    "            This is a test email sent from your Resend Email Demo application.\n" +
    "          </p>\n" +
    "          <div style=\"background-color: #f5f5f5; padding: 15px; border-radius: 8px; margin: 20px 0;\">\n" +
    "            <h3 style=\"color: #333; margin-top: 0;\">Email Details:</h3>\n" +
    "            <ul style=\"color: #666; line-height: 1.6;\">\n" +
    "              <li><strong>From:</strong> "

  const TestHtmlAfterFrom: string :=
    "</li>\n" +
    "              <li><strong>Sent at:</strong> "

  const TestHtmlAfterTime: string :=
    "</li>\n" +
    "              <li><strong>Message:</strong> "

  const TestHtmlTail: string :=
    "</li>\n" +
    "            </ul>\n" +
    "          </div>\n" +
    "          <p style=\"color: #666; line-height: 1.6;\">\n" +
    "            If you received this email, your Resend integration is working correctly! \U{1F389}\n" +
    "          </p>\n" +
    "          <hr style=\"border: none; border-top: 1px solid #eee; margin: 20px 0;\">\n" +
    "          <p style=\"color: #999; font-size: 12px; text-align: center;\">\n" +
    "            This email was sent via Resend Email Demo Application\n" +
    "          </p>\n" +
    "        </div>\n" +
    "      "

  const CustomHtmlHead: string :=
    "\n" +
    "        <div style=\"font-family: Arial, sans-serif; max-width: 600px; margin: 0 auto; padding: 20px;\">\n" +
    "          <h2 style=\"color: #333; text-align: center;\">\U{1F4E7} New Message</h2>\n" +
    "          <div style=\"background-color: #f9f9f9; padding: 20px; border-radius: 8px; margin: 20px 0;\">\n" +
    "            <p style=\"color: #333; line-height: 1.6; white-space: pre-wrap;\">"

  const CustomHtmlAfterMessage: string :=
    "</p>\n" +
    "          </div>\n" +
    "          <hr style=\"border: none; border-top: 1px solid #eee; margin: 20px 0;\">\n" +
    "          <p style=\"color: #999; font-size: 12px; text-align: center;\">\n" +
    "            Sent via Resend Email Demo Application on "

  const CustomHtmlTail: string :=
    "\n" +
    "          </p>\n" +
    "        </div>\n" +
    "      "

  /** `head + x + mid + y + tail`: a markup frame with two values inserted in order. */
  function Insert2(head: string, x: string, mid: string, y: string, tail: string): (r: string)
    ensures Contains(r, x) && Contains(r, y)
  {
    ContainsMiddle(head, x, mid + y + tail);
    ContainsMiddle(head + x + mid, y, tail);
    assert head + x + mid + y + tail == head + x + (mid + y + tail);
    head + x + mid + y + tail
  }

  /** `head + x + mid1 + y + mid2 + z + tail`: a markup frame with three values inserted in order. */
  function Insert3(head: string, x: string, mid1: string, y: string, mid2: string, z: string, tail: string): (r: string)
    ensures Contains(r, x) && Contains(r, y) && Contains(r, z)
  {
    var r := Insert2(head, x, mid1, y, mid2 + z + tail);
    ContainsMiddle(head + x + mid1 + y + mid2, z, tail);
    assert r == head + x + mid1 + y + mid2 + z + tail;
    r
  }

  /** The `test` template: fixed subject; sender name, time and message inserted into the markup as they are. */
  function TestTemplate(data: TemplateData, renderedAt: string): (t: Template)
    ensures t.subject == TestSubject
    ensures Contains(t.html, FirstTruthy([data.from], DefaultFromName))
    ensures Contains(t.html, FirstTruthy([data.message], DefaultTestMessage))
    ensures Contains(t.html, renderedAt)
  {
    var from := FirstTruthy([data.from], DefaultFromName);
    var message := FirstTruthy([data.message], DefaultTestMessage);
    Template(TestSubject, Insert3(TestHtmlHead, from, TestHtmlAfterFrom, renderedAt, TestHtmlAfterTime, message, TestHtmlTail))
  }

  /** The `custom` template: the given subject or a default; the message inserted into the markup as it is. */
  function CustomTemplate(data: TemplateData, renderedAt: string): (t: Template)
    ensures Truthy(data.subject) ==> t.subject == data.subject.value
    ensures !Truthy(data.subject) ==> t.subject == CustomDefaultSubject
    ensures Contains(t.html, FirstTruthy([data.message], DefaultCustomMessage))
    ensures Contains(t.html, renderedAt)
  {
    var message := FirstTruthy([data.message], DefaultCustomMessage);
    Template(FirstTruthy([data.subject], CustomDefaultSubject),
             Insert2(CustomHtmlHead, message, CustomHtmlAfterMessage, renderedAt, CustomHtmlTail))
  }

  /** The names an object literal inherits from `Object.prototype`. */
  const ObjectPrototypeMembers: set<string> := {
    "constructor", "hasOwnProperty", "isPrototypeOf", "propertyIsEnumerable",
    "toLocaleString", "toString", "valueOf", "__proto__",
    "__defineGetter__", "__defineSetter__", "__lookupGetter__", "__lookupSetter__"
  }

  /** What `templates[templateType] || templates.test` evaluates to. */
  datatype TemplateLookup = OwnTemplate(template: Template) | InheritedMember(name: string)

  /**
   * `getEmailTemplate` as written: the property lookup on the object literal
   * also finds the members inherited from `Object.prototype`, which are truthy,
   * so the fallback to `test` is not taken for them.
   */
  function GetEmailTemplateAsWritten(templateType: string, data: TemplateData, renderedAt: string): (r: TemplateLookup)
    ensures templateType == "custom" ==> r == OwnTemplate(CustomTemplate(data, renderedAt))
    ensures templateType in ObjectPrototypeMembers ==> r == InheritedMember(templateType)
    ensures templateType != "custom" && templateType !in ObjectPrototypeMembers ==> r == OwnTemplate(TestTemplate(data, renderedAt))
  {
    if templateType == "test" then OwnTemplate(TestTemplate(data, renderedAt))
    else if templateType == "custom" then OwnTemplate(CustomTemplate(data, renderedAt))
    else if templateType in ObjectPrototypeMembers then InheritedMember(templateType)
    else OwnTemplate(TestTemplate(data, renderedAt))
  }

  /** The type name "toString" yields an inherited method, not a template. */
  lemma AsWrittenLookupMissesFallback(data: TemplateData, renderedAt: string)
    ensures !GetEmailTemplateAsWritten("toString", data, renderedAt).OwnTemplate?
  {
  }

  /** `getEmailTemplate` with the fallback it is meant to have: every type but `custom` selects `test`. */
  function GetEmailTemplate(templateType: string, data: TemplateData, renderedAt: string): (t: Template)
    ensures templateType == "custom" ==> t == CustomTemplate(data, renderedAt)
    ensures templateType != "custom" ==> t == TestTemplate(data, renderedAt)
    ensures templateType != "custom" ==> t.subject == TestSubject
  {
    if templateType == "custom" then CustomTemplate(data, renderedAt) else TestTemplate(data, renderedAt)
  }

  /** The two lookups agree on every type name that is not an inherited member. */
  lemma GetEmailTemplateAgreesAsWritten(templateType: string, data: TemplateData, renderedAt: string)
    requires templateType !in ObjectPrototypeMembers
    ensures GetEmailTemplateAsWritten(templateType, data, renderedAt) == OwnTemplate(GetEmailTemplate(templateType, data, renderedAt))
  {
  }

  /** The sender name in the test body is inserted without escaping: markup in it reaches the HTML as it is. */
  lemma TestHtmlInsertsFromVerbatim(from: string, renderedAt: string)
    requires from != ""
    ensures Contains(GetEmailTemplate("test", TemplateData(Some(from), None, None), renderedAt).html, from)
  {
  }

  // ---------------------------------------------------------------------
  // Handlers
  // ---------------------------------------------------------------------

  /** The `from` address of every send: `FROM_EMAIL`, or `demo@resend.dev`. */
  function SenderAddress(env: Env): (a: string)
    ensures Truthy(env.fromEmail) ==> a == env.fromEmail.value
    ensures !Truthy(env.fromEmail) ==> a == DefaultSender
  {
    FirstTruthy([env.fromEmail], DefaultSender)
  }

  /** The `details` of a generic 500: the error's message in development, a fixed text otherwise. */
  function FailureDetails(message: Option<string>, env: Env): (d: Option<string>)
    ensures env.nodeEnv == Some("development") ==> d == message
    ensures env.nodeEnv != Some("development") ==> d == Some("Internal server error")
  {
    if env.nodeEnv == Some("development") then message else Some("Internal server error")
  }

  /** The `catch` block of `/send-test`: the provider's error message decides 401, 400 or 500. */
  function ClassifyTestFailure(message: Option<string>, env: Env): (r: Response)
    ensures r.status == 401 <==> message.Some? && Contains(message.value, "API key")
    ensures r.status == 400 <==> message.Some? && !Contains(message.value, "API key") && Contains(message.value, "domain")
    ensures r.status == 500 <==> !(message.Some? && (Contains(message.value, "API key") || Contains(message.value, "domain")))
    ensures r.status == 500 ==> r.body == ErrorBody("Failed to send email", FailureDetails(message, env), None, None)
    ensures r.body.ErrorBody? && r.body.error != "" && r.body.field.None? && r.body.required.None?
  {
    if message.Some? && Contains(message.value, "API key") then
      Response(401, ErrorBody("Invalid or missing Resend API key", Some("Please check your RESEND_API_KEY environment variable"), None, None))
    else if message.Some? && Contains(message.value, "domain") then
      Response(400, ErrorBody("Domain verification required", Some("Please verify your sending domain in Resend dashboard"), None, None))
    else
      Response(500, ErrorBody("Failed to send email", FailureDetails(message, env), None, None))
  }

  /** `POST /send-test`. */
  function SendTest(req: TestRequest, env: Env, outcome: ProviderOutcome, clock: Clock): (h: Handled)
    // the guard ladder, in its order
    ensures !Truthy(req.to) ==> h == Handled(None, Response(400, ErrorBody("Recipient email is required", None, Some("to"), None)))
    ensures Truthy(req.to) && !ValidateEmail(req.to.value) ==>
      h == Handled(None, Response(400, ErrorBody("Invalid recipient email format", None, Some("to"), None)))
    ensures Truthy(req.to) && ValidateEmail(req.to.value) && !Truthy(env.resendApiKey) ==>
      h == Handled(None, Response(500, ErrorBody("Resend API key not configured. Please set RESEND_API_KEY environment variable.", None, None, None)))
    // the provider is called exactly when every guard passes, and only for a well-formed address
    ensures h.call.Some? <==> Truthy(req.to) && ValidateEmail(req.to.value) && Truthy(env.resendApiKey)
    ensures h.call.Some? ==> h.call.value.to == [req.to.value] && WellFormedAddress(req.to.value)
    ensures h.call.Some? ==> h.call.value.from == SenderAddress(env)
    ensures h.call.Some? ==> h.call.value.subject == TestSubject
    // what the provider's answer turns into
    ensures h.call.Some? && outcome.Sent? ==>
      h.response == Response(200, TestSent("Test email sent successfully!", outcome.id, req.to.value, clock.sentAt))
    ensures h.call.Some? && outcome.Failed? ==> h.response == ClassifyTestFailure(outcome.message, env)
    ensures h.response.status in {200, 400, 401, 500}
    ensures h.response.status != 200 ==> h.response.body.ErrorBody? && h.response.body.error != ""
  {
    if !Truthy(req.to) then
      Handled(None, Response(400, ErrorBody("Recipient email is required", None, Some("to"), None)))
    else if !ValidateEmail(req.to.value) then
      Handled(None, Response(400, ErrorBody("Invalid recipient email format", None, Some("to"), None)))
    else if !Truthy(env.resendApiKey) then
      Handled(None, Response(500, ErrorBody("Resend API key not configured. Please set RESEND_API_KEY environment variable.", None, None, None)))
    else
      var template := GetEmailTemplate("test", TemplateData(req.from, req.message, None), clock.renderedAt);
      var call := ProviderRequest(SenderAddress(env), [req.to.value], template.subject, template.html);
      match outcome
      case Sent(id) =>
        Handled(Some(call), Response(200, TestSent("Test email sent successfully!", id, req.to.value, clock.sentAt)))
      case Failed(message) =>
        Handled(Some(call), ClassifyTestFailure(message, env))
  }

  /** `POST /send-custom`. */
  function SendCustom(req: CustomRequest, env: Env, outcome: ProviderOutcome, clock: Clock): (h: Handled)
    // the guard ladder, in its order
    ensures !Truthy(req.to) || !Truthy(req.subject) || !Truthy(req.message) ==>
      h == Handled(None, Response(400, ErrorBody("Missing required fields", None, None, Some(["to", "subject", "message"]))))
    ensures Truthy(req.to) && Truthy(req.subject) && Truthy(req.message) && !ValidateEmail(req.to.value) ==>
      h == Handled(None, Response(400, ErrorBody("Invalid recipient email format", None, Some("to"), None)))
    ensures Truthy(req.to) && Truthy(req.subject) && Truthy(req.message) && ValidateEmail(req.to.value) && !Truthy(env.resendApiKey) ==>
      h == Handled(None, Response(500, ErrorBody("Resend API key not configured", None, None, None)))
    // the provider is called exactly when every guard passes
    ensures h.call.Some? <==>
      Truthy(req.to) && Truthy(req.subject) && Truthy(req.message) && ValidateEmail(req.to.value) && Truthy(env.resendApiKey)
    ensures h.call.Some? ==> h.call.value.to == [req.to.value] && WellFormedAddress(req.to.value)
    ensures h.call.Some? ==> h.call.value.from == SenderAddress(env)
    ensures h.call.Some? ==> h.call.value.subject == req.subject.value
    // success echoes recipient and subject; every failure is a 500, whatever its message
    ensures h.call.Some? && outcome.Sent? ==>
      h.response == Response(200, CustomSent("Custom email sent successfully!", outcome.id, req.to.value, req.subject.value, clock.sentAt))
    ensures h.call.Some? && outcome.Failed? ==>
      h.response == Response(500, ErrorBody("Failed to send custom email", FailureDetails(outcome.message, env), None, None))
    ensures h.response.status in {200, 400, 500}
    ensures h.response.status != 200 ==> h.response.body.ErrorBody? && h.response.body.error != ""
  {
    if !Truthy(req.to) || !Truthy(req.subject) || !Truthy(req.message) then
      Handled(None, Response(400, ErrorBody("Missing required fields", None, None, Some(["to", "subject", "message"]))))
    else if !ValidateEmail(req.to.value) then
      Handled(None, Response(400, ErrorBody("Invalid recipient email format", None, Some("to"), None)))
    else if !Truthy(env.resendApiKey) then
      Handled(None, Response(500, ErrorBody("Resend API key not configured", None, None, None)))
    else
      var template := GetEmailTemplate("custom", TemplateData(req.from, req.message, req.subject), clock.renderedAt);
      var call := ProviderRequest(SenderAddress(env), [req.to.value], template.subject, template.html);
      match outcome
      case Sent(id) =>
        Handled(Some(call), Response(200, CustomSent("Custom email sent successfully!", id, req.to.value, req.subject.value, clock.sentAt)))
      case Failed(message) =>
        Handled(Some(call), Response(500, ErrorBody("Failed to send custom email", FailureDetails(message, env), None, None)))
  }

  /**
   * The HTML `POST /send-test` hands the provider is the test template's HTML
   * for the request's values and the render time, so the sender name, the
   * message and the time reach the provider as they are.
   */
  lemma TestRouteHtml(req: TestRequest, env: Env, outcome: ProviderOutcome, clock: Clock)
    requires SendTest(req, env, outcome, clock).call.Some?
    ensures var html := SendTest(req, env, outcome, clock).call.value.html;
      html == TestTemplate(TemplateData(req.from, req.message, None), clock.renderedAt).html
      && Contains(html, FirstTruthy([req.from], DefaultFromName))
      && Contains(html, FirstTruthy([req.message], DefaultTestMessage))
      && Contains(html, clock.renderedAt)
  {
    assert GetEmailTemplate("test", TemplateData(req.from, req.message, None), clock.renderedAt)
        == TestTemplate(TemplateData(req.from, req.message, None), clock.renderedAt);
  }

  /** The HTML `POST /send-custom` hands the provider is the custom template's HTML, holding the message and the time. */
  lemma CustomRouteHtml(req: CustomRequest, env: Env, outcome: ProviderOutcome, clock: Clock)
    requires SendCustom(req, env, outcome, clock).call.Some?
    ensures var html := SendCustom(req, env, outcome, clock).call.value.html;
      html == CustomTemplate(TemplateData(req.from, req.message, req.subject), clock.renderedAt).html
      && Contains(html, req.message.value)
      && Contains(html, clock.renderedAt)
  {
    assert GetEmailTemplate("custom", TemplateData(req.from, req.message, req.subject), clock.renderedAt)
        == CustomTemplate(TemplateData(req.from, req.message, req.subject), clock.renderedAt);
  }

  /** `GET /status/:emailId`: a fixed placeholder that echoes the id. */
  function GetStatus(emailId: string): (r: Response)
    ensures r.status == 200
    ensures r.body.StatusPending? && r.body.emailId == emailId
  {
    Response(200, StatusPending("Email status check not yet available in Resend API", emailId, "Check your Resend dashboard for delivery status"))
  }

  // ---------------------------------------------------------------------
  // Properties that relate several calls
  // ---------------------------------------------------------------------

  /** When both words occur in the provider's message, "API key" wins: 401, not 400. */
  lemma ApiKeyWinsOverDomain(message: string, env: Env)
    requires Contains(message, "API key") && Contains(message, "domain")
    ensures ClassifyTestFailure(Some(message), env).status == 401
  {
  }

  /** The two send routes reject an address of bad syntax with the same 400 reply, before the credential is looked at. */
  lemma SameSyntaxRejection(to: string, from: Option<string>, message: Option<string>, subject: string, body: string,
                            env: Env, outcome: ProviderOutcome, clock: Clock)
    requires to != "" && subject != "" && body != "" && !ValidateEmail(to)
    ensures SendTest(TestRequest(Some(to), from, message), env, outcome, clock).response
         == SendCustom(CustomRequest(Some(to), Some(subject), Some(body), from), env, outcome, clock).response
    ensures SendTest(TestRequest(Some(to), from, message), env, outcome, clock).response.status == 400
  {
  }

  /** On the test route, a provider failure whose message names the API key is answered 401. */
  lemma TestRouteApiKeyFailure(to: string, message: string, env: Env, clock: Clock)
    requires ValidateEmail(to) && Truthy(env.resendApiKey)
    requires Contains(message, "API key")
    ensures SendTest(TestRequest(Some(to), None, None), env, Failed(Some(message)), clock).response.status == 401
  {
    var t := SendTest(TestRequest(Some(to), None, None), env, Failed(Some(message)), clock);
    assert t.call.Some?;
    assert ClassifyTestFailure(Some(message), env).status == 401;
  }

  /** On the custom route, every provider failure is answered 500. */
  lemma CustomRouteFailure(to: string, subject: string, body: string, message: Option<string>, env: Env, clock: Clock)
    requires ValidateEmail(to) && subject != "" && body != "" && Truthy(env.resendApiKey)
    ensures SendCustom(CustomRequest(Some(to), Some(subject), Some(body), None), env, Failed(message), clock).response.status == 500
  {
    var c := SendCustom(CustomRequest(Some(to), Some(subject), Some(body), None), env, Failed(message), clock);
    assert c.call.Some?;
  }

  /** A provider failure with the same message: the test route classifies it, the custom route always answers 500. */
  lemma FailureClassificationDiffers(to: string, subject: string, body: string, message: string, env: Env, clock: Clock)
    requires ValidateEmail(to) && subject != "" && body != "" && Truthy(env.resendApiKey)
    requires Contains(message, "API key")
    ensures SendTest(TestRequest(Some(to), None, None), env, Failed(Some(message)), clock).response.status == 401
    ensures SendCustom(CustomRequest(Some(to), Some(subject), Some(body), None), env, Failed(Some(message)), clock).response.status == 500
  {
    TestRouteApiKeyFailure(to, message, env, clock);
    CustomRouteFailure(to, subject, body, Some(message), env, clock);
  }

  /** A recipient the test route accepts for sending is accepted by the custom route too, given the other fields. */
  lemma SendTestAndCustomAgreeOnRecipient(to: Option<string>, subject: string, body: string,
                                          env: Env, outcome: ProviderOutcome, clock: Clock)
    requires subject != "" && body != ""
    ensures SendTest(TestRequest(to, None, None), env, outcome, clock).call.Some?
        <==> SendCustom(CustomRequest(to, Some(subject), Some(body), None), env, outcome, clock).call.Some?
  {
  }
}
