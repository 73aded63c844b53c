/**
 * The form client: the state of the email form component, its field
 * handlers, and its two submissions. A submission is split where the
 * component awaits the HTTP call: `SendTestEmail` runs the guards and, when
 * they pass, marks the form as loading and yields the request to issue;
 * `TestEmailSettled` is the continuation that runs when the call settles.
 */
module EmailForm {
  import opened Js
  import EmailPattern
  import opened EmailRoutes

  // ---------------------------------------------------------------------
  // The HTTP call as the client sees it
  // ---------------------------------------------------------------------

  /** The server response axios attaches to a rejection: its status and the `error` and `details` of its JSON body. */
  datatype ErrorReply = ErrorReply(status: int, error: Option<string>, details: Option<string>)

  /**
   * A rejected call: with the server's response (a status outside 2xx) or
   * without one (network failure, the 10-second timeout), and the error's own `message`.
   */
  datatype RequestError = RequestError(response: Option<ErrorReply>, message: Option<string>)

  /** How a POST settles: resolved with the response body, or rejected. */
  datatype HttpOutcome = Delivered(data: Body) | Rejected(error: RequestError)

  /** How axios settles a POST that the server answered with `r`: statuses in 2xx resolve, every other status rejects. */
  function AxiosOutcome(r: Response, message: string): (o: HttpOutcome)
    ensures 200 <= r.status < 300 <==> o.Delivered?
    ensures o.Delivered? ==> o.data == r.body
    ensures o.Rejected? ==> o.error.response.Some? && o.error.response.value.status == r.status
    ensures o.Rejected? && r.body.ErrorBody? ==>
      o.error.response.value.error == Some(r.body.error) && o.error.response.value.details == r.body.details
  {
    if 200 <= r.status < 300 then Delivered(r.body)
    else if r.body.ErrorBody? then Rejected(RequestError(Some(ErrorReply(r.status, Some(r.body.error), r.body.details)), Some(message)))
    else Rejected(RequestError(Some(ErrorReply(r.status, None, None)), Some(message)))
  }

  /** `error.response?.data?.error`. */
  function ServerError(e: RequestError): Option<string> {
    if e.response.Some? then e.response.value.error else None
  }

  /** `error.response?.data?.details`. */
  function ServerDetails(e: RequestError): Option<string> {
    if e.response.Some? then e.response.value.details else None
  }

  /** The error text shown: the server's `error`, else the error's `message`, else a fixed text. */
  function ErrorMessage(e: RequestError): (m: string)
    ensures m != ""
    ensures Truthy(ServerError(e)) ==> m == ServerError(e).value
    ensures !Truthy(ServerError(e)) && Truthy(e.message) ==> m == e.message.value
    ensures !Truthy(ServerError(e)) && !Truthy(e.message) ==> m == "Failed to send email"
  {
    var chain := [ServerError(e), e.message];
    assert chain[0] == ServerError(e) && chain[1] == e.message;
    FirstTruthy(chain, "Failed to send email")
  }

  /** The details shown: the server's `details`, else a fixed text. */
  function ErrorDetails(e: RequestError): (d: string)
    ensures d != ""
    ensures Truthy(ServerDetails(e)) ==> d == ServerDetails(e).value
    ensures !Truthy(ServerDetails(e)) ==> d == "Please check your configuration"
  {
    FirstTruthy([ServerDetails(e)], "Please check your configuration")
  }

  /** What the response slot shows. */
  datatype Shown = SuccessShown(data: Body) | ErrorShown(error: string, details: string, status: Option<int>)

  /** The response slot after a rejection. */
  function ShownFailure(e: RequestError): (s: Shown)
    ensures s.ErrorShown? && s.error == ErrorMessage(e) && s.details == ErrorDetails(e)
    ensures s.status.Some? <==> e.response.Some?
    ensures e.response.Some? ==> s.status == Some(e.response.value.status)
  {
    ErrorShown(ErrorMessage(e), ErrorDetails(e), if e.response.Some? then Some(e.response.value.status) else None)
  }

  /** A toast notification. */
  datatype Toast = ToastSuccess(text: string) | ToastError(text: string)

  // ---------------------------------------------------------------------
  // Guards
  // ---------------------------------------------------------------------

  const ApiUnavailable: string := "API is not available. Please check if the backend is running."
  const InvalidAddress: string := "Please enter a valid email address"

  /** The guards of `sendTestEmail`: the error toast that stops the submission, or `None` when it goes ahead. */
  function TestGuard(to: string, apiStatus: string): (refusal: Option<string>)
    ensures refusal.None? <==> to != "" && EmailPattern.ValidateEmail(to) && apiStatus == "online"
    ensures to == "" ==> refusal == Some("Please enter recipient email address")
    ensures to != "" && !EmailPattern.ValidateEmail(to) ==> refusal == Some(InvalidAddress)
    ensures to != "" && EmailPattern.ValidateEmail(to) && apiStatus != "online" ==> refusal == Some(ApiUnavailable)
  {
    if to == "" then Some("Please enter recipient email address")
    else if !EmailPattern.ValidateEmail(to) then Some(InvalidAddress)
    else if apiStatus != "online" then Some(ApiUnavailable)
    else None
  }

  /** The guards of `sendCustomEmail`: all three required fields first, then syntax, then the API status. */
  function CustomGuard(to: string, subject: string, message: string, apiStatus: string): (refusal: Option<string>)
    ensures refusal.None? <==> to != "" && subject != "" && message != "" && EmailPattern.ValidateEmail(to) && apiStatus == "online"
    ensures to == "" || subject == "" || message == "" ==> refusal == Some("Please fill in all required fields")
    ensures to != "" && subject != "" && message != "" && !EmailPattern.ValidateEmail(to) ==> refusal == Some(InvalidAddress)
    ensures to != "" && subject != "" && message != "" && EmailPattern.ValidateEmail(to) && apiStatus != "online" ==> refusal == Some(ApiUnavailable)
  {
    if to == "" || subject == "" || message == "" then Some("Please fill in all required fields")
    else if !EmailPattern.ValidateEmail(to) then Some(InvalidAddress)
    else if apiStatus != "online" then Some(ApiUnavailable)
    else None
  }

  /** The submit buttons' `disabled` attribute. */
  function SubmitDisabled(isLoading: bool, apiStatus: string): (d: bool)
    ensures !d <==> !isLoading && apiStatus == "online"
  {
    isLoading || apiStatus != "online"
  }

  // ---------------------------------------------------------------------
  // The component's state
  // ---------------------------------------------------------------------

  const TestFields: set<string> := {"to", "from", "message"}
  const CustomFields: set<string> := {"to", "subject", "message", "from"}

  /** The test form as first rendered and after a successful send. */
  function EmptyTestForm(): (f: map<string, string>)
    ensures f.Keys == TestFields && forall k :: k in f ==> f[k] == ""
  {
    map["to" := "", "from" := "", "message" := ""]
  }

  /** The custom form as first rendered and after a successful send. */
  function EmptyCustomForm(): (f: map<string, string>)
    ensures f.Keys == CustomFields && forall k :: k in f ==> f[k] == ""
  {
    map["to" := "", "subject" := "", "message" := "", "from" := ""]
  }

  /** The request body `sendTestEmail` posts for the form `f`. */
  function TestPayload(f: map<string, string>): (r: TestRequest)
    requires TestFields <= f.Keys
    ensures r.to == Some(f["to"]) && r.from == Some(f["from"]) && r.message == Some(f["message"])
  {
    TestRequest(Some(f["to"]), Some(f["from"]), Some(f["message"]))
  }

  /** The request body `sendCustomEmail` posts for the form `f`. */
  function CustomPayload(f: map<string, string>): (r: CustomRequest)
    requires CustomFields <= f.Keys
    ensures r.to == Some(f["to"]) && r.subject == Some(f["subject"]) && r.message == Some(f["message"]) && r.from == Some(f["from"])
  {
    CustomRequest(Some(f["to"]), Some(f["subject"]), Some(f["message"]), Some(f["from"]))
  }

  class EmailForm {
    var activeTab: string
    var isLoading: bool
    var response: Option<Shown>
    var testForm: map<string, string>
    var customForm: map<string, string>

    /** Both forms hold at least the fields their inputs are named after. */
    ghost predicate Valid()
      reads this
    {
      TestFields <= testForm.Keys && CustomFields <= customForm.Keys
    }

    constructor ()
      ensures Valid()
      ensures activeTab == "test" && !isLoading && response == None
      ensures testForm == EmptyTestForm() && customForm == EmptyCustomForm()
    {
      activeTab := "test";
      isLoading := false;
      response := None;
      testForm := EmptyTestForm();
      customForm := EmptyCustomForm();
    }

    /** The tab buttons. */
    method SelectTab(tab: string)
      modifies this`activeTab
      ensures activeTab == tab
    {
      activeTab := tab;
    }

    /** `handleTestFormChange`: the input named `name` now holds `value`; nothing else changes. */
    method HandleTestFormChange(name: string, value: string)
      requires Valid()
      modifies this`testForm
      ensures Valid()
      ensures testForm == old(testForm)[name := value]
      ensures forall k :: k in old(testForm) && k != name ==> k in testForm && testForm[k] == old(testForm)[k]
    {
      testForm := testForm[name := value];
    }

    /** `handleCustomFormChange`: the input named `name` now holds `value`; nothing else changes. */
    method HandleCustomFormChange(name: string, value: string)
      requires Valid()
      modifies this`customForm
      ensures Valid()
      ensures customForm == old(customForm)[name := value]
      ensures forall k :: k in old(customForm) && k != name ==> k in customForm && customForm[k] == old(customForm)[k]
    {
      customForm := customForm[name := value];
    }

    /**
     * `sendTestEmail` up to the HTTP call. A refused submission changes
     * nothing and issues nothing; otherwise the form is marked loading, the
     * response slot cleared, and the request to post is returned.
     */
    method SendTestEmail(apiStatus: string) returns (refusal: Option<string>, request: Option<TestRequest>)
      requires Valid()
      modifies this`isLoading, this`response
      ensures Valid()
      ensures refusal == TestGuard(testForm["to"], apiStatus)
      ensures refusal.Some? ==> request.None? && isLoading == old(isLoading) && response == old(response)
      ensures refusal.None? ==> request == Some(TestPayload(testForm)) && isLoading && response.None?
    {
      refusal := TestGuard(testForm["to"], apiStatus);
      if refusal.Some? {
        request := None;
        return;
      }
      isLoading := true;
      response := None;
      request := Some(TestPayload(testForm));
    }

    /**
     * The rest of `sendTestEmail`, once the call settles: on success the
     * test form is reset, on failure it keeps its values and the error is
     * shown; either way loading ends.
     */
    method TestEmailSettled(outcome: HttpOutcome) returns (toast: Toast)
      requires Valid()
      modifies this`isLoading, this`response, this`testForm
      ensures Valid() && !isLoading
      ensures outcome.Delivered? ==>
        response == Some(SuccessShown(outcome.data)) && testForm == EmptyTestForm()
        && toast == ToastSuccess("Test email sent successfully! \U{1F389}")
      ensures outcome.Rejected? ==>
        response == Some(ShownFailure(outcome.error)) && testForm == old(testForm)
        && toast == ToastError("Failed to send email: " + ErrorMessage(outcome.error))
    {
      match outcome {
        case Delivered(data) =>
          response := Some(SuccessShown(data));
          toast := ToastSuccess("Test email sent successfully! \U{1F389}");
          testForm := EmptyTestForm();
        case Rejected(error) =>
          response := Some(ShownFailure(error));
          toast := ToastError("Failed to send email: " + ErrorMessage(error));
      }
      isLoading := false;
    }

    /** `sendCustomEmail` up to the HTTP call. */
    method SendCustomEmail(apiStatus: string) returns (refusal: Option<string>, request: Option<CustomRequest>)
      requires Valid()
      modifies this`isLoading, this`response
      ensures Valid()
      ensures refusal == CustomGuard(customForm["to"], customForm["subject"], customForm["message"], apiStatus)
      ensures refusal.Some? ==> request.None? && isLoading == old(isLoading) && response == old(response)
      ensures refusal.None? ==> request == Some(CustomPayload(customForm)) && isLoading && response.None?
    {
      refusal := CustomGuard(customForm["to"], customForm["subject"], customForm["message"], apiStatus);
      if refusal.Some? {
        request := None;
        return;
      }
      isLoading := true;
      response := None;
      request := Some(CustomPayload(customForm));
    }

    /** The rest of `sendCustomEmail`, once the call settles. */
    method CustomEmailSettled(outcome: HttpOutcome) returns (toast: Toast)
      requires Valid()
      modifies this`isLoading, this`response, this`customForm
      ensures Valid() && !isLoading
      ensures outcome.Delivered? ==>
        response == Some(SuccessShown(outcome.data)) && customForm == EmptyCustomForm()
        && toast == ToastSuccess("Custom email sent successfully! \U{1F389}")
      ensures outcome.Rejected? ==>
        response == Some(ShownFailure(outcome.error)) && customForm == old(customForm)
        && toast == ToastError("Failed to send email: " + ErrorMessage(outcome.error))
    {
      match outcome {
        case Delivered(data) =>
          response := Some(SuccessShown(data));
          toast := ToastSuccess("Custom email sent successfully! \U{1F389}");
          customForm := EmptyCustomForm();
        case Rejected(error) =>
          response := Some(ShownFailure(error));
          toast := ToastError("Failed to send email: " + ErrorMessage(error));
      }
      isLoading := false;
    }
  }

  // ---------------------------------------------------------------------
  // How the client and the server fit together
  // ---------------------------------------------------------------------

  /** The client's syntax guard and the server's agree: the client refuses an address as invalid iff the server does. */
  lemma ClientAndServerAgreeOnSyntax(to: string, from: string, message: string, apiStatus: string,
                                     env: Env, outcome: ProviderOutcome, clock: Clock)
    requires to != ""
    ensures TestGuard(to, apiStatus) == Some(InvalidAddress)
        <==> SendTest(TestRequest(Some(to), Some(from), Some(message)), env, outcome, clock).response
             == Response(400, ErrorBody("Invalid recipient email format", None, Some("to"), None))
  {
  }

  /**
   * A test submission the client lets through is never refused by the
   * server's input checks: the server calls the provider whenever its
   * credential is set.
   */
  lemma AdmittedTestReachesProvider(f: map<string, string>, env: Env, outcome: ProviderOutcome, clock: Clock)
    requires TestFields <= f.Keys
    requires TestGuard(f["to"], "online").None?
    ensures SendTest(TestPayload(f), env, outcome, clock).call.Some? <==> Truthy(env.resendApiKey)
    ensures SendTest(TestPayload(f), env, outcome, clock).response.body.ErrorBody? ==>
            SendTest(TestPayload(f), env, outcome, clock).response.body.field.None?
  {
  }

  /** The same for a custom submission: the client's required-field and syntax checks cover the server's. */
  lemma AdmittedCustomReachesProvider(f: map<string, string>, env: Env, outcome: ProviderOutcome, clock: Clock)
    requires CustomFields <= f.Keys
    requires CustomGuard(f["to"], f["subject"], f["message"], "online").None?
    ensures SendCustom(CustomPayload(f), env, outcome, clock).call.Some? <==> Truthy(env.resendApiKey)
    ensures SendCustom(CustomPayload(f), env, outcome, clock).response.status != 400
  {
  }

  /** Every error the test route replies with reaches the form as its own `error` text. */
  lemma TestErrorReachesForm(req: TestRequest, env: Env, outcome: ProviderOutcome, clock: Clock, axiosMessage: string)
    requires SendTest(req, env, outcome, clock).response.status != 200
    ensures AxiosOutcome(SendTest(req, env, outcome, clock).response, axiosMessage).Rejected?
    ensures ErrorMessage(AxiosOutcome(SendTest(req, env, outcome, clock).response, axiosMessage).error)
         == SendTest(req, env, outcome, clock).response.body.error
  {
    var r := SendTest(req, env, outcome, clock).response;
    var e := AxiosOutcome(r, axiosMessage).error;
    assert ServerError(e) == Some(r.body.error);
  }

  /** A successful test send reaches the form's response slot with the provider's id and the recipient. */
  lemma TestSuccessReachesForm(req: TestRequest, env: Env, id: string, clock: Clock, axiosMessage: string)
    requires SendTest(req, env, Sent(id), clock).call.Some?
    ensures AxiosOutcome(SendTest(req, env, Sent(id), clock).response, axiosMessage)
         == Delivered(TestSent("Test email sent successfully!", id, req.to.value, clock.sentAt))
  {
  }

  /** An enabled submit button means the API-status guard will pass. */
  lemma EnabledButtonPassesStatusGuard(isLoading: bool, apiStatus: string, to: string)
    requires !SubmitDisabled(isLoading, apiStatus)
    ensures TestGuard(to, apiStatus) != Some(ApiUnavailable)
    ensures !isLoading
  {
  }
}
