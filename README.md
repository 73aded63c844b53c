# Resend email demo — a Dafny model of its request validation and response selection

The application lets a user submit a web form that sends a transactional email
through the Resend provider. The model covers three parts.

- **The server's email routes** (`backend/routes/email.js`). `POST /send-test`
  and `POST /send-custom` are early-return guard ladders: missing fields, then
  address syntax, then the API credential. After that comes one provider call,
  and its error is turned into an HTTP status. `GET /status/:emailId` returns a
  fixed placeholder. Each route is a pure function
  (`EmailRoutes.SendTest`, `EmailRoutes.SendCustom`, `EmailRoutes.GetStatus`).
  Its inputs are the request JSON, the process environment, the provider's
  answer and the two clock readings. Its result is the provider call made, if
  any, and the one response sent.
- **The form client** (`frontend/src/components/EmailForm.jsx`). Class
  `EmailForm.EmailForm` holds the component's state: `activeTab`, `isLoading`,
  `response`, `testForm` and `customForm`. The two forms are maps from input
  name to value, so `{...form, [name]: value}` is the map update
  `form[name := value]`. Each submission is split where the component awaits
  the HTTP call. `SendTestEmail` runs the client guards; when they pass, it
  sets `isLoading`, clears `response` and returns the request to post.
  `TestEmailSettled` is the continuation: it fills the response slot, resets
  the form on success and ends loading. The custom submission has the same
  pair of methods.
- **The API status indicator** (`frontend/src/components/ApiStatus.jsx`).
  `CheckApiStatus` maps one health check to `online` or `offline`.
  `GetStatusConfig` maps a status to its display. Class `StatusSlot` is the
  `apiStatus` state of `frontend/src/App.jsx`: it starts as `checking` and
  every health check overwrites it.

The address check `/^[^\s@]+@[^\s@]+\.[^\s@]+$/` appears twice with the same
literal: on the server (`backend/routes/email.js:10`) and in the client
(`frontend/src/components/EmailForm.jsx:41`). Module `EmailPattern` models it
once, and both sides use that one function. The module defines the pattern's
language as a predicate read off its four parts (`MatchesPattern`). It
recognises the same language with a deterministic automaton (`ValidateEmail`);
a JavaScript engine matches the pattern by backtracking, and only the accepted
language is the same. It proves the two equal, and proves both
equal to the characterisation "non-empty local part, exactly one `@`, a domain
with a `.` that is neither first nor last, no whitespace anywhere"
(`WellFormedAddress`). JavaScript's `\s` is written out as the ECMAScript
WhiteSpace and LineTerminator characters (`Js.IsJsWhitespace`).

Module `Js` holds the JavaScript semantics the code relies on:
- `undefined` as `None`;
- truthiness of strings (`""` is falsy);
- `a || b || fallback` chains (`FirstTruthy`);
- `String.prototype.includes` (`Contains`).

The test template inserts `from` and `message` into its HTML as they are, with
no escaping (`EmailRoutes.TestHtmlInsertsFromVerbatim`). The custom template
inserts `message` the same way. It ignores `from`, and `subject` becomes only
the email's subject.

Files: `js.dfy`, `email_pattern.dfy`, `email_routes.dfy`, `email_form.dfy`,
`api_status.dfy`.

## Model

| member | source | states |
|---|---|---|
| `Js.FirstTruthy` | frontend/src/components/EmailForm.jsx:87-88 | `a \|\| b \|\| fallback` gives the first truthy operand, or the fallback when every operand is `undefined` or `""`; the result is always one of those. |
| `Js.ContainsIff` | backend/routes/email.js:114-121 | `includes(t)` holds iff `t` occurs at some offset of `s` (the empty string occurs everywhere). |
| `EmailPattern.ValidateEmail` | backend/routes/email.js:9-12 | The check is true iff the address is in the language of `^[^\s@]+@[^\s@]+\.[^\s@]+$`, and iff it is a non-empty plain local part, one `@` and a plain domain with an inner `.`. The client's copy (frontend/src/components/EmailForm.jsx:40-43) is the same function. |
| `EmailPattern.RunIsExpected` | backend/routes/email.js:10 | After any prefix, the automaton is in the state that describes that prefix (start, local part, just after `@`, domain without or with a usable `.`, accepted, rejected). |
| `EmailPattern.ExpectedAcceptedIff` | backend/routes/email.js:10 | The accepting state is reached exactly on strings that split as `[^\s@]+` `@` `[^\s@]+` `.` `[^\s@]+`. |
| `EmailPattern.PatternIffWellFormed` | backend/routes/email.js:10 | The four-part split exists iff the string is local part + `@` + domain, where the local part is non-empty and plain and the domain is plain with a `.` at an index from 1 to length − 2. |
| `EmailPattern.AcceptedShape` | backend/routes/email.js:9-12 | An accepted address has exactly one `@` and no whitespace character anywhere. |
| `EmailPattern.AcceptedExamples` | backend/routes/email.js:10 | `a@b.c` and `a@b..c` are accepted. |
| `EmailPattern.RejectedExamples` | backend/routes/email.js:10 | `@b.c`, `a@.c`, `a@b.` and `a b@c.d` are rejected. |
| `EmailRoutes.TestTemplate` | backend/routes/email.js:17-42 | The test subject is always `Test Email from Resend Demo`. The body contains the sender name (or `Demo Application`), the rendering time and the message (or `Default test message`) as given. |
| `EmailRoutes.CustomTemplate` | backend/routes/email.js:43-57 | The subject is the given one, or `Message from Resend Demo` when it is empty. The body contains the message (or `No message provided`) and the time as given. |
| `EmailRoutes.GetEmailTemplateAsWritten` | backend/routes/email.js:60 | The lookup as written: `custom` selects the custom template; a name inherited from `Object.prototype` yields that member, not a template; every other name falls back to `test`. |
| `EmailRoutes.AsWrittenLookupMissesFallback` | backend/routes/email.js:60 | As written, the type name `toString` does not yield a template. |
| `EmailRoutes.GetEmailTemplate` | backend/routes/email.js:15-61 | The lookup as intended: `custom` selects the custom template; every other type name, known or not, selects the test template and its fixed subject. |
| `EmailRoutes.GetEmailTemplateAgreesAsWritten` | backend/routes/email.js:60 | The intended and the written lookup agree on every type name that is not an `Object.prototype` member. |
| `EmailRoutes.TestHtmlInsertsFromVerbatim` | backend/routes/email.js:28 | A non-empty sender name appears verbatim in the test body; it is not escaped. |
| `EmailRoutes.SenderAddress` | backend/routes/email.js:94 | The provider's `from` is `FROM_EMAIL` when it is set and non-empty, else `demo@resend.dev`. |
| `EmailRoutes.FailureDetails` | backend/routes/email.js:130 | A generic 500 carries the error's `message` as `details` when `NODE_ENV` is `development`, and `Internal server error` otherwise. |
| `EmailRoutes.ClassifyTestFailure` | backend/routes/email.js:113-131 | A provider error whose message contains `API key` gives 401. Otherwise one containing `domain` gives 400. Otherwise, including an absent message, it gives 500 `Failed to send email` with the environment-dependent details. Each is an error body with non-empty text. |
| `EmailRoutes.SendTest` | backend/routes/email.js:64-133 | Guards in order: empty `to` gives 400 field `to`; bad syntax gives 400 field `to`; missing key gives 500. The provider is called iff all three pass, and then only with one well-formed recipient, the configured sender and the test subject (its HTML is stated by `EmailRoutes.TestRouteHtml`). Success gives 200 echoing the provider's id and `to`; failure is classified. The status is one of 200/400/401/500. |
| `EmailRoutes.SendCustom` | backend/routes/email.js:136-191 | Any empty `to`, `subject` or `message` gives 400 `Missing required fields` with `required` = `[to, subject, message]`. This comes before syntax (400 field `to`) and credential (500). The provider is called iff all pass, with the given subject (its HTML is stated by `EmailRoutes.CustomRouteHtml`). Success echoes id, `to` and `subject`. Every provider failure gives 500, whatever its text. |
| `EmailRoutes.GetStatus` | backend/routes/email.js:194-204 | The status route always answers 200 with the placeholder body, echoing the id. |
| `EmailRoutes.ApiKeyWinsOverDomain` | backend/routes/email.js:114-126 | A message containing both `API key` and `domain` is classified 401. |
| `EmailRoutes.SameSyntaxRejection` | backend/routes/email.js:141-153 | Given the required fields, both send routes answer a badly formed address with the same 400 reply, whatever the environment or the provider. |
| `EmailRoutes.TestRouteHtml` | backend/routes/email.js:89-99 | Whenever `POST /send-test` calls the provider, the HTML it passes is the test template's HTML for the request's `from` and `message` and the render time. It contains the sender name (or `Demo Application`), the message (or `Default test message`) and the time, unescaped. |
| `EmailRoutes.CustomRouteHtml` | backend/routes/email.js:161-170 | Whenever `POST /send-custom` calls the provider, the HTML it passes is the custom template's HTML for the request. It contains the message and the time, unescaped. |
| `EmailRoutes.TestRouteApiKeyFailure` | backend/routes/email.js:110-119 | On the test route, once every guard has passed, a provider error whose message contains `API key` is answered 401. |
| `EmailRoutes.CustomRouteFailure` | backend/routes/email.js:183-190 | On the custom route, once every guard has passed, every provider error, with or without a message, is answered 500. |
| `EmailRoutes.FailureClassificationDiffers` | backend/routes/email.js:183-190 | The same `API key` provider error is 401 on the test route and 500 on the custom route. |
| `EmailRoutes.SendTestAndCustomAgreeOnRecipient` | backend/routes/email.js:69-87 | With subject and message present, the two routes call the provider for exactly the same recipients and environments. |
| `EmailForm.AxiosOutcome` | frontend/src/components/EmailForm.jsx:67-76 | A server reply with a 2xx status resolves with its body. Any other status rejects, carrying the status and the body's `error` and `details`. |
| `EmailForm.ErrorMessage` | frontend/src/components/EmailForm.jsx:87 | The error shown is the server's `error`, else the rejection's `message`, else `Failed to send email`; it is never empty. |
| `EmailForm.ErrorDetails` | frontend/src/components/EmailForm.jsx:88 | The details shown are the server's `details`, else `Please check your configuration`. |
| `EmailForm.ShownFailure` | frontend/src/components/EmailForm.jsx:90-97 | After a rejection, the response slot holds the chosen error and details, and the HTTP status exactly when there was a response. |
| `EmailForm.TestGuard` | frontend/src/components/EmailForm.jsx:48-61 | The submission goes ahead iff `to` is non-empty, valid and the API is `online`. Otherwise the first failing check, in that order, picks the toast. |
| `EmailForm.CustomGuard` | frontend/src/components/EmailForm.jsx:108-121 | Any empty required field is refused with `Please fill in all required fields`; this is checked before syntax and API status. The submission goes ahead iff all checks pass. |
| `EmailForm.SubmitDisabled` | frontend/src/components/EmailForm.jsx:229 | The submit button is enabled iff nothing is loading and the API status is `online`. |
| `EmailForm.EmptyTestForm` | frontend/src/components/EmailForm.jsx:13-17 | The initial and reset test form has exactly the fields `to`, `from` and `message`, all empty. |
| `EmailForm.EmptyCustomForm` | frontend/src/components/EmailForm.jsx:19-24 | The initial and reset custom form has exactly `to`, `subject`, `message` and `from`, all empty. |
| `EmailForm.TestPayload` | frontend/src/components/EmailForm.jsx:67-70 | The test post carries the form's `to`, `from` and `message`. |
| `EmailForm.CustomPayload` | frontend/src/components/EmailForm.jsx:127-132 | The custom post carries the form's `to`, `subject`, `message` and `from`. |
| `EmailForm.EmailForm.constructor` | frontend/src/components/EmailForm.jsx:6-24 | Initial state: tab `test`, not loading, no response, both forms empty. |
| `EmailForm.EmailForm.SelectTab` | frontend/src/components/EmailForm.jsx:172 | A tab button sets the active tab. |
| `EmailForm.EmailForm.HandleTestFormChange` | frontend/src/components/EmailForm.jsx:26-31 | Only the named field of the test form changes; its other fields and the custom form are unchanged. |
| `EmailForm.EmailForm.HandleCustomFormChange` | frontend/src/components/EmailForm.jsx:33-38 | Only the named field of the custom form changes; the rest is unchanged. |
| `EmailForm.EmailForm.SendTestEmail` | frontend/src/components/EmailForm.jsx:45-76 | A refused submission issues no request and leaves `isLoading`, `response` and both forms unchanged. An admitted one sets `isLoading`, clears `response` and posts the form's values. |
| `EmailForm.EmailForm.TestEmailSettled` | frontend/src/components/EmailForm.jsx:78-102 | On success it shows the server's data and resets the test form. On failure it shows the chosen error text and keeps the form. Either way `isLoading` ends false and the custom form is untouched. |
| `EmailForm.EmailForm.SendCustomEmail` | frontend/src/components/EmailForm.jsx:105-137 | The same as the test submission, for the custom form and its guards. |
| `EmailForm.EmailForm.CustomEmailSettled` | frontend/src/components/EmailForm.jsx:139-163 | The same as the test continuation, for the custom form. |
| `EmailForm.ClientAndServerAgreeOnSyntax` | frontend/src/components/EmailForm.jsx:40-43 | For a non-empty address, the client refuses it as invalid iff the server answers it with its 400 invalid-format reply. |
| `EmailForm.AdmittedTestReachesProvider` | frontend/src/components/EmailForm.jsx:48-70 | A test form the client admits is never refused by the server's field checks. The server calls the provider iff its key is configured. |
| `EmailForm.AdmittedCustomReachesProvider` | frontend/src/components/EmailForm.jsx:108-132 | A custom form the client admits never gets a 400 from the server. The provider is called iff the key is configured. |
| `EmailForm.TestErrorReachesForm` | frontend/src/components/EmailForm.jsx:87 | Every non-200 reply of the test route makes the call reject, and the form shows exactly the server's `error` text. |
| `EmailForm.TestSuccessReachesForm` | frontend/src/components/EmailForm.jsx:78 | A successful test send resolves the call with the provider's id and the recipient. |
| `EmailForm.EnabledButtonPassesStatusGuard` | frontend/src/components/EmailForm.jsx:229 | When the submit button is enabled, nothing is loading and the API-status guard cannot refuse. |
| `ApiStatus.CheckApiStatus` | frontend/src/components/ApiStatus.jsx:8-22 | A health response with status 200 reports `online`. Any other status, and any thrown error including the 5 s timeout, reports `offline`. `checking` is never reported. |
| `ApiStatus.GetStatusConfig` | frontend/src/components/ApiStatus.jsx:32-50 | `online` and `offline` get their class and fixed message. Every other value gets the `checking` display. The function is total. |
| `ApiStatus.CheckedStatusIsDisplayed` | frontend/src/components/ApiStatus.jsx:32-50 | After any health check, the display class equals the reported status and is never `checking`. |
| `ApiStatus.ConfigDeterminedByClass` | frontend/src/components/ApiStatus.jsx:32-50 | Two statuses with the same display class have the same display. |
| `ApiStatus.StatusSlot.constructor` | frontend/src/App.jsx:9 | The application's status starts as `checking`, which displays as checking. |
| `ApiStatus.StatusSlot.HealthCheckSettled` | frontend/src/components/ApiStatus.jsx:14-22 | Each settled health check overwrites the status with `online` or `offline`, so `checking` occurs only as the initial value. |

## Findings

| source | as written | input that shows it | evidently intended | confidence | as-written member | corrected member |
|---|---|---|---|---|---|---|
| backend/routes/email.js:60 | `templates[templateType] \|\| templates.test` looks the type name up on an object literal, which also finds the members inherited from `Object.prototype`; those are truthy, so the fallback is skipped | `getEmailTemplate('toString', data)` returns the inherited method, whose `subject` and `html` are undefined | every type name other than `custom` falls back to the `test` template | not executed; both call sites pass the literals `test` and `custom`, so the routes never reach it | `EmailRoutes.GetEmailTemplateAsWritten`, `EmailRoutes.AsWrittenLookupMissesFallback` | `EmailRoutes.GetEmailTemplate` |

## Left out

- The Resend SDK call `resend.emails.send` is a foreign call. Its answer is the parameter `ProviderOutcome` (a message id, or an error with an optional message). The model records the request passed to it.
- Express routing, `res.status().json`, axios transport and async scheduling are foreign libraries. Each route is a function to one response, and each client submission is two methods split at the `await`.
- The health-check polling lifecycle (`setInterval` every 30 s and `clearInterval` on unmount) is timer behaviour. Only the status one check yields is modelled.
- `new Date().toLocaleString()` and `toISOString()` are clock readings. They are passed in as opaque strings (`EmailRoutes.Clock`).
- `process.env` and `import.meta.env` are environment reads. `RESEND_API_KEY`, `FROM_EMAIL` and `NODE_ENV` are the parameter `EmailRoutes.Env`; the client's base URL is not modelled.
- Toast presentation, `console.log`/`console.error` and JSX rendering are side effects. Toast texts are returned as values; the rest is left out.
- Request values that are not strings (a numeric `to`, say) and non-string `error.message` values are left out. Fields are `Option<string>`, with `None` standing for `undefined`.
- The `catch` block of `GET /status/:emailId` (backend/routes/email.js:206-212) is left out: nothing in its `try` block can throw.
- `EmailForm.AxiosOutcome`: this is axios's default `validateStatus`. The text of axios's own error `message` is left as a parameter.
- The provider's answer is assumed to be the shape the routes read. `resend.emails.send` either resolves with an object carrying `id` or throws (`Sent` / `Failed`). An SDK that resolves with `{ data, error }` on failure would never reach the `catch` blocks, and that case is not modelled.
- Strings are Dafny strings, which hold Unicode scalar values, while JavaScript strings are UTF-16 code units. A string with a lone surrogate cannot be represented. On well-formed strings the pattern's language is the same.
- `Js.IsJsWhitespace`: the Unicode space separators are those of current Unicode versions. A later Unicode version that adds one is not covered.
- `ApiStatus.CheckApiStatus`: a resolved health response is taken to be any status. Under axios only 2xx statuses resolve, and 200 is the only one reported `online`.
- The browser's own form validation is left out. The inputs carry `type="email"` and `required` (frontend/src/components/EmailForm.jsx:190, 196, 241, 247, 261, 287), so a browser may refuse a form before the submit handler runs: an empty `to`, for example, or `a@b..c`, which `ValidateEmail` accepts. The model covers the submit handlers' guards, and `EmailForm.ClientAndServerAgreeOnSyntax` relates the handler's check, not the browser's, to the server.
- `Header.jsx` and `Footer.jsx` are static markup, and the rest of `App.jsx` is wiring. They are not part of this model.
