# Water-quality report mail: a Dafny model

This project models the callable Cloud Function `sendWaterQualityEmail` of
the water-quality reporting app (`functions/src/index.ts`). An
authenticated user asks it to send one daily inspection report by mail.
The report holds the sampling point, the date, the measurement time and
the residual chlorine reading. The function sends the mail as that user,
through Gmail, with the user's own OAuth2 access token.

The function runs four steps, and the model follows them:

1. **Guards** (`Dispatch.Guards`). The caller must be authenticated, then
   the five required parameters must be truthy, then the caller's token
   must carry an email.
2. **Composition** (`Report.Subject`, `Report.Body`, `Dispatch.Compose`).
   The subject and the plain-text body are exact strings built from the
   request. The sampling point defaults to `"01"`. A test send (`debugMode`)
   gets a subject marker and a trailing notice.
3. **Send.** One `sendMail` call. The transport's answer is a parameter
   (`SendOutcome`): a message id, or a thrown error.
4. **Classification** (`Errors.Classify`). The outer `catch` maps every
   caught value that has a string message to one outward `HttpsError`. A
   401 wins, then a 403, then "quota" in the message, and anything else is
   `internal`.

A caught value is modelled as `Errors.Thrown`, which has three parts: a
numeric `code` if there is one, a numeric `status` if there is one, and
a message. An `HttpsError` has a string code, so it never matches 401 or
403 on `code`. Whether the hosting platform gives it a numeric `status`
cannot be seen in this file. The handler therefore takes that as a
parameter, `statusOf`.

`Dispatch.Handle` returns a `Run`. A `Run` lists the send calls made and
gives the outward response. This lets the contracts say which paths send
a mail and which never do.

Each composed string has an inverse parser, the quota test has a
declarative definition, and the as-written handler has a corrected
counterpart:
- `Report.ParseSubject` and `Report.ParseBody` read the fields back out of
  a subject or body, on top of the line splitter `Strings.Split`.
- `Strings.Occurs` defines "contains as a substring" declaratively.
- `Dispatch.HandleIntended` is the handler with the two findings below
  corrected.

All functions are pure, so composing twice from the same inputs gives
the same mail.

## Behaviour notes

- The request has no subject field. The subject is always the report
  title with the sampling point.
- The classifier has no 429 branch. Only "quota" in the message gives
  `resource-exhausted`.
- The function hands subject and text to nodemailer, and nodemailer does
  the MIME encoding.
- The sender-email check runs after the parameter check.
- The errors thrown by the checks do not reach the caller as thrown. See
  Findings.

## Model

| member | source | states |
|---|---|---|
| Strings.Includes | functions/src/index.ts:197 | `message.includes("quota")` is true exactly when "quota" occurs as a substring at some index |
| Errors.Classify | functions/src/index.ts:186-207 | a 401 in code or status gives unauthenticated; otherwise a 403 gives permission-denied; otherwise "quota" in the message gives resource-exhausted; otherwise internal with the message after the failure prefix. Each kind carries its own fixed message (lines 190, 195 and 200). Every caught value with a string message gets exactly one of these four kinds, and never invalid-argument |
| Errors.WrapSendError | functions/src/index.ts:114-130 | a send error is rethrown as internal with its message after the failure prefix; the wrapped message contains "quota" exactly when the send error's message does |
| Errors.WrapDropsCodeAndStatus | functions/src/index.ts:126-129 | the wrapper keeps only the send error's message: two send errors with the same message and any codes or statuses wrap to the same error |
| Errors.AsThrown | functions/src/index.ts:187-192 | an HttpsError seen by the outer catch matches a numeric test `=== n` exactly when the platform exposes status n; its string code never matches; its message is kept |
| Errors.QuotaSeenThroughPrefix | functions/src/index.ts:126-129 | the failure prefix neither adds nor hides an occurrence of "quota" |
| Errors.ClassifyWrappedSendError | functions/src/index.ts:126-207 | after wrapping and outer classification, a send failure is resource-exhausted if and only if its message contains "quota"; otherwise it is internal with the prefix applied twice, unless the platform gives the wrapper a 401 or 403 status |
| Errors.GuardMessagesHaveNoQuota | functions/src/index.ts:21-56 | none of the three guard messages contains "quota" |
| Report.LocationOrDefault | functions/src/index.ts:66-70 | the location is `locationNumber` when it is truthy and "01" otherwise, so it is never empty |
| Report.Subject | functions/src/index.ts:65-67 | the subject starts with the test marker if and only if debugMode is set, and it ends with the title, the defaulted location and an ASCII ")" |
| Report.Body | functions/src/index.ts:69-78 | the body starts with the location line for the defaulted location; a test send ends with the test notice; otherwise the body ends with the chlorine line |
| Report.SubjectRoundTrip | functions/src/index.ts:65-67 | reading a subject back gives exactly the defaulted location and the test flag, for any location string |
| Report.SubjectDeterminesLocationAndMode | functions/src/index.ts:65-67 | two equal subjects have the same defaulted location and the same test flag |
| Report.BodyRoundTrip | functions/src/index.ts:69-78 | when no field contains a newline, reading a body back gives the four fields in order and the test flag, so the notice is present if and only if debugMode is set |
| Dispatch.Guards | functions/src/index.ts:20-56 | with no auth context the result is unauthenticated, whatever the payload; otherwise a falsy required parameter gives invalid-argument; otherwise a token without email gives unauthenticated. The request passes exactly when all three checks hold, and then carries the caller's email and the request's fields |
| Dispatch.Compose | functions/src/index.ts:80-105 | the transport is Gmail over OAuth2, authenticated as the caller's email with the caller's token; the mail goes from the caller to the recipient; its subject reads back as the defaulted location and the test flag; its text is the report body |
| Dispatch.Handle | functions/src/index.ts:9-208 | at most one send call is made, and only when every guard passes; the call is the composed one; the response is success exactly when the guards pass and the mail is delivered, and then it carries the transport's message id; the caller never receives invalid-argument |
| Dispatch.Attempt | functions/src/index.ts:11-137 | the `try` block: a failed check throws that check's error with no send call; otherwise it makes exactly the composed call, returns success with the message id on delivery, and throws the wrapped send error on failure |
| Dispatch.AnonymousCallerNeverSends | functions/src/index.ts:20-27 | with no auth context the `try` block throws unauthenticated at line 23 before any parameter check, whatever the payload, and the handler makes no send call |
| Dispatch.IncompleteRequestNeverSends | functions/src/index.ts:40-56 | with a missing required parameter the `try` block throws invalid-argument at line 42; with all parameters present but no sender email it throws unauthenticated at line 52. In neither case does the handler make a send call |
| Dispatch.GuardsPassedSendsOnce | functions/src/index.ts:82-137 | when the guards pass, exactly one mail is sent, with the caller's email and token, the recipient, the subject and the body; on delivery the response is success with the message id |
| Dispatch.ReportScenario | functions/src/index.ts:29-137 | a complete request for point 03 sends one mail from sender@example.com to ops@example.com using token tok123; its subject and body read back as that report, and the response carries the message id |
| Dispatch.OutcomeIrrelevantWithoutSend | functions/src/index.ts:20-56 | when a guard fails, the transport's outcome has no effect on the result |
| Dispatch.SendFailureOutcome | functions/src/index.ts:114-207 | a failed send makes one call; the caller gets resource-exhausted if and only if the send error's message contains "quota", and otherwise internal with a doubly prefixed message, unless the platform gives the wrapper a 401 or 403 status |
| Dispatch.GuardErrorReachesCallerAsInternal | functions/src/index.ts:138-207 | a guard's HttpsError reaches the caller as internal, with the failure prefix before the guard's message, unless the platform gives it a 401 or 403 status |
| Dispatch.AnonymousCallerExample | functions/src/index.ts:21-27 | on a platform without numeric statuses, an anonymous caller receives internal instead of unauthenticated |
| Dispatch.MissingChlorineExample | functions/src/index.ts:40-46 | on a platform without numeric statuses, a request without chlorine receives internal instead of invalid-argument |
| Dispatch.SendFailureExample | functions/src/index.ts:126-129 | a transport error with code 401 reaches the caller as internal with a doubly prefixed message |
| Dispatch.HandleIntended | functions/src/index.ts:138-207 | the corrected handler: each guard error reaches the caller unchanged with no send call; a send failure is classified from the transport's own error; success happens exactly when the guards pass and the mail is delivered, and then carries status "success", the sent message and the message id |
| Dispatch.IntendedGuardErrorsSurface | functions/src/index.ts:20-56 | in the corrected handler, an anonymous caller gets unauthenticated, a missing parameter gets invalid-argument, and a token without email gets unauthenticated |
| Dispatch.IntendedSendFailure | functions/src/index.ts:187-207 | in the corrected handler, a transport 401 gives unauthenticated, a 403 gives permission-denied, and an internal error has the prefix applied only once |

## Left out

- Logging (`functions.logger`) and the error-dumping code in the outer catch
  (functions/src/index.ts:13-18, 58-62, 91-95, 107-124, 140-184). They are
  side effects that do not change any result.
- nodemailer and Gmail internals: SMTP, OAuth2 token exchange, and MIME and
  wire encoding. The model records the arguments passed to
  `createTransport` and `sendMail`, and an abstract outcome.
- Other values thrown inside the `try`, for example by `createTransport`.
  The model treats the transport's answer as the only external failure.
  `Errors.Classify` is total over every caught value with a string message.
- Errors.Classify: caught values without a string `message` (for example
  `throw "x"`) are not modelled. For them `error.message.includes("quota")`
  throws a TypeError that escapes the catch; `Thrown.message` is always a string.
- The timestamps (functions/src/index.ts:17, 136), because they depend on
  the clock. The success response omits its `timestamp`.
- The `healthCheck` HTTP function (functions/src/index.ts:212-219). It is a
  constant plus a timestamp.
- Firebase Admin initialisation (functions/src/index.ts:6), which is
  platform wiring.
- `context.auth.uid`, which is only logged.
- Request fields that are not strings. JSON numbers or booleans have their
  own JavaScript truthiness. Each field is modelled as an optional string,
  where absent or empty means falsy. `debugMode` is modelled as a boolean.
- The icon and store-graphics Python scripts and the Android `MainActivity`.
  They are image drawing with floating-point geometry and window
  configuration, with no part in sending a report.

## Findings

| source | as written | input that shows it | evidently intended | confidence | as-written member | corrected member |
|---|---|---|---|---|---|---|
| functions/src/index.ts:138-207 | the guard errors thrown at lines 23, 42 and 52 are inside the outer `try`; the outer `catch` compares their string code with 401 and 403 and rethrows them as internal with the send-failure prefix | no auth context, or a request without `chlorine`, on a platform whose HttpsError has no numeric `status` | the guard's own unauthenticated or invalid-argument error reaches the caller | not executed; medium (rests on HttpsError exposing no numeric `status`) | Dispatch.GuardErrorReachesCallerAsInternal | Dispatch.IntendedGuardErrorsSurface |
| functions/src/index.ts:126-129 | a send error is wrapped as internal with the prefix, and then the outer catch prefixes it again; the transport's 401 or 403 never reaches the outward kind | `sendMail` throws code 401 with message "Invalid credentials": the caller gets internal "メール送信に失敗しました: メール送信に失敗しました: Invalid credentials" | the transport's error is classified directly: 401 gives unauthenticated, and the message is prefixed once | not executed; medium | Dispatch.SendFailureExample | Dispatch.IntendedSendFailure |
