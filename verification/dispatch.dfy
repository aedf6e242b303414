/** The callable function `sendWaterQualityEmail`: guards, composition, the
    single `sendMail` call and the outer error classification, over an
    abstract outcome of the mail transport. */
module Dispatch {
  import opened Wrappers
  import opened Strings
  import opened Errors
  import opened Report

  /** The request data; an absent or non-string field is `None`. */
  datatype Request = Request(
    monthDay: Option<string>,
    time: Option<string>,
    chlorine: Option<string>,
    locationNumber: Option<string>,
    recipientEmail: Option<string>,
    debugMode: bool,
    accessToken: Option<string>)

  /** The platform's authentication context: the email on the ID token. */
  datatype AuthContext = AuthContext(email: Option<string>)

  /** The transport's configuration: Gmail over OAuth2 as `user`, with the
      caller's access token. */
  datatype TransportConfig = TransportConfig(service: string, authType: string,
                                             user: string, accessToken: string)

  /** The options of the one `sendMail` call. */
  datatype MailOptions = MailOptions(from: string, to: string, subject: string, text: string)

  /** A transport created and asked to send one mail. */
  datatype SendCall = SendCall(transport: TransportConfig, mail: MailOptions)

  /** What the transport answers: the sent message's id, or the thrown error. */
  datatype SendOutcome = Delivered(messageId: string) | Rejected(error: Thrown)

  /** The success response (its timestamp is left out). */
  datatype Success = Success(status: string, message: string, messageId: string)

  /** One invocation: the send calls made, in order, and the outward result. */
  datatype Run = Run(calls: seq<SendCall>, response: Result<Success, HttpsError>)

  /** Everything the guards establish for the send. */
  datatype Prepared = Prepared(sender: string, recipient: string, accessToken: string,
                               locationNumber: Option<string>, monthDay: string,
                               time: string, chlorine: string, debugMode: bool)

  const GmailService := "gmail"
  const OAuth2 := "OAuth2"
  const SuccessStatus := "success"
  const SentMessage := "メールが正常に送信されました"

  /** `monthDay`, `time`, `chlorine`, `recipientEmail` and `accessToken` are all
      truthy; `locationNumber` and `debugMode` are optional. */
  predicate HasRequiredParams(data: Request) {
    && Truthy(data.monthDay)
    && Truthy(data.time)
    && Truthy(data.chlorine)
    && Truthy(data.recipientEmail)
    && Truthy(data.accessToken)
  }

  /** The three guards, in source order: authentication, required
      parameters, sender email. */
  function Guards(auth: Option<AuthContext>, data: Request): (r: Result<Prepared, HttpsError>)
    ensures auth.None? ==> r == Err(HttpsError(Unauthenticated, LoginRequiredMessage))
    ensures auth.Some? && !HasRequiredParams(data) ==>
              r == Err(HttpsError(InvalidArgument, MissingParamsMessage))
    ensures auth.Some? && HasRequiredParams(data) && !Truthy(auth.value.email) ==>
              r == Err(HttpsError(Unauthenticated, NoSenderEmailMessage))
    ensures r.Ok? <==> auth.Some? && HasRequiredParams(data) && Truthy(auth.value.email)
    ensures r.Ok? ==>
              && r.value.sender == auth.value.email.value
              && r.value.recipient == data.recipientEmail.value
              && r.value.accessToken == data.accessToken.value
              && r.value.locationNumber == data.locationNumber
              && r.value.monthDay == data.monthDay.value
              && r.value.time == data.time.value
              && r.value.chlorine == data.chlorine.value
              && r.value.debugMode == data.debugMode
  {
    if auth.None? then
      Err(HttpsError(Unauthenticated, LoginRequiredMessage))
    else if !HasRequiredParams(data) then
      Err(HttpsError(InvalidArgument, MissingParamsMessage))
    else if !Truthy(auth.value.email) then
      Err(HttpsError(Unauthenticated, NoSenderEmailMessage))
    else
      Ok(Prepared(auth.value.email.value, data.recipientEmail.value, data.accessToken.value,
                  data.locationNumber, data.monthDay.value, data.time.value,
                  data.chlorine.value, data.debugMode))
  }

  /** The transport and the mail for a request that passed the guards. */
  function Compose(p: Prepared): (c: SendCall)
    ensures c.transport.service == GmailService && c.transport.authType == OAuth2
    ensures c.transport.user == p.sender && c.transport.accessToken == p.accessToken
    ensures c.mail.from == p.sender && c.mail.to == p.recipient
    ensures ParseSubject(c.mail.subject)
            == Some(SubjectFields(LocationOrDefault(p.locationNumber), p.debugMode))
    ensures c.mail.text == Body(p.locationNumber, p.monthDay, p.time, p.chlorine, p.debugMode)
  {
    SubjectRoundTrip(p.locationNumber, p.debugMode);
    SendCall(TransportConfig(GmailService, OAuth2, p.sender, p.accessToken),
             MailOptions(p.sender, p.recipient, Subject(p.locationNumber, p.debugMode),
                         Body(p.locationNumber, p.monthDay, p.time, p.chlorine, p.debugMode)))
  }

  /** The body of the outer `try`: what it returns, or the `HttpsError` it throws. */
  function Attempt(auth: Option<AuthContext>, data: Request, outcome: SendOutcome): (r: Run)
    ensures Guards(auth, data).Err? ==> r == Run([], Err(Guards(auth, data).error))
    ensures Guards(auth, data).Ok? ==> r.calls == [Compose(Guards(auth, data).value)]
    ensures Guards(auth, data).Ok? && outcome.Rejected? ==>
              r.response == Err(WrapSendError(outcome.error))
    ensures r.response.Ok? <==> Guards(auth, data).Ok? && outcome.Delivered?
    ensures r.response.Ok? ==> r.response.value == Success(SuccessStatus, SentMessage, outcome.messageId)
  {
    match Guards(auth, data)
    case Err(e) => Run([], Err(e))
    case Ok(p) =>
      var call := Compose(p);
      match outcome
      case Delivered(id) => Run([call], Ok(Success(SuccessStatus, SentMessage, id)))
      case Rejected(err) => Run([call], Err(WrapSendError(err)))
  }

  /** The callable function as written: every error thrown inside the `try`
      reaches the outer `catch` and is reclassified. `statusOf` gives the
      numeric `status`, if any, an `HttpsError` of each code exposes. */
  function Handle(auth: Option<AuthContext>, data: Request, outcome: SendOutcome,
                  statusOf: ErrorCode -> Option<int>): (r: Run)
    ensures |r.calls| <= 1
    ensures r.calls != [] <==> Guards(auth, data).Ok?
    ensures r.calls != [] ==> r.calls[0] == Compose(Guards(auth, data).value)
    ensures r.response.Ok? <==> Guards(auth, data).Ok? && outcome.Delivered?
    ensures r.response.Ok? ==> r.response.value == Success(SuccessStatus, SentMessage, outcome.messageId)
    ensures r.response.Err? ==> r.response.error.code != InvalidArgument
  {
    var a := Attempt(auth, data, outcome);
    match a.response
    case Ok(_) => a
    case Err(e) => Run(a.calls, Err(Classify(AsThrown(e, statusOf(e.code)))))
  }

  /** An anonymous caller is turned away before anything else: no transport,
      no mail, and the error thrown is `unauthenticated` whatever the payload. */
  lemma AnonymousCallerNeverSends(data: Request, outcome: SendOutcome, statusOf: ErrorCode -> Option<int>)
    ensures Attempt(None, data, outcome) == Run([], Err(HttpsError(Unauthenticated, LoginRequiredMessage)))
    ensures Handle(None, data, outcome, statusOf).calls == []
  {
  }

  /** A request missing a required parameter throws `invalid-argument` and
      makes no send; with the required parameters present but no email on
      the caller's token, `unauthenticated` is thrown, again with no send. */
  lemma IncompleteRequestNeverSends(auth: AuthContext, data: Request, outcome: SendOutcome,
                                    statusOf: ErrorCode -> Option<int>)
    ensures !HasRequiredParams(data) ==>
              Attempt(Some(auth), data, outcome) == Run([], Err(HttpsError(InvalidArgument, MissingParamsMessage)))
    ensures HasRequiredParams(data) && !Truthy(auth.email) ==>
              Attempt(Some(auth), data, outcome) == Run([], Err(HttpsError(Unauthenticated, NoSenderEmailMessage)))
    ensures !HasRequiredParams(data) || !Truthy(auth.email) ==>
              Handle(Some(auth), data, outcome, statusOf).calls == []
  {
  }

  /** When every guard passes, exactly one mail is sent: from the caller's
      email to the recipient, over a transport authenticated with the
      caller's own email and access token, with the subject and body of the
      report; a delivered mail answers `success` with its message id. */
  lemma GuardsPassedSendsOnce(auth: AuthContext, data: Request, outcome: SendOutcome,
                              statusOf: ErrorCode -> Option<int>)
    requires HasRequiredParams(data) && Truthy(auth.email)
    ensures var r := Handle(Some(auth), data, outcome, statusOf);
            && |r.calls| == 1
            && r.calls[0].transport == TransportConfig(GmailService, OAuth2, auth.email.value, data.accessToken.value)
            && r.calls[0].mail.from == auth.email.value
            && r.calls[0].mail.to == data.recipientEmail.value
            && r.calls[0].mail.subject == Subject(data.locationNumber, data.debugMode)
            && r.calls[0].mail.text == Body(data.locationNumber, data.monthDay.value, data.time.value,
                                            data.chlorine.value, data.debugMode)
            && (outcome.Delivered? ==> r.response == Ok(Success(SuccessStatus, SentMessage, outcome.messageId)))
  {
  }

  /** A worked request: point 03, not a test send, delivered as `id`. The
      one mail goes from the caller to the recipient over the caller's token,
      and its subject and body read back as that report. */
  lemma ReportScenario(id: string)
    ensures var data := Request(Some("2024-06-01"), Some("09:00"), Some("0.4"), Some("03"),
                                Some("ops@example.com"), false, Some("tok123"));
            var r := Handle(Some(AuthContext(Some("sender@example.com"))), data, Delivered(id), NoStatus);
            && |r.calls| == 1
            && r.calls[0].transport == TransportConfig("gmail", "OAuth2", "sender@example.com", "tok123")
            && r.calls[0].mail.from == "sender@example.com"
            && r.calls[0].mail.to == "ops@example.com"
            && ParseSubject(r.calls[0].mail.subject) == Some(SubjectFields("03", false))
            && ParseBody(r.calls[0].mail.text) == Some(ReportFields("03", "2024-06-01", "09:00", "0.4", false))
            && r.response == Ok(Success("success", "メールが正常に送信されました", id))
  {
    var data := Request(Some("2024-06-01"), Some("09:00"), Some("0.4"), Some("03"),
                        Some("ops@example.com"), false, Some("tok123"));
    var auth := Some(AuthContext(Some("sender@example.com")));
    var p := Prepared("sender@example.com", "ops@example.com", "tok123", Some("03"),
                      "2024-06-01", "09:00", "0.4", false);
    assert HasRequiredParams(data);
    assert Guards(auth, data) == Ok(p);
    assert LocationOrDefault(Some("03")) == "03";
    BodyRoundTrip(Some("03"), "2024-06-01", "09:00", "0.4", false);
    var c := Compose(p);
    assert Handle(auth, data, Delivered(id), NoStatus) == Run([c], Ok(Success(SuccessStatus, SentMessage, id)));
  }

  /** Without a send call, the transport's outcome cannot matter. */
  lemma OutcomeIrrelevantWithoutSend(auth: Option<AuthContext>, data: Request, o1: SendOutcome,
                                     o2: SendOutcome, statusOf: ErrorCode -> Option<int>)
    requires Guards(auth, data).Err?
    ensures Handle(auth, data, o1, statusOf) == Handle(auth, data, o2, statusOf)
  {
  }

  /** A send failure reaches the caller as `resource-exhausted` exactly when
      its message contains "quota", and as `internal` otherwise, provided the
      platform does not give the wrapping `internal` error a 401 or 403
      status. The transport's own code and status never surface. */
  lemma SendFailureOutcome(auth: AuthContext, data: Request, err: Thrown,
                           statusOf: ErrorCode -> Option<int>)
    requires HasRequiredParams(data) && Truthy(auth.email)
    requires statusOf(Internal) != Some(401) && statusOf(Internal) != Some(403)
    ensures var r := Handle(Some(auth), data, Rejected(err), statusOf);
            && |r.calls| == 1
            && r.response.Err?
            && (r.response.error.code == ResourceExhausted <==> Occurs(err.message, Quota))
            && (r.response.error.code == Internal <==> !Occurs(err.message, Quota))
            && (r.response.error.code == Internal ==>
                  r.response.error.message == SendFailedPrefix + SendFailedPrefix + err.message)
  {
    ClassifyWrappedSendError(err, statusOf(Internal));
  }

  /** The guards' errors do not reach the caller as thrown: unless the
      platform gives them a 401 or 403 status, each comes out as `internal`
      with the send-failure prefix before the guard's message. */
  lemma GuardErrorReachesCallerAsInternal(auth: Option<AuthContext>, data: Request, outcome: SendOutcome,
                                          statusOf: ErrorCode -> Option<int>)
    requires Guards(auth, data).Err?
    requires statusOf(Guards(auth, data).error.code) != Some(401)
    requires statusOf(Guards(auth, data).error.code) != Some(403)
    ensures Handle(auth, data, outcome, statusOf).response
            == Err(HttpsError(Internal, SendFailedPrefix + Guards(auth, data).error.message))
  {
    GuardMessagesHaveNoQuota();
  }

  /** A platform whose `HttpsError`s carry no numeric `status`. */
  function NoStatus(code: ErrorCode): Option<int> {
    None
  }

  /** Concretely: an anonymous caller receives `internal`, not
      `unauthenticated`. */
  lemma AnonymousCallerExample(data: Request, outcome: SendOutcome)
    ensures Handle(None, data, outcome, NoStatus).response
            == Err(HttpsError(Internal, SendFailedPrefix + LoginRequiredMessage))
  {
    assert Guards(None, data).error == HttpsError(Unauthenticated, LoginRequiredMessage);
    GuardErrorReachesCallerAsInternal(None, data, outcome, NoStatus);
  }

  /** Concretely: a request without `chlorine` receives `internal`, not
      `invalid-argument`. */
  lemma MissingChlorineExample(data: Request, outcome: SendOutcome)
    requires data.chlorine == None
    ensures Handle(Some(AuthContext(Some("sender@example.com"))), data, outcome, NoStatus).response
            == Err(HttpsError(Internal, SendFailedPrefix + MissingParamsMessage))
  {
    var auth := Some(AuthContext(Some("sender@example.com")));
    assert !HasRequiredParams(data);
    assert Guards(auth, data).error == HttpsError(InvalidArgument, MissingParamsMessage);
    GuardErrorReachesCallerAsInternal(auth, data, outcome, NoStatus);
  }

  /** Concretely: a transport that rejects the token with code 401 yields
      `internal` with a doubly prefixed message, not `unauthenticated`. */
  lemma SendFailureExample(auth: AuthContext, data: Request)
    requires HasRequiredParams(data) && Truthy(auth.email)
    ensures Handle(Some(auth), data, Rejected(Thrown(Some(401), None, "Invalid credentials")), NoStatus).response
            == Err(HttpsError(Internal, SendFailedPrefix + SendFailedPrefix + "Invalid credentials"))
  {
    NoOccurrenceWithoutFirstChar("Invalid credentials", Quota);
    SendFailureOutcome(auth, data, Thrown(Some(401), None, "Invalid credentials"), NoStatus);
  }

  /** The corrected function: the guards' `HttpsError`s reach the caller
      unchanged, and a send failure is classified from the transport's own
      error rather than from an `internal` wrapper. */
  function HandleIntended(auth: Option<AuthContext>, data: Request, outcome: SendOutcome): (r: Run)
    ensures |r.calls| <= 1
    ensures r.calls != [] <==> Guards(auth, data).Ok?
    ensures Guards(auth, data).Err? ==> r.response == Err(Guards(auth, data).error)
    ensures Guards(auth, data).Ok? && outcome.Rejected? ==> r.response == Err(Classify(outcome.error))
    ensures Guards(auth, data).Ok? ==> r.calls == [Compose(Guards(auth, data).value)]
    ensures r.response.Ok? <==> Guards(auth, data).Ok? && outcome.Delivered?
    ensures r.response.Ok? ==> r.response.value == Success(SuccessStatus, SentMessage, outcome.messageId)
  {
    match Guards(auth, data)
    case Err(e) => Run([], Err(e))
    case Ok(p) =>
      var call := Compose(p);
      match outcome
      case Delivered(id) => Run([call], Ok(Success(SuccessStatus, SentMessage, id)))
      case Rejected(err) => Run([call], Err(Classify(err)))
  }

  /** In the corrected function, each guard's error is what the caller gets:
      `unauthenticated` for an anonymous caller, `invalid-argument` for a
      missing parameter, `unauthenticated` for a token without email. */
  lemma IntendedGuardErrorsSurface(auth: Option<AuthContext>, data: Request, outcome: SendOutcome)
    ensures auth.None? ==>
              HandleIntended(auth, data, outcome).response.error.code == Unauthenticated
    ensures auth.Some? && !HasRequiredParams(data) ==>
              HandleIntended(auth, data, outcome).response.error.code == InvalidArgument
    ensures auth.Some? && HasRequiredParams(data) && !Truthy(auth.value.email) ==>
              HandleIntended(auth, data, outcome).response.error.code == Unauthenticated
  {
  }

  /** In the corrected function, a transport 401 or 403 reaches the caller as
      `unauthenticated` or `permission-denied`, and any other failure without
      "quota" as `internal` with the prefix applied once. */
  lemma IntendedSendFailure(auth: AuthContext, data: Request, err: Thrown)
    requires HasRequiredParams(data) && Truthy(auth.email)
    ensures var r := HandleIntended(Some(auth), data, Rejected(err)).response;
            && r.Err?
            && (HasStatus(err, 401) ==> r.error.code == Unauthenticated)
            && (!HasStatus(err, 401) && HasStatus(err, 403) ==> r.error.code == PermissionDenied)
            && (r.error.code == Internal ==> r.error.message == SendFailedPrefix + err.message)
  {
  }
}
