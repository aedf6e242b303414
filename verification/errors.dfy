/** The errors of the callable function: the `HttpsError` kinds it throws,
    the view its outer `catch` has of a thrown value, and the classifier that
    maps every caught value with a string message to exactly one outward error. */
module Errors {
  import opened Wrappers
  import opened Strings

  /** The `HttpsError` codes that appear in the function. */
  datatype ErrorCode = Unauthenticated | InvalidArgument | PermissionDenied | ResourceExhausted | Internal

  /** An `HttpsError`: a (string) code and a message. */
  datatype HttpsError = HttpsError(code: ErrorCode, message: string)

  /** What the outer `catch` reads of a thrown value: `code` and `status`
      only when they are numbers (anything else never equals 401 or 403),
      and its `message`. */
  datatype Thrown = Thrown(code: Option<int>, status: Option<int>, message: string)

  const LoginRequiredMessage := "この機能を使用するにはログインが必要です"
  const MissingParamsMessage := "必要なパラメータが不足しています"
  const NoSenderEmailMessage := "送信者のメールアドレスを取得できませんでした"
  const AuthFailedMessage := "認証が必要です。Gmail APIの認証に失敗しました。"
  const PermissionMessage := "Gmail送信権限がありません。認証時にGmail送信権限を許可してください。"
  const QuotaMessage := "送信制限に達しました。しばらく時間をおいてから再試行してください。"
  /** Prefix of the message of every `internal` error the function raises. */
  const SendFailedPrefix := "メール送信に失敗しました: "
  /** The substring the classifier looks for in a message. */
  const Quota := "quota"

  /** `error.code === n || error.status === n`. */
  predicate HasStatus(e: Thrown, n: int) {
    e.code == Some(n) || e.status == Some(n)
  }

  /** The outer classifier: 401 before 403 before "quota" before `internal`,
      total over every caught value with a string message. */
  function Classify(e: Thrown): (r: HttpsError)
    ensures r.code == Unauthenticated <==> HasStatus(e, 401)
    ensures r.code == PermissionDenied <==> !HasStatus(e, 401) && HasStatus(e, 403)
    ensures r.code == ResourceExhausted <==>
              !HasStatus(e, 401) && !HasStatus(e, 403) && Occurs(e.message, Quota)
    ensures r.code == Internal <==>
              !HasStatus(e, 401) && !HasStatus(e, 403) && !Occurs(e.message, Quota)
    ensures r.code != InvalidArgument
    ensures r.code == Internal ==> r.message == SendFailedPrefix + e.message
    ensures r.code == Unauthenticated ==> r.message == AuthFailedMessage
    ensures r.code == PermissionDenied ==> r.message == PermissionMessage
    ensures r.code == ResourceExhausted ==> r.message == QuotaMessage
  {
    if HasStatus(e, 401) then
      HttpsError(Unauthenticated, AuthFailedMessage)
    else if HasStatus(e, 403) then
      HttpsError(PermissionDenied, PermissionMessage)
    else if Includes(e.message, Quota) then
      HttpsError(ResourceExhausted, QuotaMessage)
    else
      HttpsError(Internal, SendFailedPrefix + e.message)
  }

  /** The inner `catch` around `sendMail`: any send error becomes `internal`
      with the prefixed message; its code and status are dropped. */
  function WrapSendError(e: Thrown): (r: HttpsError)
    ensures r.code == Internal
    ensures SendFailedPrefix <= r.message && r.message[|SendFailedPrefix|..] == e.message
    ensures Occurs(r.message, Quota) <==> Occurs(e.message, Quota)
  {
    QuotaSeenThroughPrefix(e.message);
    HttpsError(Internal, SendFailedPrefix + e.message)
  }

  /** The wrapper keeps only the send error's message: its code and status
      are dropped. */
  lemma WrapDropsCodeAndStatus(c1: Option<int>, s1: Option<int>, c2: Option<int>, s2: Option<int>, m: string)
    ensures WrapSendError(Thrown(c1, s1, m)) == WrapSendError(Thrown(c2, s2, m))
  {
  }

  /** An `HttpsError` as the outer `catch` sees it: its code is a string, so
      the numeric comparisons read it as absent; whether it carries a numeric
      `status` is the platform's business and is given as `status`. */
  function AsThrown(e: HttpsError, status: Option<int>): (r: Thrown)
    ensures forall n :: HasStatus(r, n) <==> status == Some(n)
    ensures r.message == e.message
  {
    Thrown(None, status, e.message)
  }

  /** The quota test sees through the send-failure prefix: the prefix holds
      no 'q', so it neither creates nor hides an occurrence of "quota". */
  lemma QuotaSeenThroughPrefix(m: string)
    ensures Occurs(SendFailedPrefix + m, Quota) <==> Occurs(m, Quota)
  {
    assert Quota[0] == 'q';
    OccursAfterForeignPrefix(SendFailedPrefix, m, Quota);
  }

  /** A send failure, wrapped at the inner `catch` and then reclassified by
      the outer one: unless the platform gives the wrapped error a 401 or 403
      status, the outward kind is `resource-exhausted` exactly when the send
      error's message contains "quota", and otherwise `internal` with the
      prefix applied twice. The send error's own code and status play no
      part. */
  lemma ClassifyWrappedSendError(e: Thrown, status: Option<int>)
    requires status != Some(401) && status != Some(403)
    ensures var r := Classify(AsThrown(WrapSendError(e), status));
            && (r.code == ResourceExhausted <==> Occurs(e.message, Quota))
            && (r.code == Internal <==> !Occurs(e.message, Quota))
            && (r.code == Internal ==> r.message == SendFailedPrefix + SendFailedPrefix + e.message)
  {
    QuotaSeenThroughPrefix(e.message);
  }

  /** None of the guard messages mentions "quota". */
  lemma GuardMessagesHaveNoQuota()
    ensures !Occurs(LoginRequiredMessage, Quota)
    ensures !Occurs(MissingParamsMessage, Quota)
    ensures !Occurs(NoSenderEmailMessage, Quota)
  {
    assert Quota[0] == 'q';
    NoOccurrenceWithoutFirstChar(LoginRequiredMessage, Quota);
    NoOccurrenceWithoutFirstChar(MissingParamsMessage, Quota);
    NoOccurrenceWithoutFirstChar(NoSenderEmailMessage, Quota);
  }
}
