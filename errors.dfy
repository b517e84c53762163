/** The client's error taxonomy (src/types/errors.ts): each class fixes a code,
    computes its message from its arguments and carries structured details.
    `PlainError` stands for a bare `new Error(text)`, and `Foreign` for an
    exception raised by code outside the model (the socket library). */
module Errors {
  import opened Base
  import opened Json

  datatype Failure =
    | ConnectionError(text: string, cause: Option<Value>)
    | ApiTimeoutError(action: string, timeout: Option<int>)
    | ApiError(action: string, retcode: Option<Value>, message: Option<Value>, wording: Option<Value>)
    | MaxReconnectAttemptsError(attempts: int)
    | ConnectionClosedError(code: int, reason: string)
    | InvalidConfigError(field: string, reason: string)
    | PlainError(text: string)
    | Foreign(name: string, text: string)

  /** The structured `details` of a NapLinkError. */
  datatype Details =
    | NoDetails
    | Cause(cause: Value)
    | TimeoutDetails(action: string, timeout: Option<int>)
    | ApiDetails(action: string, retcode: Option<Value>, message: Option<Value>, wording: Option<Value>)
    | AttemptsDetails(attempts: int)
    | CloseDetails(code: int, reason: string)
    | FieldDetails(field: string, reason: string)

  /** What `toJSON` returns. */
  datatype ErrorJson = ErrorJson(name: string, message: string, code: string, details: Details)

  /** The six subclasses of NapLinkError. */
  predicate IsNapLinkError(e: Failure) {
    !e.PlainError? && !e.Foreign?
  }

  /** `error instanceof ApiTimeoutError || error instanceof ApiError`: the
      failures the retry loop retries. */
  predicate IsRetryable(e: Failure)
    ensures IsRetryable(e) <==> IsNapLinkError(e) && Code(e) in {"E_API_TIMEOUT", "E_API_FAILED"}
  {
    e.ApiTimeoutError? || e.ApiError?
  }

  /** `this.constructor.name` */
  function Name(e: Failure): string {
    match e
    case ConnectionError(_, _) => "ConnectionError"
    case ApiTimeoutError(_, _) => "ApiTimeoutError"
    case ApiError(_, _, _, _) => "ApiError"
    case MaxReconnectAttemptsError(_) => "MaxReconnectAttemptsError"
    case ConnectionClosedError(_, _) => "ConnectionClosedError"
    case InvalidConfigError(_, _) => "InvalidConfigError"
    case PlainError(_) => "Error"
    case Foreign(name, _) => name
  }

  /** The fixed code of each class; distinct classes have distinct codes. */
  function Code(e: Failure): (c: string)
    requires IsNapLinkError(e)
    ensures StartsWith(c, "E_")
  {
    match e
    case ConnectionError(_, _) => "E_CONNECTION"
    case ApiTimeoutError(_, _) => "E_API_TIMEOUT"
    case ApiError(_, _, _, _) => "E_API_FAILED"
    case MaxReconnectAttemptsError(_) => "E_MAX_RECONNECT"
    case ConnectionClosedError(_, _) => "E_CONNECTION_CLOSED"
    case InvalidConfigError(_, _) => "E_INVALID_CONFIG"
  }

  /** `wording || message || default` for ApiError. */
  function ApiErrorText(action: string, message: Option<Value>, wording: Option<Value>): string {
    if TruthyOpt(wording) then JsString(wording.value)
    else if TruthyOpt(message) then JsString(message.value)
    else "API调用失败: " + action
  }

  function Message(e: Failure): string {
    match e
    case ConnectionError(text, _) => text
    case ApiTimeoutError(action, timeout) =>
      "API调用 " + action + " 超时 (" + (if timeout.Some? then IntToString(timeout.value) else "undefined") + "ms)"
    case ApiError(action, _, message, wording) => ApiErrorText(action, message, wording)
    case MaxReconnectAttemptsError(attempts) => "达到最大重连次数 (" + IntToString(attempts) + ")"
    case ConnectionClosedError(code, reason) => "连接已关闭: " + reason + " (code: " + IntToString(code) + ")"
    case InvalidConfigError(field, reason) => "无效的配置: " + field + " - " + reason
    case PlainError(text) => text
    case Foreign(_, text) => text
  }

  function DetailsOf(e: Failure): Details
    requires IsNapLinkError(e)
  {
    match e
    case ConnectionError(_, cause) => if cause.Some? then Cause(cause.value) else NoDetails
    case ApiTimeoutError(action, timeout) => TimeoutDetails(action, timeout)
    case ApiError(action, retcode, message, wording) => ApiDetails(action, retcode, message, wording)
    case MaxReconnectAttemptsError(attempts) => AttemptsDetails(attempts)
    case ConnectionClosedError(code, reason) => CloseDetails(code, reason)
    case InvalidConfigError(field, reason) => FieldDetails(field, reason)
  }

  /** `toJSON()`: exactly name, message, code and details. */
  function ToJson(e: Failure): (j: ErrorJson)
    requires IsNapLinkError(e)
    ensures j.name == Name(e) && j.message == Message(e)
    ensures j.code == Code(e) && j.details == DetailsOf(e)
  {
    ErrorJson(Name(e), Message(e), Code(e), DetailsOf(e))
  }

  /** ApiError's message precedence for the typed case (string message and
      wording): a non-empty wording wins, then a non-empty message, then the
      default text naming the action. */
  lemma ApiErrorMessagePrecedence(action: string, retcode: Option<Value>, message: string, wording: Option<string>)
    ensures var e := ApiError(action, retcode, Some(JStr(message)),
                              if wording.Some? then Some(JStr(wording.value)) else None);
      && (wording.Some? && wording.value != "" ==> Message(e) == wording.value)
      && ((wording.None? || wording.value == "") && message != "" ==> Message(e) == message)
      && ((wording.None? || wording.value == "") && message == "" ==> Message(e) == "API调用失败: " + action)
      && DetailsOf(e).action == action && DetailsOf(e).retcode == retcode
  {
  }

  /** `toJSON` loses nothing: two NapLink errors with the same JSON form are
      the same error. */
  lemma {:induction false} ToJsonInjective(e: Failure, f: Failure)
    requires IsNapLinkError(e) && IsNapLinkError(f)
    requires ToJson(e) == ToJson(f)
    ensures e == f
  {
    assert Name(e) == Name(f) && DetailsOf(e) == DetailsOf(f);
    if e.ConnectionError? {
      assert Message(e) == e.text && Message(f) == f.text;
    }
  }

  /** The code of a NapLinkError determines its class. */
  lemma {:induction false} CodeDeterminesClass(e: Failure, f: Failure)
    requires IsNapLinkError(e) && IsNapLinkError(f)
    requires Code(e) == Code(f)
    ensures Name(e) == Name(f)
  {
  }
}
