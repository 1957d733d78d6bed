/**
  The provider client (src/services/elevenlabs.service.ts): the three request
  paths, the pass-through of response data, and `handleError`, which turns
  any failure of a provider call into one `Error` whose message starts with
  the operation's default message.

  The HTTP call itself is an abstract `Outcome`. Two JavaScript built-ins the
  normalizer relies on are parameters (`JsHost`): `JSON.stringify`, which may
  throw (`None`), and the text conversion `${v}` of a non-string value.
 */
module Service {

  import opened Json
  import opened Decimal
  import Types

  const SubmitFailed := "Error al disparar batch de llamadas"
  const CancelFailed := "Error al cancelar batch de llamadas"
  const DetailFailed := "Error al obtener información del batch"
  const UnknownProviderError := "Error desconocido de ElevenLabs"

  /** Every provider call is abandoned after this many milliseconds (reported as a transport failure). */
  const RequestTimeoutMs := 30000

  const BatchCallingPath := "/v1/convai/batch-calling/"

  datatype JsHost = JsHost(stringify: Json -> Option<string>, display: Json -> string)

  /** How a provider call ended, as the HTTP client reports it. */
  datatype Failure =
      /** An HTTP-client error: `response?.status` and `response?.data`; both are `undefined` for a transport failure. */
    | HttpErr(status: Option<int>, data: Option<Json>)
      /** Any other `Error`, with its message. */
    | GenericErr(message: string)
      /** A thrown value that is not an `Error`. */
    | Other

  datatype Outcome = Ok(data: Json) | Fail(failure: Failure)

  datatype Method = Get | Post

  datatype HttpRequest = HttpRequest(verb: Method, path: string, body: Option<Json>)

  /** What escapes an operation: a thrown `Error` with its message, or a thrown non-`Error` value. */
  datatype Thrown = ThrownError(message: string) | ThrownValue

  datatype ServiceResult = Returned(data: Json) | Threw(error: Thrown)

  /** One operation: the request it sends and what it returns or throws. */
  datatype Call = Call(request: HttpRequest, result: ServiceResult)

  // Request paths

  /** The fixed submit path. */
  function SubmitPath(): (p: string)
    ensures p == "/v1/convai/batch-calling/submit"
  {
    BatchCallingPath + "submit"
  }

  /** The batch id, verbatim, between the fixed prefix and the `/cancel` suffix. */
  function CancelPath(batchId: string): (p: string)
    ensures BatchCallingPath <= p && |p| == |BatchCallingPath| + |batchId| + |"/cancel"|
    ensures p[|BatchCallingPath|..|p| - |"/cancel"|] == batchId
    ensures p[|p| - |"/cancel"|..] == "/cancel"
  {
    BatchCallingPath + batchId + "/cancel"
  }

  /** The batch id, verbatim, after the fixed prefix. */
  function DetailPath(batchId: string): (p: string)
    ensures BatchCallingPath <= p && p[|BatchCallingPath|..] == batchId
  {
    BatchCallingPath + batchId
  }

  /** Distinct batch ids give distinct cancel paths and distinct detail paths. */
  lemma PathsInjective(a: string, b: string)
    ensures CancelPath(a) == CancelPath(b) ==> a == b
    ensures DetailPath(a) == DetailPath(b) ==> a == b
  {
  }

  /**
    Because the id is not escaped, the detail path of some ids coincides with
    the submit path or with another batch's cancel path; the HTTP method still
    tells the three requests apart.
   */
  lemma DetailPathCollisions(batchId: string, other: string)
    ensures DetailPath(batchId) == SubmitPath() <==> batchId == "submit"
    ensures DetailPath(batchId) == CancelPath(other) <==> batchId == other + "/cancel"
  {
    assert SubmitPath()[|BatchCallingPath|..] == "submit";
    assert CancelPath(other)[|BatchCallingPath|..] == other + "/cancel";
  }

  // Error normalization

  /** Template-literal text of a value: strings verbatim, anything else through the host's conversion. */
  function Text(v: Json, host: JsHost): string {
    if v.JStr? then v.s else host.display(v)
  }

  /**
    The message `handleError` extracts from an HTTP-client error's response
    data: a string body, else a truthy `detail`, else a truthy `message`, else
    the serialized body (or a fixed text if serializing throws); a missing or
    falsy body leaves the default message.
   */
  function ExtractMessage(data: Option<Json>, defaultMessage: string, host: JsHost): (message: string)
    ensures !TruthyField(data) ==> message == defaultMessage
    ensures TruthyField(data) && data.value.JStr? ==> message == data.value.s
    ensures TruthyField(data) && !data.value.JStr? && TruthyField(Member(data.value, "detail")) ==>
      message == Text(Member(data.value, "detail").value, host)
    ensures TruthyField(data) && !data.value.JStr? && !TruthyField(Member(data.value, "detail"))
            && TruthyField(Member(data.value, "message")) ==>
      message == Text(Member(data.value, "message").value, host)
    ensures TruthyField(data) && !data.value.JStr? && !TruthyField(Member(data.value, "detail"))
            && !TruthyField(Member(data.value, "message")) ==>
      message == (if host.stringify(data.value).Some? then host.stringify(data.value).value else UnknownProviderError)
  {
    if !TruthyField(data) then defaultMessage
    else
      var body := data.value;
      if body.JStr? then body.s
      else if TruthyField(Member(body, "detail")) then Text(Member(body, "detail").value, host)
      else if TruthyField(Member(body, "message")) then Text(Member(body, "message").value, host)
      else match host.stringify(body)
        case Some(serialized) => serialized
        case None => UnknownProviderError
  }

  /** `${status || 'unknown'}`: the status in decimal, or `unknown` when it is missing or 0. */
  function StatusText(status: Option<int>): (t: string)
    ensures t == "unknown" <==> status.None? || status.value == 0
    ensures status.Some? && status.value != 0 ==> ParseInt(t) == Some(status.value)
  {
    if status.None? || status.value == 0 then "unknown"
    else
      IntToDecimalRoundTrip(status.value);
      IntToDecimal(status.value)
  }

  /**
    The message of the `Error` that `handleError` returns. It is defined for
    every failure, and always begins with the default message.
   */
  function HandleError(failure: Failure, defaultMessage: string, host: JsHost): (message: string)
    ensures defaultMessage <= message
    ensures failure.HttpErr? ==>
      message == defaultMessage + ": " + ExtractMessage(failure.data, defaultMessage, host)
                 + " (Status: " + StatusText(failure.status) + ")"
    ensures failure.GenericErr? ==> message == defaultMessage + ": " + failure.message
    ensures failure.Other? ==> message == defaultMessage
  {
    match failure
    case HttpErr(status, data) =>
      defaultMessage + ": " + ExtractMessage(data, defaultMessage, host) + " (Status: " + StatusText(status) + ")"
    case GenericErr(m) => defaultMessage + ": " + m
    case Other => defaultMessage
  }

  /** The common tail of the three operations: response data verbatim, or the normalized error thrown. */
  function Settle(outcome: Outcome, defaultMessage: string, host: JsHost): (r: ServiceResult)
    ensures r.Returned? <==> outcome.Ok?
    ensures outcome.Ok? ==> r.data == outcome.data
    ensures outcome.Fail? ==> r.error == ThrownError(HandleError(outcome.failure, defaultMessage, host))
  {
    match outcome
    case Ok(data) => Returned(data)
    case Fail(f) => Threw(ThrownError(HandleError(f, defaultMessage, host)))
  }

  // The three operations

  function SubmitBatchCall(data: Json, outcome: Outcome, host: JsHost): (c: Call)
    ensures c.request == HttpRequest(Post, SubmitPath(), Some(data))
    ensures c.result.Returned? <==> outcome.Ok?
    ensures outcome.Ok? ==> c.result.data == outcome.data
    ensures outcome.Fail? ==> c.result.error == ThrownError(HandleError(outcome.failure, SubmitFailed, host))
    ensures outcome.Fail? ==> SubmitFailed <= c.result.error.message
  {
    Call(HttpRequest(Post, SubmitPath(), Some(data)), Settle(outcome, SubmitFailed, host))
  }

  function CancelBatchCall(batchId: string, outcome: Outcome, host: JsHost): (c: Call)
    ensures c.request == HttpRequest(Post, CancelPath(batchId), None)
    ensures c.result.Returned? <==> outcome.Ok?
    ensures outcome.Ok? ==> c.result.data == outcome.data
    ensures outcome.Fail? ==> c.result.error == ThrownError(HandleError(outcome.failure, CancelFailed, host))
    ensures outcome.Fail? ==> CancelFailed <= c.result.error.message
  {
    Call(HttpRequest(Post, CancelPath(batchId), None), Settle(outcome, CancelFailed, host))
  }

  function GetBatchCallInfo(batchId: string, outcome: Outcome, host: JsHost): (c: Call)
    ensures c.request == HttpRequest(Get, DetailPath(batchId), None)
    ensures c.result.Returned? <==> outcome.Ok?
    ensures outcome.Ok? ==> c.result.data == outcome.data
    ensures outcome.Fail? ==> c.result.error == ThrownError(HandleError(outcome.failure, DetailFailed, host))
    ensures outcome.Fail? ==> DetailFailed <= c.result.error.message
  {
    Call(HttpRequest(Get, DetailPath(batchId), None), Settle(outcome, DetailFailed, host))
  }

  // Properties of the message extraction

  /** A string body is the message, verbatim (an empty string is falsy and leaves the default). */
  lemma StringBodyVerbatim(s: string, defaultMessage: string, host: JsHost)
    ensures ExtractMessage(Some(JStr(s)), defaultMessage, host) == if s == "" then defaultMessage else s
  {
  }

  /** A truthy `detail` wins over `message`; `message` is used only when `detail` is falsy. */
  lemma DetailBeforeMessage(fields: map<string, Json>, defaultMessage: string, host: JsHost)
    ensures TruthyField(Member(JObj(fields), "detail")) ==>
      ExtractMessage(Some(JObj(fields)), defaultMessage, host) == Text(fields["detail"], host)
    ensures !TruthyField(Member(JObj(fields), "detail")) && TruthyField(Member(JObj(fields), "message")) ==>
      ExtractMessage(Some(JObj(fields)), defaultMessage, host) == Text(fields["message"], host)
  {
  }

  /** With neither field usable, an object body is serialized, or the fixed text replaces a failed serialization. */
  lemma SerializedFallback(body: Json, defaultMessage: string, host: JsHost)
    requires Truthy(body) && !body.JStr?
    requires !TruthyField(Member(body, "detail")) && !TruthyField(Member(body, "message"))
    ensures host.stringify(body).Some? ==> ExtractMessage(Some(body), defaultMessage, host) == host.stringify(body).value
    ensures host.stringify(body).None? ==> ExtractMessage(Some(body), defaultMessage, host) == UnknownProviderError
  {
  }

  /** A missing or falsy body leaves exactly the default message. */
  lemma FalsyBodyKeepsDefault(data: Option<Json>, defaultMessage: string, host: JsHost)
    requires data.None? || data.value in {JNull, JBool(false), JNum(0.0), JStr("")}
    ensures ExtractMessage(data, defaultMessage, host) == defaultMessage
  {
  }

  /**
    A transport failure carries neither status nor body, so the normalized
    message repeats the default message and reports the status as unknown.
   */
  lemma TransportFailureMessage(defaultMessage: string, host: JsHost)
    ensures HandleError(HttpErr(None, None), defaultMessage, host)
      == defaultMessage + ": " + defaultMessage + " (Status: unknown)"
  {
  }

  /**
    The error body the provider is expected to send: a non-empty `detail` is
    the message, else a non-empty `message`, else the body is serialized.
   */
  lemma TypedErrorBodyMessage(e: Types.ElevenLabsError, defaultMessage: string, host: JsHost)
    ensures var body := Types.EncodeElevenLabsError(e);
      ExtractMessage(Some(body), defaultMessage, host) ==
        if e.detail.Some? && e.detail.value != "" then e.detail.value
        else if e.message.Some? && e.message.value != "" then e.message.value
        else if host.stringify(body).Some? then host.stringify(body).value
        else UnknownProviderError
  {
    var body := Types.EncodeElevenLabsError(e);
    assert Member(body, "detail") == (if e.detail.Some? then Some(JStr(e.detail.value)) else None);
    assert Member(body, "message") == (if e.message.Some? then Some(JStr(e.message.value)) else None);
  }
}
