/**
  The batch-calling handlers (src/controllers/batch-calling.controller.ts).
  Each handler is a function from what it receives (the request body or the
  `batchId` route parameter, and the provider's answer) to the response it
  writes: a status code and one of the three JSON envelopes, together with
  the provider request it issued, if any.

  `submitBatchCall` answers 400 with the violations of the route's rules
  without calling the provider; otherwise it strips the per-recipient
  initiation data when `include_dynamic_variables` is exactly `false`, sends
  the result, and answers 200 with the provider's data or 500 with the
  normalized error message. The other two handlers guard against an empty
  `batchId` the same way.
 */
module Controller {

  import opened Json
  import opened Routes
  import opened Service
  import opened Types

  const MissingBatchId := "El parámetro batchId es requerido"
  const UnknownError := "Error desconocido"

  /** `{success: true, data}`, `{success: false, errors}` or `{success: false, error}`. */
  datatype Envelope = DataEnvelope(data: Json) | ErrorsEnvelope(errors: seq<Violation>) | ErrorEnvelope(error: string) {
    predicate Success() {
      DataEnvelope?
    }
  }

  /** What a handler writes, and the provider request it sent on the way (`None`: the provider was not called). */
  datatype Response = Response(status: int, envelope: Envelope, sent: Option<HttpRequest>)

  // The dynamic-variable filter

  /** `req.body.include_dynamic_variables === false`: strict, so only the boolean `false` qualifies. */
  function DropsDynamicVariables(body: Json): (drops: bool)
    ensures drops <==>
      && Member(body, "include_dynamic_variables").Some?
      && Member(body, "include_dynamic_variables").value.JBool?
      && !Truthy(Member(body, "include_dynamic_variables").value)
    ensures drops ==> body.JObj? && !TruthyField(Member(body, "include_dynamic_variables"))
  {
    Member(body, "include_dynamic_variables") == Some(JBool(false))
  }

  /** What the filter's spread and `recipients.map` need in order not to throw. */
  predicate Filterable(body: Json) {
    && body.JObj?
    && Member(body, "recipients").Some? && Member(body, "recipients").value.JArr?
    && forall i | 0 <= i < |Recipients(body)| :: Recipients(body)[i] != JNull
  }

  /** `{phone_number: recipient.phone_number, id: recipient.id}`, an `undefined` value leaving its key out. */
  function Identity(r: Json): (k: Json)
    requires r != JNull
    ensures k.JObj? && k.fields.Keys <= {"phone_number", "id"}
    ensures Member(k, "phone_number") == Member(r, "phone_number")
    ensures Member(k, "id") == Member(r, "id")
  {
    JObj(Entry("phone_number", Member(r, "phone_number")) + Entry("id", Member(r, "id")))
  }

  /**
    The data `submitBatchCall` sends. When the flag is exactly `false` every
    recipient is rebuilt from its `phone_number` and `id` alone and every other
    top-level field, the flag included, is kept; otherwise the body is sent
    as it is.
   */
  function FilterDynamicVariables(body: Json): (data: Json)
    requires DropsDynamicVariables(body) ==> Filterable(body)
    ensures !DropsDynamicVariables(body) ==> data == body
    ensures DropsDynamicVariables(body) ==>
      && data.JObj? && data.fields.Keys == body.fields.Keys
      && (forall k | k in body.fields && k != "recipients" :: data.fields[k] == body.fields[k])
      && data.fields["recipients"].JArr?
      && |Recipients(data)| == |Recipients(body)|
      && (forall i | 0 <= i < |Recipients(body)| :: Recipients(data)[i] == Identity(Recipients(body)[i]))
  {
    if DropsDynamicVariables(body) then
      var items := Recipients(body);
      JObj(body.fields["recipients" := JArr(seq(|items|, i requires 0 <= i < |items| => Identity(items[i])))])
    else
      body
  }

  /** A body the route's rules accept can be filtered without a TypeError. */
  lemma WellFormedIsFilterable(body: Json, nullIsAbsent: bool)
    requires WellFormed(body, nullIsAbsent)
    ensures Filterable(body)
  {
    forall i | 0 <= i < |Recipients(body)|
      ensures Recipients(body)[i] != JNull
    {
      assert IsNonEmptyString(Member(Recipients(body)[i], "phone_number"));
    }
  }

  /** After filtering, no recipient carries `conversation_initiation_client_data`, and phone numbers and ids are unchanged. */
  lemma FilterStripsClientData(body: Json, i: nat)
    requires DropsDynamicVariables(body) && Filterable(body)
    requires i < |Recipients(body)|
    ensures i < |Recipients(FilterDynamicVariables(body))|
    ensures ClientDataOf(Recipients(FilterDynamicVariables(body))[i]).None?
    ensures Member(Recipients(FilterDynamicVariables(body))[i], "phone_number") == Member(Recipients(body)[i], "phone_number")
    ensures Member(Recipients(FilterDynamicVariables(body))[i], "id") == Member(Recipients(body)[i], "id")
  {
    var k := Recipients(FilterDynamicVariables(body))[i];
    assert k == Identity(Recipients(body)[i]);
    assert "conversation_initiation_client_data" !in k.fields;
  }

  /** Filtering twice sends the same data as filtering once. */
  lemma FilterIdempotent(body: Json)
    requires DropsDynamicVariables(body) ==> Filterable(body)
    ensures DropsDynamicVariables(FilterDynamicVariables(body)) ==> Filterable(FilterDynamicVariables(body))
    ensures FilterDynamicVariables(FilterDynamicVariables(body)) == FilterDynamicVariables(body)
  {
    if DropsDynamicVariables(body) {
      var once := FilterDynamicVariables(body);
      assert Member(once, "include_dynamic_variables") == Member(body, "include_dynamic_variables");
      var twice := FilterDynamicVariables(once);
      assert Recipients(twice) == Recipients(once) by {
        forall i | 0 <= i < |Recipients(once)|
          ensures Recipients(twice)[i] == Recipients(once)[i]
        {
          var r := Recipients(once)[i];
          assert r.JObj?;
          assert Identity(r).fields == r.fields;
        }
      }
      assert twice.fields == once.fields;
    }
  }

  /** A body the route's rules accept still satisfies them after filtering. */
  lemma FilterPreservesValidity(body: Json, nullIsAbsent: bool)
    requires ValidateSubmit(body, nullIsAbsent) == []
    ensures Filterable(body)
    ensures ValidateSubmit(FilterDynamicVariables(body), nullIsAbsent) == []
  {
    WellFormedIsFilterable(body, nullIsAbsent);
    var data := FilterDynamicVariables(body);
    if DropsDynamicVariables(body) {
      forall k | k in {"call_name", "agent_id", "agent_phone_number_id", "scheduled_time_unix", "phone_provider",
                       "include_dynamic_variables"}
        ensures Member(data, k) == Member(body, k)
      {
      }
      assert RecipientsOk(data);
      forall i | 0 <= i < |Recipients(data)|
        ensures IsNonEmptyString(Member(Recipients(data)[i], "phone_number"))
        ensures ClientDataOf(Recipients(data)[i]).None?
        ensures DynamicVariablesOf(Recipients(data)[i]).None?
      {
        FilterStripsClientData(body, i);
      }
      assert WellFormed(data, nullIsAbsent);
    }
  }

  // The typed view of the filter

  /** The recipient the filter builds: the same phone number and id, no initiation data. */
  function WithoutClientData(r: Recipient): (s: Recipient)
    ensures s.phone_number == r.phone_number && s.id == r.id
    ensures s.conversation_initiation_client_data.None?
  {
    r.(conversation_initiation_client_data := None)
  }

  /** The typed request the filter produces from an encoded one. */
  function FilterRequest(r: SubmitBatchCallRequest): (s: SubmitBatchCallRequest)
    ensures r.include_dynamic_variables != Some(false) ==> s == r
    ensures |s.recipients| == |r.recipients|
    ensures r.include_dynamic_variables == Some(false) ==>
      && s.(recipients := r.recipients) == r
      && forall i | 0 <= i < |r.recipients| :: s.recipients[i] == WithoutClientData(r.recipients[i])
  {
    if r.include_dynamic_variables == Some(false) then
      r.(recipients := seq(|r.recipients|, i requires 0 <= i < |r.recipients| => WithoutClientData(r.recipients[i])))
    else
      r
  }

  lemma IdentityOfEncodedRecipient(x: Recipient)
    ensures Identity(EncodeRecipient(x)) == EncodeRecipient(WithoutClientData(x))
  {
    var e := EncodeRecipient(x);
    assert Member(e, "phone_number") == Some(JStr(x.phone_number));
    assert Member(e, "id") == if x.id.Some? then Some(JStr(x.id.value)) else None;
    assert Identity(e).fields == EncodeRecipient(WithoutClientData(x)).fields;
  }

  /** Only the `recipients` entry of an encoded request depends on the recipients. */
  lemma EncodeReplacingRecipients(r: SubmitBatchCallRequest, rs: seq<Recipient>)
    ensures EncodeRequest(r.(recipients := rs)) == JObj(EncodeRequest(r).fields["recipients" := JArr(EncodeRecipients(rs))])
  {
    var s := r.(recipients := rs);
    var required := map[
        "call_name" := JStr(r.call_name),
        "agent_id" := JStr(r.agent_id),
        "agent_phone_number_id" := JStr(r.agent_phone_number_id),
        "recipients" := JArr(EncodeRecipients(r.recipients))];
    assert OptionalEntries(s) == OptionalEntries(r);
    assert "recipients" !in OptionalEntries(r);
    var a := EncodeRequest(s).fields;
    var b := (required + OptionalEntries(r))["recipients" := JArr(EncodeRecipients(rs))];
    assert a == b by {
      assert a.Keys == b.Keys;
      forall k | k in a
        ensures a[k] == b[k]
      {
        if k in OptionalEntries(r) {
          assert a[k] == OptionalEntries(r)[k];
        }
      }
    }
  }

  /** Filtering the encoding of a request is encoding the filtered request. */
  lemma FilterCommutesWithEncoding(r: SubmitBatchCallRequest)
    ensures Filterable(EncodeRequest(r))
    ensures FilterDynamicVariables(EncodeRequest(r)) == EncodeRequest(FilterRequest(r))
  {
    var body := EncodeRequest(r);
    assert Recipients(body) == EncodeRecipients(r.recipients);
    if DropsDynamicVariables(body) {
      assert r.include_dynamic_variables == Some(false);
      var s := FilterRequest(r);
      var items := Recipients(body);
      var filtered := seq(|items|, i requires 0 <= i < |items| => Identity(items[i]));
      assert filtered == EncodeRecipients(s.recipients) by {
        forall i | 0 <= i < |items|
          ensures filtered[i] == EncodeRecipients(s.recipients)[i]
        {
          IdentityOfEncodedRecipient(r.recipients[i]);
        }
      }
      EncodeReplacingRecipients(r, s.recipients);
    }
  }

  // Handlers

  /** The `error` of a 500 envelope: the message of a thrown `Error`, or a fixed text for anything else. */
  function ErrorText(t: Thrown): (message: string)
    ensures t.ThrownError? ==> message == t.message
    ensures t.ThrownValue? ==> message == UnknownError
  {
    match t
    case ThrownError(m) => m
    case ThrownValue => UnknownError
  }

  /** The response once the provider call has settled. */
  function Respond(c: Call): (r: Response)
    ensures r.sent == Some(c.request)
    ensures r.status == 200 <==> c.result.Returned?
    ensures r.status == 200 ==> r.envelope == DataEnvelope(c.result.data)
    ensures r.status != 200 ==> r.status == 500 && r.envelope == ErrorEnvelope(ErrorText(c.result.error))
  {
    match c.result
    case Returned(data) => Response(200, DataEnvelope(data), Some(c.request))
    case Threw(t) => Response(500, ErrorEnvelope(ErrorText(t)), Some(c.request))
  }

  /** `submitBatchCall` */
  function SubmitBatchCallHandler(body: Json, nullIsAbsent: bool, outcome: Outcome, host: JsHost): (r: Response)
    ensures r.status == 400 <==> ValidateSubmit(body, nullIsAbsent) != []
    ensures r.status == 400 ==> r.envelope == ErrorsEnvelope(ValidateSubmit(body, nullIsAbsent)) && r.sent.None?
    ensures r.sent.Some? <==> ValidateSubmit(body, nullIsAbsent) == []
    ensures r.sent.Some? ==>
      && Filterable(body)
      && r.sent.value == HttpRequest(Post, SubmitPath(), Some(FilterDynamicVariables(body)))
    ensures r.status == 200 <==> r.sent.Some? && outcome.Ok?
    ensures r.status == 200 ==> r.envelope == DataEnvelope(outcome.data)
    ensures r.status == 500 <==> r.sent.Some? && outcome.Fail?
    ensures r.status == 500 ==>
      && r.envelope == ErrorEnvelope(HandleError(outcome.failure, SubmitFailed, host))
      && SubmitFailed <= r.envelope.error
  {
    var violations := ValidateSubmit(body, nullIsAbsent);
    if violations != [] then
      Response(400, ErrorsEnvelope(violations), None)
    else
      FilterPreservesValidity(body, nullIsAbsent);
      Respond(Service.SubmitBatchCall(FilterDynamicVariables(body), outcome, host))
  }

  /** `!batchId`: the route parameter is `undefined` or a falsy string, which only the empty string is. */
  function MissingId(batchId: Option<string>): (missing: bool)
    ensures missing <==> batchId.None? || !Truthy(JStr(batchId.value))
    ensures !missing ==> |batchId.value| >= 1
  {
    batchId.None? || batchId.value == ""
  }

  /** `cancelBatchCall` */
  function CancelBatchCallHandler(batchId: Option<string>, outcome: Outcome, host: JsHost): (r: Response)
    ensures r.status == 400 <==> MissingId(batchId)
    ensures r.status == 400 ==> r.envelope == ErrorEnvelope(MissingBatchId) && r.sent.None?
    ensures r.sent.Some? <==> !MissingId(batchId)
    ensures r.sent.Some? ==> r.sent.value == HttpRequest(Post, CancelPath(batchId.value), None)
    ensures r.status == 200 <==> r.sent.Some? && outcome.Ok?
    ensures r.status == 200 ==> r.envelope == DataEnvelope(outcome.data)
    ensures r.status == 500 <==> r.sent.Some? && outcome.Fail?
    ensures r.status == 500 ==>
      && r.envelope == ErrorEnvelope(HandleError(outcome.failure, CancelFailed, host))
      && CancelFailed <= r.envelope.error
  {
    if MissingId(batchId) then
      Response(400, ErrorEnvelope(MissingBatchId), None)
    else
      Respond(Service.CancelBatchCall(batchId.value, outcome, host))
  }

  /** `getBatchCallInfo` */
  function GetBatchCallInfoHandler(batchId: Option<string>, outcome: Outcome, host: JsHost): (r: Response)
    ensures r.status == 400 <==> MissingId(batchId)
    ensures r.status == 400 ==> r.envelope == ErrorEnvelope(MissingBatchId) && r.sent.None?
    ensures r.sent.Some? <==> !MissingId(batchId)
    ensures r.sent.Some? ==> r.sent.value == HttpRequest(Get, DetailPath(batchId.value), None)
    ensures r.status == 200 <==> r.sent.Some? && outcome.Ok?
    ensures r.status == 200 ==> r.envelope == DataEnvelope(outcome.data)
    ensures r.status == 500 <==> r.sent.Some? && outcome.Fail?
    ensures r.status == 500 ==>
      && r.envelope == ErrorEnvelope(HandleError(outcome.failure, DetailFailed, host))
      && DetailFailed <= r.envelope.error
  {
    if MissingId(batchId) then
      Response(400, ErrorEnvelope(MissingBatchId), None)
    else
      Respond(Service.GetBatchCallInfo(batchId.value, outcome, host))
  }

  /** Every handler answers with one of three codes, and `success` is true exactly on 200. */
  lemma HandlersAnswerWithThreeCodes(body: Json, nullIsAbsent: bool, batchId: Option<string>, outcome: Outcome, host: JsHost)
    ensures var r := SubmitBatchCallHandler(body, nullIsAbsent, outcome, host);
      r.status in {200, 400, 500} && (r.envelope.Success() <==> r.status == 200)
    ensures var r := CancelBatchCallHandler(batchId, outcome, host);
      r.status in {200, 400, 500} && (r.envelope.Success() <==> r.status == 200)
    ensures var r := GetBatchCallInfoHandler(batchId, outcome, host);
      r.status in {200, 400, 500} && (r.envelope.Success() <==> r.status == 200)
  {
  }
}
