/**
  The pure parts of the client integration example
  (examples/simbiosia-integration.ts): the catch block that classifies a
  failed `/submit` call, the test that stops monitoring a batch, and the
  mapping of database contacts to recipients.

  A TypeError raised inside the catch block itself (reading a property of
  `null`, calling `forEach` on something that is not an array) is the
  outcome `Rejected`.
 */
module Client {

  import opened Json
  import Decimal
  import Types
  import Routes
  import Controller

  /** The HTTP response carried by a failed request, as the client sees it. */
  datatype ClientResponse = ClientResponse(status: int, data: Json)

  /** The caught error: `error.response`, `error.code` and `error.message`. */
  datatype ClientError = ClientError(response: Option<ClientResponse>, code: Option<string>, message: string)

  /** The object the catch block returns, always with `success: false`. */
  datatype Classified =
    | ValidationError(details: Json)
    | ServerError(serverMessage: Option<Json>)
    | ConnectionError
    | TimeoutError
    | UnknownError(errorMessage: string)
  {
    function Kind(): string {
      match this
      case ValidationError(_) => "validation_error"
      case ServerError(_) => "server_error"
      case ConnectionError => "connection_error"
      case TimeoutError => "timeout_error"
      case UnknownError(_) => "unknown_error"
    }

    /** The returned object: `{success: false, error: kind}` plus `details` or `message` where the source adds one. */
    function ToJson(): (j: Json)
      ensures Member(j, "success") == Some(JBool(false))
      ensures Member(j, "error") == Some(JStr(Kind()))
      ensures ValidationError? ==> j.fields.Keys == {"success", "error", "details"} && Member(j, "details") == Some(details)
      ensures ServerError? ==> Member(j, "message") == serverMessage
      ensures UnknownError? ==> j.fields.Keys == {"success", "error", "message"} && Member(j, "message") == Some(JStr(errorMessage))
      ensures ConnectionError? || TimeoutError? ==> j.fields.Keys == {"success", "error"}
    {
      var base := map["success" := JBool(false), "error" := JStr(Kind())];
      match this
      case ValidationError(d) => JObj(base["details" := d])
      case ServerError(m) => JObj(base + Entry("message", m))
      case ConnectionError => JObj(base)
      case TimeoutError => JObj(base)
      case UnknownError(m) => JObj(base["message" := JStr(m)])
    }
  }

  datatype Handled = Returned(classified: Classified) | Rejected

  /** `error.response?.status === s` */
  predicate HasStatus(e: ClientError, s: int) {
    e.response.Some? && e.response.value.status == s
  }

  /** What `forEach` in the 400 branch can walk without throwing: an array with no `null` entry. */
  predicate Walkable(errors: Option<Json>) {
    errors.Some? && errors.value.JArr? && JNull !in errors.value.items
  }

  /**
    The catch block of `dispararConManejoDeErrores`. Each class is chosen
    exactly by its own condition, and the status checks come first: a 400 or
    500 response is never a connection or timeout error.
   */
  function ClassifyError(e: ClientError): (h: Handled)
    ensures h.Returned? && h.classified.ValidationError? <==>
      HasStatus(e, 400) && e.response.value.data != JNull && Walkable(Member(e.response.value.data, "errors"))
    ensures h.Returned? && h.classified.ValidationError? ==>
      h.classified.details == e.response.value.data.fields["errors"]
    ensures h.Returned? && h.classified.ServerError? <==>
      HasStatus(e, 500) && e.response.value.data != JNull
    ensures h.Returned? && h.classified.ServerError? ==>
      h.classified.serverMessage == Member(e.response.value.data, "error")
    ensures h == Returned(ConnectionError) <==>
      !HasStatus(e, 400) && !HasStatus(e, 500) && e.code == Some("ECONNREFUSED")
    ensures h == Returned(TimeoutError) <==>
      !HasStatus(e, 400) && !HasStatus(e, 500) && e.code == Some("ECONNABORTED")
    ensures h.Returned? && h.classified.UnknownError? <==>
      !HasStatus(e, 400) && !HasStatus(e, 500) && e.code != Some("ECONNREFUSED") && e.code != Some("ECONNABORTED")
    ensures h.Returned? && h.classified.UnknownError? ==>
      h.classified.errorMessage == e.message
    ensures h.Rejected? ==> HasStatus(e, 400) || HasStatus(e, 500)
  {
    if HasStatus(e, 400) then
      var data := e.response.value.data;
      if data == JNull || !Walkable(Member(data, "errors")) then Rejected
      else Returned(ValidationError(Member(data, "errors").value))
    else if HasStatus(e, 500) then
      var data := e.response.value.data;
      if data == JNull then Rejected
      else Returned(ServerError(Member(data, "error")))
    else if e.code == Some("ECONNREFUSED") then Returned(ConnectionError)
    else if e.code == Some("ECONNABORTED") then Returned(TimeoutError)
    else Returned(UnknownError(e.message))
  }

  /** The five kinds are distinct strings, so the returned `error` names exactly one class. */
  lemma KindIdentifiesClass(c: Classified, d: Classified)
    ensures c.Kind() == d.Kind() ==>
      && (c.ValidationError? <==> d.ValidationError?)
      && (c.ServerError? <==> d.ServerError?)
      && (c.ConnectionError? <==> d.ConnectionError?)
      && (c.TimeoutError? <==> d.TimeoutError?)
      && (c.UnknownError? <==> d.UnknownError?)
  {
    if c.Kind() == d.Kind() {
      assert c.Kind()[0] == d.Kind()[0];
      assert c.Kind()[1] == d.Kind()[1];
    }
  }

  // Against the service's own responses

  /** How the service's envelope reaches the client: the JSON body of the response. */
  function EnvelopeJson(env: Controller.Envelope): (j: Json)
    ensures Member(j, "success") == Some(JBool(env.Success()))
  {
    match env
    case DataEnvelope(d) => JObj(map["success" := JBool(true), "data" := d])
    case ErrorsEnvelope(vs) =>
      JObj(map["success" := JBool(false), "errors" := JArr(seq(|vs|, i requires 0 <= i < |vs| => ViolationJson(vs[i])))])
    case ErrorEnvelope(m) => JObj(map["success" := JBool(false), "error" := JStr(m)])
  }

  /** A violation as the client receives it: its message as `msg` and its location as `path`. */
  function ViolationJson(v: Routes.Violation): (j: Json)
    ensures Member(j, "msg") == Some(JStr(v.message))
  {
    var path := match v.field
      case Top(name) => name
      case Elem(i, name) => "recipients[" + Decimal.NatToDecimal(i) + "]." + name;
    JObj(map["msg" := JStr(v.message), "path" := JStr(path)])
  }

  /** A rejected submission reaches the classifier as a validation error carrying every violation, in order. */
  lemma ValidationResponseClassified(vs: seq<Routes.Violation>, code: Option<string>, message: string)
    ensures var data := EnvelopeJson(Controller.ErrorsEnvelope(vs));
      ClassifyError(ClientError(Some(ClientResponse(400, data)), code, message))
        == Returned(ValidationError(data.fields["errors"]))
    ensures |EnvelopeJson(Controller.ErrorsEnvelope(vs)).fields["errors"].items| == |vs|
  {
    var data := EnvelopeJson(Controller.ErrorsEnvelope(vs));
    var items := data.fields["errors"].items;
    assert JNull !in items by {
      forall i | 0 <= i < |items|
        ensures items[i] != JNull
      {
        assert items[i] == ViolationJson(vs[i]);
      }
    }
  }

  /** A 500 from the service is a server error carrying the service's `error` text. */
  lemma ServerFailureClassified(m: string, code: Option<string>, message: string)
    ensures ClassifyError(ClientError(Some(ClientResponse(500, EnvelopeJson(Controller.ErrorEnvelope(m)))), code, message))
      == Returned(ServerError(Some(JStr(m))))
  {
  }

  // Monitoring

  /**
    `estado.status` is `completed`, `failed` or `cancelled`: monitoring stops
    exactly on the three terminal statuses, and `pending` and `in_progress`
    keep it running.
   */
  function IsFinished(status: Option<Json>): (finished: bool)
    ensures forall s: Types.BatchStatus | status == Some(JStr(Types.StatusName(s))) ::
      finished <==> s in {Types.Completed, Types.Failed, Types.Cancelled}
  {
    status == Some(JStr("completed")) || status == Some(JStr("failed")) || status == Some(JStr("cancelled"))
  }

  /** Only a provider status name can stop monitoring. */
  lemma FinishedOnlyOnStatusName(status: Option<Json>)
    requires IsFinished(status)
    ensures exists s: Types.BatchStatus :: status == Some(JStr(Types.StatusName(s)))
  {
    if status == Some(JStr("completed")) {
      assert status == Some(JStr(Types.StatusName(Types.Completed)));
    } else if status == Some(JStr("failed")) {
      assert status == Some(JStr(Types.StatusName(Types.Failed)));
    } else {
      assert status == Some(JStr(Types.StatusName(Types.Cancelled)));
    }
  }

  // Contacts to recipients

  /** `{...v}` for the value being spread: an object's own entries, a string's characters or an array's elements under their index, nothing for anything else. */
  function Spread(v: Option<Json>): (m: map<string, Json>)
    ensures v.Some? && v.value.JObj? ==> m == v.value.fields
    ensures v.Some? && v.value.JArr? ==>
      forall i | 0 <= i < |v.value.items| :: Decimal.NatToDecimal(i) in m && m[Decimal.NatToDecimal(i)] == v.value.items[i]
    ensures v.Some? && v.value.JStr? ==>
      forall i | 0 <= i < |v.value.s| :: Decimal.NatToDecimal(i) in m && m[Decimal.NatToDecimal(i)] == JStr([v.value.s[i]])
    ensures !(v.Some? && v.value.JObj?) ==> forall k | k in m :: Decimal.IsDigits(k)
    ensures v.None? || v.value.JNull? || v.value.JBool? || v.value.JNum? ==> m == map[]
  {
    match v
    case Some(JObj(m)) => m
    case Some(JStr(s)) => Indexed(seq(|s|, i requires 0 <= i < |s| => JStr([s[i]])))
    case Some(JArr(items)) => Indexed(items)
    case _ => map[]
  }

  /** Each element under the decimal text of its index; every key is a digit string. */
  function Indexed(items: seq<Json>): (m: map<string, Json>)
    ensures forall k | k in m :: Decimal.IsDigits(k)
    ensures forall i | 0 <= i < |items| :: Decimal.NatToDecimal(i) in m && m[Decimal.NatToDecimal(i)] == items[i]
  {
    if items == [] then map[]
    else
      var n := |items| - 1;
      assert forall i | 0 <= i < n :: items[..n][i] == items[i];
      assert forall i | 0 <= i < n :: Decimal.NatToDecimal(i) != Decimal.NatToDecimal(n) by {
        forall i | 0 <= i < n {
          Decimal.NatToDecimalInjective(i, n);
        }
      }
      Indexed(items[..n])[Decimal.NatToDecimal(n) := items[n]]
  }

  /** The templating variables of one contact: its name fields, then its custom fields, which win on a clash. */
  function ContactVariables(c: Json): (vars: map<string, Json>)
    ensures forall k | k in Spread(Member(c, "camposPersonalizados")) ::
      k in vars && vars[k] == Spread(Member(c, "camposPersonalizados"))[k]
    ensures forall k | k !in Spread(Member(c, "camposPersonalizados")) ::
      && (k in vars <==> k in {"nombre", "apellido", "empresa"} && Member(c, k).Some?)
      && (k in vars ==> vars[k] == Member(c, k).value)
  {
    Entry("nombre", Member(c, "nombre"))
    + Entry("apellido", Member(c, "apellido"))
    + Entry("empresa", Member(c, "empresa"))
    + Spread(Member(c, "camposPersonalizados"))
  }

  function ContactToRecipient(c: Json): (r: Json)
    ensures Member(r, "phone_number") == Member(c, "telefono")
    ensures Member(r, "conversation_initiation_client_data")
      == Some(JObj(map["dynamic_variables" := JObj(ContactVariables(c))]))
  {
    JObj(Entry("phone_number", Member(c, "telefono"))
      + map["conversation_initiation_client_data" := JObj(map["dynamic_variables" := JObj(ContactVariables(c))])])
  }

  /** `contactos.map(...)`: one recipient per contact, in order; a `null` contact throws. */
  function ContactsToRecipients(contacts: seq<Json>): (r: Option<seq<Json>>)
    ensures r.Some? <==> JNull !in contacts
    ensures r.Some? ==> |r.value| == |contacts|
    ensures r.Some? ==> forall i | 0 <= i < |contacts| :: r.value[i] == ContactToRecipient(contacts[i])
  {
    if JNull in contacts then None
    else Some(seq(|contacts|, i requires 0 <= i < |contacts| => ContactToRecipient(contacts[i])))
  }

  /** Every mapped recipient passes the route's per-recipient rules exactly when its `telefono` is a non-empty string. */
  lemma MappedRecipientRules(c: Json, nullIsAbsent: bool)
    ensures Routes.RecipientRule.PhoneNumberRule.Holds(ContactToRecipient(c), nullIsAbsent)
      <==> Routes.IsNonEmptyString(Member(c, "telefono"))
    ensures Routes.RecipientRule.ClientDataRule.Holds(ContactToRecipient(c), nullIsAbsent)
    ensures Routes.RecipientRule.DynamicVariablesRule.Holds(ContactToRecipient(c), nullIsAbsent)
  {
    var r := ContactToRecipient(c);
    assert Routes.ClientDataOf(r) == Some(JObj(map["dynamic_variables" := JObj(ContactVariables(c))]));
    assert Routes.DynamicVariablesOf(r) == Some(JObj(ContactVariables(c)));
  }

  /**
    Custom fields given as a string or an array spread into index keys, which
    are digit strings, so they never replace a name field; their elements
    appear under their index.
   */
  lemma IndexedCustomFieldsKeepNames(c: Json, key: string, i: nat)
    requires Member(c, "camposPersonalizados").Some? && Member(c, "camposPersonalizados").value.JArr?
    requires key in {"nombre", "apellido", "empresa"}
    ensures key in ContactVariables(c) <==> Member(c, key).Some?
    ensures key in ContactVariables(c) ==> ContactVariables(c)[key] == Member(c, key).value
    ensures i < |Member(c, "camposPersonalizados").value.items| ==>
      ContactVariables(c)[Decimal.NatToDecimal(i)] == Member(c, "camposPersonalizados").value.items[i]
  {
    var spread := Spread(Member(c, "camposPersonalizados"));
    assert !Decimal.IsDigit(key[0]);
    assert key !in spread;
  }
}
