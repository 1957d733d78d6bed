/**
  The body rules of the batch-calling routes (src/routes/batch-calling.routes.ts).
  `POST /submit` runs an ordered list of independent field rules over the
  untyped request body; each failing rule adds one violation carrying the
  rule's fixed message, and every rule runs (violations accumulate). The
  cancel and detail routes have no body rules.

  Whether `optional()` treats a `null` value as missing is decided inside the
  validation library, which is not part of this model, so it is the explicit
  parameter `nullIsAbsent` throughout.
 */
module Routes {

  import opened Json
  import Types

  /** Where a violation was found: a top-level field, or a field of `recipients[index]`. */
  datatype FieldPath = Top(name: string) | Elem(index: nat, name: string)

  datatype Violation = Violation(field: FieldPath, message: string)

  const CallNameRequired := "call_name es requerido"
  const AgentIdRequired := "agent_id es requerido"
  const AgentPhoneNumberIdRequired := "agent_phone_number_id es requerido"
  const RecipientsNonEmpty := "recipients debe ser un array con al menos un elemento"
  const PhoneNumberRequired := "Cada recipient debe tener un phone_number"
  const ClientDataObject := "conversation_initiation_client_data debe ser un objeto"
  const DynamicVariablesObject := "dynamic_variables debe ser un objeto"
  const ScheduledTimeInteger := "scheduled_time_unix debe ser un número entero"
  const PhoneProviderKnown := "phone_provider debe ser \"twilio\" o \"sip_trunk\""
  const IncludeDynamicVariablesBoolean := "include_dynamic_variables debe ser un booleano"

  // Value tests of the individual validators

  /** `isString().notEmpty()` */
  predicate IsNonEmptyString(v: Option<Json>) {
    v.Some? && v.value.JStr? && v.value.s != ""
  }

  /** The value is there for the purposes of `optional()`. */
  predicate IsPresent(v: Option<Json>, nullIsAbsent: bool) {
    v.Some? && !(nullIsAbsent && v.value == JNull)
  }

  /** `isInt()` */
  predicate IsInteger(v: Json) {
    v.JNum? && v.n.Floor as real == v.n
  }

  /** `isIn(['twilio', 'sip_trunk'])` */
  predicate IsKnownProvider(v: Json) {
    v.JStr? && (v.s == "twilio" || v.s == "sip_trunk")
  }

  /** `optional()` followed by a value test: a missing value passes. */
  predicate OptionalOk(v: Option<Json>, nullIsAbsent: bool, test: Json -> bool) {
    IsPresent(v, nullIsAbsent) ==> test(v.value)
  }

  // What the wildcard rules `recipients.*.<path>` look at

  /** The elements the wildcard `recipients.*` ranges over. */
  function Recipients(body: Json): seq<Json> {
    match Member(body, "recipients")
    case Some(JArr(items)) => items
    case _ => []
  }

  /** `isArray({ min: 1 })` on `recipients` */
  predicate RecipientsOk(body: Json) {
    Member(body, "recipients").Some? && Member(body, "recipients").value.JArr?
    && |Member(body, "recipients").value.items| >= 1
  }

  function ClientDataOf(r: Json): Option<Json> {
    Member(r, "conversation_initiation_client_data")
  }

  /** The nested path `conversation_initiation_client_data.dynamic_variables`, `undefined` if any step is not an object. */
  function DynamicVariablesOf(r: Json): Option<Json> {
    match ClientDataOf(r)
    case Some(c) => Member(c, "dynamic_variables")
    case None => None
  }

  datatype RecipientRule = PhoneNumberRule | ClientDataRule | DynamicVariablesRule {

    function FieldName(): string {
      match this
      case PhoneNumberRule => "phone_number"
      case ClientDataRule => "conversation_initiation_client_data"
      case DynamicVariablesRule => "conversation_initiation_client_data.dynamic_variables"
    }

    function Message(): string {
      match this
      case PhoneNumberRule => PhoneNumberRequired
      case ClientDataRule => ClientDataObject
      case DynamicVariablesRule => DynamicVariablesObject
    }

    predicate Holds(r: Json, nullIsAbsent: bool) {
      match this
      case PhoneNumberRule => IsNonEmptyString(Member(r, "phone_number"))
      case ClientDataRule => OptionalOk(ClientDataOf(r), nullIsAbsent, (v: Json) => v.JObj?)
      case DynamicVariablesRule => OptionalOk(DynamicVariablesOf(r), nullIsAbsent, (v: Json) => v.JObj?)
    }
  }

  /** One violation when the test fails, none when it passes. */
  function Check(ok: bool, field: FieldPath, message: string): seq<Violation> {
    if ok then [] else [Violation(field, message)]
  }

  /**
    A wildcard rule applied to `items[i..]`, in element order: it reports
    nothing exactly when the rule holds for every element from `i` on, and
    each report names an element in that range with the rule's field and
    message.
   */
  function EachRecipient(items: seq<Json>, rule: RecipientRule, nullIsAbsent: bool, i: nat): (vs: seq<Violation>)
    ensures vs == [] <==> forall k | i <= k < |items| :: rule.Holds(items[k], nullIsAbsent)
    ensures forall v | v in vs ::
      && v.field.Elem? && i <= v.field.index < |items|
      && v.field.name == rule.FieldName() && v.message == rule.Message()
    decreases |items| - i
  {
    if i >= |items| then
      []
    else
      Check(rule.Holds(items[i], nullIsAbsent), Elem(i, rule.FieldName()), rule.Message())
      + EachRecipient(items, rule, nullIsAbsent, i + 1)
  }

  /** The violations of the `/submit` rule chain, in rule order; none exactly when every rule holds. */
  function ValidateSubmit(body: Json, nullIsAbsent: bool): (vs: seq<Violation>)
    ensures vs == [] <==> WellFormed(body, nullIsAbsent)
  {
    var items := Recipients(body);
    Check(IsNonEmptyString(Member(body, "call_name")), Top("call_name"), CallNameRequired)
    + Check(IsNonEmptyString(Member(body, "agent_id")), Top("agent_id"), AgentIdRequired)
    + Check(IsNonEmptyString(Member(body, "agent_phone_number_id")), Top("agent_phone_number_id"), AgentPhoneNumberIdRequired)
    + Check(RecipientsOk(body), Top("recipients"), RecipientsNonEmpty)
    + EachRecipient(items, PhoneNumberRule, nullIsAbsent, 0)
    + EachRecipient(items, ClientDataRule, nullIsAbsent, 0)
    + EachRecipient(items, DynamicVariablesRule, nullIsAbsent, 0)
    + Check(OptionalOk(Member(body, "scheduled_time_unix"), nullIsAbsent, IsInteger),
            Top("scheduled_time_unix"), ScheduledTimeInteger)
    + Check(OptionalOk(Member(body, "phone_provider"), nullIsAbsent, IsKnownProvider),
            Top("phone_provider"), PhoneProviderKnown)
    + Check(OptionalOk(Member(body, "include_dynamic_variables"), nullIsAbsent, (v: Json) => v.JBool?),
            Top("include_dynamic_variables"), IncludeDynamicVariablesBoolean)
  }

  datatype Route = SubmitRoute | CancelRoute | DetailRoute

  /** The body rules each route runs before its handler. */
  function RouteViolations(route: Route, body: Json, nullIsAbsent: bool): (vs: seq<Violation>)
    ensures route != SubmitRoute ==> vs == []
    ensures route == SubmitRoute ==> vs == ValidateSubmit(body, nullIsAbsent)
  {
    if route == SubmitRoute then ValidateSubmit(body, nullIsAbsent) else []
  }

  /**
    An independent statement of an acceptable `/submit` body: every rule of the
    chain holds.
   */
  predicate WellFormed(body: Json, nullIsAbsent: bool) {
    && IsNonEmptyString(Member(body, "call_name"))
    && IsNonEmptyString(Member(body, "agent_id"))
    && IsNonEmptyString(Member(body, "agent_phone_number_id"))
    && RecipientsOk(body)
    && (forall i | 0 <= i < |Recipients(body)| ::
          && IsNonEmptyString(Member(Recipients(body)[i], "phone_number"))
          && OptionalOk(ClientDataOf(Recipients(body)[i]), nullIsAbsent, (v: Json) => v.JObj?)
          && OptionalOk(DynamicVariablesOf(Recipients(body)[i]), nullIsAbsent, (v: Json) => v.JObj?))
    && OptionalOk(Member(body, "scheduled_time_unix"), nullIsAbsent, IsInteger)
    && OptionalOk(Member(body, "phone_provider"), nullIsAbsent, IsKnownProvider)
    && OptionalOk(Member(body, "include_dynamic_variables"), nullIsAbsent, (v: Json) => v.JBool?)
  }

  // Lemmas about the wildcard rules

  /** A wildcard rule reports element `k` exactly when `k` is in range and the rule fails on it. */
  lemma {:induction false} EachRecipientReports(items: seq<Json>, rule: RecipientRule, nullIsAbsent: bool, i: nat, v: Violation)
    ensures v in EachRecipient(items, rule, nullIsAbsent, i) <==>
      && v.field.Elem? && i <= v.field.index < |items|
      && v.field.name == rule.FieldName() && v.message == rule.Message()
      && !rule.Holds(items[v.field.index], nullIsAbsent)
    decreases |items| - i
  {
    if i < |items| {
      EachRecipientReports(items, rule, nullIsAbsent, i + 1, v);
    }
  }

  /** Membership of a top-level violation: the wildcard rules only report element paths. */
  lemma TopViolation(body: Json, nullIsAbsent: bool, name: string, message: string)
    ensures Violation(Top(name), message) in ValidateSubmit(body, nullIsAbsent) <==>
      || (name == "call_name" && message == CallNameRequired && !IsNonEmptyString(Member(body, "call_name")))
      || (name == "agent_id" && message == AgentIdRequired && !IsNonEmptyString(Member(body, "agent_id")))
      || (name == "agent_phone_number_id" && message == AgentPhoneNumberIdRequired
          && !IsNonEmptyString(Member(body, "agent_phone_number_id")))
      || (name == "recipients" && message == RecipientsNonEmpty && !RecipientsOk(body))
      || (name == "scheduled_time_unix" && message == ScheduledTimeInteger
          && !OptionalOk(Member(body, "scheduled_time_unix"), nullIsAbsent, IsInteger))
      || (name == "phone_provider" && message == PhoneProviderKnown
          && !OptionalOk(Member(body, "phone_provider"), nullIsAbsent, IsKnownProvider))
      || (name == "include_dynamic_variables" && message == IncludeDynamicVariablesBoolean
          && !OptionalOk(Member(body, "include_dynamic_variables"), nullIsAbsent, (v: Json) => v.JBool?))
  {
    var items := Recipients(body);
    var v := Violation(Top(name), message);
    var a := Check(IsNonEmptyString(Member(body, "call_name")), Top("call_name"), CallNameRequired);
    var b := Check(IsNonEmptyString(Member(body, "agent_id")), Top("agent_id"), AgentIdRequired);
    var c := Check(IsNonEmptyString(Member(body, "agent_phone_number_id")), Top("agent_phone_number_id"), AgentPhoneNumberIdRequired);
    var d := Check(RecipientsOk(body), Top("recipients"), RecipientsNonEmpty);
    var e1 := EachRecipient(items, PhoneNumberRule, nullIsAbsent, 0);
    var e2 := EachRecipient(items, ClientDataRule, nullIsAbsent, 0);
    var e3 := EachRecipient(items, DynamicVariablesRule, nullIsAbsent, 0);
    var f := Check(OptionalOk(Member(body, "scheduled_time_unix"), nullIsAbsent, IsInteger),
                   Top("scheduled_time_unix"), ScheduledTimeInteger);
    var g := Check(OptionalOk(Member(body, "phone_provider"), nullIsAbsent, IsKnownProvider),
                   Top("phone_provider"), PhoneProviderKnown);
    var h := Check(OptionalOk(Member(body, "include_dynamic_variables"), nullIsAbsent, (v: Json) => v.JBool?),
                   Top("include_dynamic_variables"), IncludeDynamicVariablesBoolean);
    assert ValidateSubmit(body, nullIsAbsent) == a + b + c + d + e1 + e2 + e3 + f + g + h;
    EachRecipientReports(items, PhoneNumberRule, nullIsAbsent, 0, v);
    EachRecipientReports(items, ClientDataRule, nullIsAbsent, 0, v);
    EachRecipientReports(items, DynamicVariablesRule, nullIsAbsent, 0, v);
    assert v !in e1 && v !in e2 && v !in e3;
    assert v in ValidateSubmit(body, nullIsAbsent) <==>
      v in a || v in b || v in c || v in d || v in f || v in g || v in h;
  }

  /** `call_name`, `agent_id` and `agent_phone_number_id` are each rejected, with their own message, unless a non-empty string. */
  lemma RequiredStringRejected(body: Json, nullIsAbsent: bool)
    ensures Violation(Top("call_name"), CallNameRequired) in ValidateSubmit(body, nullIsAbsent)
      <==> !IsNonEmptyString(Member(body, "call_name"))
    ensures Violation(Top("agent_id"), AgentIdRequired) in ValidateSubmit(body, nullIsAbsent)
      <==> !IsNonEmptyString(Member(body, "agent_id"))
    ensures Violation(Top("agent_phone_number_id"), AgentPhoneNumberIdRequired) in ValidateSubmit(body, nullIsAbsent)
      <==> !IsNonEmptyString(Member(body, "agent_phone_number_id"))
  {
    TopViolation(body, nullIsAbsent, "call_name", CallNameRequired);
    TopViolation(body, nullIsAbsent, "agent_id", AgentIdRequired);
    TopViolation(body, nullIsAbsent, "agent_phone_number_id", AgentPhoneNumberIdRequired);
  }

  /** `recipients` is rejected unless it is an array with at least one element. */
  lemma RecipientsRejected(body: Json, nullIsAbsent: bool)
    ensures Violation(Top("recipients"), RecipientsNonEmpty) in ValidateSubmit(body, nullIsAbsent) <==>
      !(Member(body, "recipients").Some? && Member(body, "recipients").value.JArr?
        && |Member(body, "recipients").value.items| >= 1)
  {
    TopViolation(body, nullIsAbsent, "recipients", RecipientsNonEmpty);
  }

  /** The optional fields are rejected only when present and of the wrong kind. */
  lemma OptionalFieldsRejected(body: Json, nullIsAbsent: bool)
    ensures Violation(Top("scheduled_time_unix"), ScheduledTimeInteger) in ValidateSubmit(body, nullIsAbsent) <==>
      IsPresent(Member(body, "scheduled_time_unix"), nullIsAbsent) && !IsInteger(Member(body, "scheduled_time_unix").value)
    ensures Violation(Top("phone_provider"), PhoneProviderKnown) in ValidateSubmit(body, nullIsAbsent) <==>
      && IsPresent(Member(body, "phone_provider"), nullIsAbsent)
      && Member(body, "phone_provider").value != JStr("twilio")
      && Member(body, "phone_provider").value != JStr("sip_trunk")
    ensures Violation(Top("include_dynamic_variables"), IncludeDynamicVariablesBoolean) in ValidateSubmit(body, nullIsAbsent) <==>
      IsPresent(Member(body, "include_dynamic_variables"), nullIsAbsent) && !Member(body, "include_dynamic_variables").value.JBool?
  {
    TopViolation(body, nullIsAbsent, "scheduled_time_unix", ScheduledTimeInteger);
    TopViolation(body, nullIsAbsent, "phone_provider", PhoneProviderKnown);
    TopViolation(body, nullIsAbsent, "include_dynamic_variables", IncludeDynamicVariablesBoolean);
  }

  /** Membership of an element violation: only the wildcard rules report element paths. */
  lemma ElemViolation(body: Json, nullIsAbsent: bool, v: Violation)
    requires v.field.Elem?
    ensures v in ValidateSubmit(body, nullIsAbsent) <==>
      || v in EachRecipient(Recipients(body), PhoneNumberRule, nullIsAbsent, 0)
      || v in EachRecipient(Recipients(body), ClientDataRule, nullIsAbsent, 0)
      || v in EachRecipient(Recipients(body), DynamicVariablesRule, nullIsAbsent, 0)
  {
  }

  /** A wildcard rule's violation at index `i` is in the list exactly when recipient `i` exists and fails that rule. */
  lemma RecipientRuleRejected(body: Json, nullIsAbsent: bool, i: nat, rule: RecipientRule)
    ensures Violation(Elem(i, rule.FieldName()), rule.Message()) in ValidateSubmit(body, nullIsAbsent) <==>
      i < |Recipients(body)| && !rule.Holds(Recipients(body)[i], nullIsAbsent)
  {
    var items := Recipients(body);
    var v := Violation(Elem(i, rule.FieldName()), rule.Message());
    ElemViolation(body, nullIsAbsent, v);
    EachRecipientReports(items, rule, nullIsAbsent, 0, v);
    assert forall other: RecipientRule | other != rule :: other.FieldName() != rule.FieldName();
  }

  /** Every recipient without a non-empty string `phone_number` is reported, at its own index, and no other is. */
  lemma PhoneNumberRejected(body: Json, nullIsAbsent: bool, i: nat)
    ensures Violation(Elem(i, "phone_number"), PhoneNumberRequired) in ValidateSubmit(body, nullIsAbsent) <==>
      i < |Recipients(body)| && !IsNonEmptyString(Member(Recipients(body)[i], "phone_number"))
  {
    RecipientRuleRejected(body, nullIsAbsent, i, PhoneNumberRule);
  }

  /** The initiation data and its `dynamic_variables` are reported only when present and not objects. */
  lemma ClientDataRejected(body: Json, nullIsAbsent: bool, i: nat)
    ensures Violation(Elem(i, "conversation_initiation_client_data"), ClientDataObject) in ValidateSubmit(body, nullIsAbsent) <==>
      && i < |Recipients(body)|
      && IsPresent(ClientDataOf(Recipients(body)[i]), nullIsAbsent)
      && !ClientDataOf(Recipients(body)[i]).value.JObj?
    ensures
      (Violation(Elem(i, "conversation_initiation_client_data.dynamic_variables"), DynamicVariablesObject)
         in ValidateSubmit(body, nullIsAbsent)) <==>
      && i < |Recipients(body)|
      && IsPresent(DynamicVariablesOf(Recipients(body)[i]), nullIsAbsent)
      && !DynamicVariablesOf(Recipients(body)[i]).value.JObj?
  {
    RecipientRuleRejected(body, nullIsAbsent, i, ClientDataRule);
    RecipientRuleRejected(body, nullIsAbsent, i, DynamicVariablesRule);
  }

  /** Every violation names the field it is about, with that field's own message. */
  lemma ViolationsAreRuleMessages(body: Json, nullIsAbsent: bool, v: Violation)
    requires v in ValidateSubmit(body, nullIsAbsent)
    ensures v.field.Top? ==>
      || (v.field.name == "call_name" && v.message == CallNameRequired)
      || (v.field.name == "agent_id" && v.message == AgentIdRequired)
      || (v.field.name == "agent_phone_number_id" && v.message == AgentPhoneNumberIdRequired)
      || (v.field.name == "recipients" && v.message == RecipientsNonEmpty)
      || (v.field.name == "scheduled_time_unix" && v.message == ScheduledTimeInteger)
      || (v.field.name == "phone_provider" && v.message == PhoneProviderKnown)
      || (v.field.name == "include_dynamic_variables" && v.message == IncludeDynamicVariablesBoolean)
    ensures v.field.Elem? ==>
      && v.field.index < |Recipients(body)|
      && (|| (v.field.name == "phone_number" && v.message == PhoneNumberRequired)
          || (v.field.name == "conversation_initiation_client_data" && v.message == ClientDataObject)
          || (v.field.name == "conversation_initiation_client_data.dynamic_variables" && v.message == DynamicVariablesObject))
  {
    if v.field.Top? {
      TopViolation(body, nullIsAbsent, v.field.name, v.message);
    } else {
      ElemViolation(body, nullIsAbsent, v);
      EachRecipientReports(Recipients(body), PhoneNumberRule, nullIsAbsent, 0, v);
      EachRecipientReports(Recipients(body), ClientDataRule, nullIsAbsent, 0, v);
      EachRecipientReports(Recipients(body), DynamicVariablesRule, nullIsAbsent, 0, v);
    }
  }

  // The typed request shape against the rules

  lemma EncodedRecipientRules(x: Types.Recipient, nullIsAbsent: bool)
    ensures PhoneNumberRule.Holds(Types.EncodeRecipient(x), nullIsAbsent) <==> x.phone_number != ""
    ensures ClientDataRule.Holds(Types.EncodeRecipient(x), nullIsAbsent)
    ensures DynamicVariablesRule.Holds(Types.EncodeRecipient(x), nullIsAbsent)
  {
    var e := Types.EncodeRecipient(x);
    assert Member(e, "phone_number") == Some(JStr(x.phone_number));
    if x.conversation_initiation_client_data.Some? {
      var c := x.conversation_initiation_client_data.value;
      assert ClientDataOf(e) == Some(Types.EncodeClientData(c));
      if c.dynamic_variables.Some? {
        assert DynamicVariablesOf(e) == Some(JObj(c.dynamic_variables.value));
      } else {
        assert DynamicVariablesOf(e).None?;
      }
    } else {
      assert ClientDataOf(e).None?;
    }
  }

  /** What the required-field rules read from the encoding of a typed request. */
  lemma EncodedRequiredMembers(r: Types.SubmitBatchCallRequest)
    ensures Member(Types.EncodeRequest(r), "call_name") == Some(JStr(r.call_name))
    ensures Member(Types.EncodeRequest(r), "agent_id") == Some(JStr(r.agent_id))
    ensures Member(Types.EncodeRequest(r), "agent_phone_number_id") == Some(JStr(r.agent_phone_number_id))
    ensures Member(Types.EncodeRequest(r), "recipients") == Some(JArr(Types.EncodeRecipients(r.recipients)))
  {
    var o := Types.OptionalEntries(r);
    assert "call_name" !in o && "agent_id" !in o && "agent_phone_number_id" !in o && "recipients" !in o;
  }

  /** What the optional-field rules read from the encoding of a typed request. */
  lemma EncodedOptionalMembers(r: Types.SubmitBatchCallRequest, key: string)
    requires key in {"scheduled_time_unix", "phone_provider", "include_dynamic_variables"}
    ensures Member(Types.EncodeRequest(r), key) == Member(JObj(Types.OptionalEntries(r)), key)
  {
  }

  lemma OptionalEntriesMembers(r: Types.SubmitBatchCallRequest)
    ensures Member(JObj(Types.OptionalEntries(r)), "scheduled_time_unix") == match r.scheduled_time_unix
      case Absent => None
      case Null => Some(JNull)
      case Present(t) => Some(JNum(t))
    ensures Member(JObj(Types.OptionalEntries(r)), "phone_provider") == match r.phone_provider
      case Absent => None
      case Null => Some(JNull)
      case Present(p) => Some(JStr(Types.ProviderName(p)))
    ensures Member(JObj(Types.OptionalEntries(r)), "include_dynamic_variables") ==
      if r.include_dynamic_variables.Some? then Some(JBool(r.include_dynamic_variables.value)) else None
  {
  }

  lemma EncodedRecipientsRules(r: Types.SubmitBatchCallRequest, nullIsAbsent: bool)
    ensures (forall i | 0 <= i < |Recipients(Types.EncodeRequest(r))| ::
          && IsNonEmptyString(Member(Recipients(Types.EncodeRequest(r))[i], "phone_number"))
          && OptionalOk(ClientDataOf(Recipients(Types.EncodeRequest(r))[i]), nullIsAbsent, (v: Json) => v.JObj?)
          && OptionalOk(DynamicVariablesOf(Recipients(Types.EncodeRequest(r))[i]), nullIsAbsent, (v: Json) => v.JObj?))
      <==> forall i | 0 <= i < |r.recipients| :: r.recipients[i].phone_number != ""
  {
    EncodedRequiredMembers(r);
    var items := Types.EncodeRecipients(r.recipients);
    assert Recipients(Types.EncodeRequest(r)) == items;
    forall i | 0 <= i < |items|
      ensures PhoneNumberRule.Holds(items[i], nullIsAbsent) <==> r.recipients[i].phone_number != ""
      ensures ClientDataRule.Holds(items[i], nullIsAbsent)
      ensures DynamicVariablesRule.Holds(items[i], nullIsAbsent)
    {
      EncodedRecipientRules(r.recipients[i], nullIsAbsent);
    }
  }

  /**
    The encoding of a typed request passes every rule exactly when its required
    strings and phone numbers are non-empty, it has a recipient, a scheduled
    time is an integer, and no optional field is `null` unless `null` counts
    as missing.
   */
  lemma EncodedRequestAccepted(r: Types.SubmitBatchCallRequest, nullIsAbsent: bool)
    ensures ValidateSubmit(Types.EncodeRequest(r), nullIsAbsent) == [] <==>
      && r.Complete()
      && (r.scheduled_time_unix.Present? ==> r.scheduled_time_unix.value.Floor as real == r.scheduled_time_unix.value)
      && (r.scheduled_time_unix.Null? ==> nullIsAbsent)
      && (r.phone_provider.Null? ==> nullIsAbsent)
  {
    EncodedRequiredMembers(r);
    EncodedOptionalMembers(r, "scheduled_time_unix");
    EncodedOptionalMembers(r, "phone_provider");
    EncodedOptionalMembers(r, "include_dynamic_variables");
    OptionalEntriesMembers(r);
    EncodedRecipientsRules(r, nullIsAbsent);
  }
}
