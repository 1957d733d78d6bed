/**
  The record shapes exchanged with the calling provider (src/types/elevenlabs.types.ts),
  and their JSON encodings. Optional TypeScript properties (`id?`) are `Option`;
  a property typed `T | null` that may also be missing is `Nullable`.
 */
module Types {

  import opened Json

  datatype PhoneProvider = Twilio | SipTrunk

  /** The string a provider is written as on the wire. */
  function ProviderName(p: PhoneProvider): (s: string)
    ensures s == "twilio" || s == "sip_trunk"
  {
    match p
    case Twilio => "twilio"
    case SipTrunk => "sip_trunk"
  }

  /** The provider-owned lifecycle of a batch and of each of its calls. */
  datatype BatchStatus = Pending | InProgress | Completed | Failed | Cancelled

  function StatusName(s: BatchStatus): string {
    match s
    case Pending => "pending"
    case InProgress => "in_progress"
    case Completed => "completed"
    case Failed => "failed"
    case Cancelled => "cancelled"
  }

  /** Distinct statuses have distinct wire names, so the name identifies the status. */
  lemma StatusNameInjective(s: BatchStatus, t: BatchStatus)
    ensures StatusName(s) == StatusName(t) ==> s == t
  {
    if s != t {
      match s
      case Pending => assert StatusName(s)[0] == 'p' && StatusName(t)[0] != 'p';
      case InProgress => assert StatusName(s)[0] == 'i';
      case Completed => assert StatusName(s)[1] == 'o';
      case Failed => assert StatusName(s)[0] == 'f';
      case Cancelled => assert StatusName(s)[1] == 'a';
    }
  }

  /** A property that may be missing, `null`, or hold a value. */
  datatype Nullable<+T> = Absent | Null | Present(value: T)

  /** Per-recipient initiation data: the templating variables and any other properties. */
  datatype ConversationInitiationClientData =
    ConversationInitiationClientData(dynamic_variables: Option<map<string, Json>>, extra: map<string, Json>)

  datatype Recipient = Recipient(
    phone_number: string,
    id: Option<string>,
    conversation_initiation_client_data: Option<ConversationInitiationClientData>)

  datatype SubmitBatchCallRequest = SubmitBatchCallRequest(
    call_name: string,
    agent_id: string,
    agent_phone_number_id: string,
    recipients: seq<Recipient>,
    scheduled_time_unix: Nullable<real>,
    phone_provider: Nullable<PhoneProvider>,
    include_dynamic_variables: Option<bool>)
  {
    /** What the route's rules demand beyond the TypeScript shape: required strings are non-empty, there is a recipient, and each has a phone number. */
    predicate Complete() {
      && call_name != ""
      && agent_id != ""
      && agent_phone_number_id != ""
      && |recipients| >= 1
      && forall i | 0 <= i < |recipients| :: recipients[i].phone_number != ""
    }
  }

  datatype BatchCallResponse = BatchCallResponse(
    id: string,
    phone_number_id: string,
    name: string,
    agent_id: string,
    created_at_unix: int,
    scheduled_time_unix: int,
    total_calls_dispatched: int,
    total_calls_scheduled: int,
    last_updated_at_unix: int,
    status: BatchStatus,
    agent_name: string,
    phone_provider: Option<PhoneProvider>)

  datatype RecipientDetail = RecipientDetail(
    id: string,
    phone_number: string,
    status: BatchStatus,
    created_at_unix: int,
    updated_at_unix: int,
    conversation_id: Option<string>,
    conversation_initiation_client_data: Option<Json>)

  /** The detail response extends the summary with the per-recipient list. */
  datatype BatchCallDetailResponse = BatchCallDetailResponse(summary: BatchCallResponse, recipients: seq<RecipientDetail>)

  /** The error body the provider is expected to send. */
  datatype ElevenLabsError = ElevenLabsError(detail: Option<string>, message: Option<string>)

  // JSON encodings

  function OptionalString(key: string, v: Option<string>): map<string, Json> {
    if v.Some? then map[key := JStr(v.value)] else map[]
  }

  function NullableEntry(key: string, v: Nullable<Json>): map<string, Json> {
    match v
    case Absent => map[]
    case Null => map[key := JNull]
    case Present(x) => map[key := x]
  }

  function EncodeProvider(p: Nullable<PhoneProvider>): Nullable<Json> {
    match p
    case Absent => Absent
    case Null => Null
    case Present(q) => Present(JStr(ProviderName(q)))
  }

  function EncodeTime(t: Nullable<real>): Nullable<Json> {
    match t
    case Absent => Absent
    case Null => Null
    case Present(x) => Present(JNum(x))
  }

  /** The declared `dynamic_variables` property is the only source of that key. */
  function EncodeClientData(c: ConversationInitiationClientData): Json {
    JObj((c.extra - {"dynamic_variables"})
      + (if c.dynamic_variables.Some? then map["dynamic_variables" := JObj(c.dynamic_variables.value)] else map[]))
  }

  function EncodeRecipient(r: Recipient): Json {
    JObj(map["phone_number" := JStr(r.phone_number)]
      + OptionalString("id", r.id)
      + (if r.conversation_initiation_client_data.Some?
         then map["conversation_initiation_client_data" := EncodeClientData(r.conversation_initiation_client_data.value)]
         else map[]))
  }

  function EncodeRecipients(rs: seq<Recipient>): (js: seq<Json>)
    ensures |js| == |rs|
    ensures forall i | 0 <= i < |rs| :: js[i] == EncodeRecipient(rs[i])
  {
    seq(|rs|, i requires 0 <= i < |rs| => EncodeRecipient(rs[i]))
  }

  /** The entries of the optional top-level properties: none of them is a required key. */
  function OptionalEntries(r: SubmitBatchCallRequest): (m: map<string, Json>)
    ensures m.Keys <= {"scheduled_time_unix", "phone_provider", "include_dynamic_variables"}
  {
    NullableEntry("scheduled_time_unix", EncodeTime(r.scheduled_time_unix))
    + NullableEntry("phone_provider", EncodeProvider(r.phone_provider))
    + (if r.include_dynamic_variables.Some? then map["include_dynamic_variables" := JBool(r.include_dynamic_variables.value)] else map[])
  }

  function EncodeRequest(r: SubmitBatchCallRequest): Json {
    JObj(map[
        "call_name" := JStr(r.call_name),
        "agent_id" := JStr(r.agent_id),
        "agent_phone_number_id" := JStr(r.agent_phone_number_id),
        "recipients" := JArr(EncodeRecipients(r.recipients))]
      + OptionalEntries(r))
  }

  function EncodeBatchCallResponse(b: BatchCallResponse): Json {
    JObj(map[
      "id" := JStr(b.id),
      "phone_number_id" := JStr(b.phone_number_id),
      "name" := JStr(b.name),
      "agent_id" := JStr(b.agent_id),
      "created_at_unix" := JNum(b.created_at_unix as real),
      "scheduled_time_unix" := JNum(b.scheduled_time_unix as real),
      "total_calls_dispatched" := JNum(b.total_calls_dispatched as real),
      "total_calls_scheduled" := JNum(b.total_calls_scheduled as real),
      "last_updated_at_unix" := JNum(b.last_updated_at_unix as real),
      "status" := JStr(StatusName(b.status)),
      "agent_name" := JStr(b.agent_name),
      "phone_provider" := if b.phone_provider.Some? then JStr(ProviderName(b.phone_provider.value)) else JNull])
  }

  function EncodeElevenLabsError(e: ElevenLabsError): Json {
    JObj(OptionalString("detail", e.detail) + OptionalString("message", e.message))
  }
}
