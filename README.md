# call-manager batch-calling proxy, modelled in Dafny

call-manager is a small HTTP service. It sits between an application and the
ElevenLabs batch-calling API. It exposes three routes:

- `POST /submit` starts a batch of outbound calls;
- `POST /:batchId/cancel` cancels a batch;
- `GET /:batchId` reads a batch and its recipients.

This project models the decision logic of those routes as pure functions over
parsed JSON values, and proves what each piece promises:

- **Routes** (`routes.dfy`): the `/submit` validation rule chain, as a function
  from an untyped body to the ordered list of `(field, message)` violations.
  Each violation carries its rule's `withMessage` text; where the validation
  library reports something else is listed under "## Left out".
- **Controller** (`controller.dfy`): the three handlers, as functions from the
  body or route parameter and an abstract provider outcome to a status code,
  a response envelope and the request sent to the provider (if any). Also the
  filter that strips client data when `include_dynamic_variables` is `false`.
- **Service** (`service.dfy`): the provider request paths, the pass-through of
  response data, and `handleError`, which normalizes every failure into one
  message that starts with the operation's default message.
- **Types** (`types.dfy`): the request/response record shapes and their JSON
  encodings.
- **Client** (`client.dfy`): the pure parts of the client integration example:
  - the error classifier of its catch block;
  - the terminal-status test that stops monitoring;
  - the mapping of database contacts to recipients.
- **Scenarios** (`scenarios.dfy`): end-to-end facts that combine the pieces.
- `json.dfy` (JSON values, JavaScript truthiness) and `decimal.dfy` (the
  decimal text of an integer, with its parse-back round trip) are support
  modules.

Two JavaScript built-ins are parameters, collected in `Service.JsHost`:

- `JSON.stringify`, which may throw (modelled as `None`);
- the text conversion of a non-string value in a template literal.

Whether the validation library's `optional()` treats `null` as missing is
decided inside that library, so it is the explicit boolean `nullIsAbsent`.

Two facts about the code:

- The service throws a plain `Error` that carries only a message. The error
  has no cause class and no HTTP status, and every provider failure becomes a
  500.
- The request fields are `agent_phone_number_id` and
  `conversation_initiation_client_data.dynamic_variables`.

## Model

| member | source | states |
|---|---|---|
| Routes.ValidateSubmit | src/routes/batch-calling.routes.ts:17-46 | The violations of the chain, in rule order; the list is empty exactly when every rule holds (an independent conjunction of the rules). |
| Routes.RequiredStringRejected | src/routes/batch-calling.routes.ts:18-23 | `call_name`, `agent_id` and `agent_phone_number_id` each yield their own message exactly when they are not a non-empty string. |
| Routes.RecipientsRejected | src/routes/batch-calling.routes.ts:24 | `recipients` yields its message exactly when it is not an array with at least one element. |
| Routes.PhoneNumberRejected | src/routes/batch-calling.routes.ts:25-28 | "Cada recipient debe tener un phone_number" is reported at index i exactly when recipient i exists and lacks a non-empty string `phone_number`. |
| Routes.ClientDataRejected | src/routes/batch-calling.routes.ts:29-36 | The client data and its `dynamic_variables` are reported at index i exactly when present and not objects; an absent value is never reported. |
| Routes.OptionalFieldsRejected | src/routes/batch-calling.routes.ts:37-45 | `scheduled_time_unix`, `phone_provider` and `include_dynamic_variables` are reported exactly when present and not an integer, not `twilio`/`sip_trunk`, not a boolean. |
| Routes.TopViolation | src/routes/batch-calling.routes.ts:17-46 | A top-level violation is in the list exactly when its own rule fails, with its own message. |
| Routes.ElemViolation | src/routes/batch-calling.routes.ts:25-36 | Element-path violations come only from the three wildcard rules. |
| Routes.EachRecipient | src/routes/batch-calling.routes.ts:25-36 | A wildcard rule reports nothing exactly when it holds for every recipient, and each report names an in-range recipient with the rule's field and message. |
| Routes.RecipientRuleRejected | src/routes/batch-calling.routes.ts:25-36 | A wildcard rule's violation at index i is in the list exactly when recipient i exists and fails that rule. |
| Routes.EachRecipientReports | src/routes/batch-calling.routes.ts:25-36 | A wildcard rule reports element k, with its field and message, exactly when k is in range and the rule fails on that element. |
| Routes.ViolationsAreRuleMessages | src/routes/batch-calling.routes.ts:17-46 | Every violation names one of the seven top-level fields or a field of an in-range recipient, with that field's own message. |
| Routes.RouteViolations | src/routes/batch-calling.routes.ts:54-60 | The cancel and detail routes run no body rules; `/submit` runs the chain. |
| Routes.EncodedRecipientRules | src/types/elevenlabs.types.ts:8-12 | An encoded typed recipient always passes the client-data rules, and passes the phone rule exactly when its phone number is non-empty. |
| Routes.EncodedRequestAccepted | src/types/elevenlabs.types.ts:14-22 | The encoding of a typed request passes validation exactly when its strings and phones are non-empty, it has a recipient, its schedule is an integer, and any `null` optional counts as missing. |
| Controller.DropsDynamicVariables | src/controllers/batch-calling.controller.ts:26 | The filter applies exactly when the flag is a boolean and falsy, i.e. strictly `false`; a missing, `null`, `0` or `""` flag does not trigger it. |
| Controller.FilterDynamicVariables | src/controllers/batch-calling.controller.ts:23-35 | With the flag not exactly `false` the body is sent unchanged; otherwise every other top-level field stays and each recipient becomes exactly its `phone_number` and `id`, in order. |
| Controller.Identity | src/controllers/batch-calling.controller.ts:29-33 | The rebuilt recipient has only `phone_number` and `id`, both equal to the original's. |
| Controller.FilterStripsClientData | src/controllers/batch-calling.controller.ts:26-34 | After filtering, recipient i has no client data and keeps its phone number and id. |
| Controller.FilterIdempotent | src/controllers/batch-calling.controller.ts:26-35 | Filtering twice is the same as filtering once. |
| Controller.WellFormedIsFilterable | src/controllers/batch-calling.controller.ts:14-29 | A body that passed validation has no `null` recipient, so the filter's `map` cannot throw. |
| Controller.FilterPreservesValidity | src/controllers/batch-calling.controller.ts:23-35 | The filtered body of a valid body is still valid. |
| Controller.FilterRequest | src/controllers/batch-calling.controller.ts:26-35 | The typed filter leaves a request whose flag is not `false` unchanged; with the flag `false` every other field stays and each recipient, in order, loses its client data. |
| Controller.WithoutClientData | src/controllers/batch-calling.controller.ts:29-33 | A typed recipient keeps its phone number and id and loses its client data. |
| Controller.FilterCommutesWithEncoding | src/controllers/batch-calling.controller.ts:26-35 | Filtering the encoded request equals encoding the filtered typed request. |
| Controller.IdentityOfEncodedRecipient | src/controllers/batch-calling.controller.ts:29-33 | Rebuilding an encoded recipient equals encoding it without client data. |
| Controller.ErrorText | src/controllers/batch-calling.controller.ts:48 | A thrown `Error` reports its message; any other thrown value reports "Error desconocido". |
| Controller.Respond | src/controllers/batch-calling.controller.ts:40-50 | Success gives 200 with the data unchanged; a throw gives 500 with the error text. |
| Controller.SubmitBatchCallHandler | src/controllers/batch-calling.controller.ts:11-51 | 400 with all violations, and no provider call, exactly when validation fails; otherwise the filtered body is posted to the submit path; 200 with the data unchanged on success, 500 with the normalized message on failure. |
| Controller.MissingId | src/controllers/batch-calling.controller.ts:60 | `!batchId` holds exactly when the id is missing or a falsy string; a present id has at least one character. |
| Controller.CancelBatchCallHandler | src/controllers/batch-calling.controller.ts:56-82 | 400 "El parámetro batchId es requerido", and no call, exactly when the id is missing or empty; otherwise a POST to the cancel path and 200 or 500 by outcome. |
| Controller.GetBatchCallInfoHandler | src/controllers/batch-calling.controller.ts:87-113 | The same guard, then a GET of the detail path and 200 or 500 by outcome. |
| Controller.HandlersAnswerWithThreeCodes | src/controllers/batch-calling.controller.ts:11-113 | Every handler answers 200, 400 or 500, and the envelope signals success exactly on 200. |
| Service.SubmitPath | src/services/elevenlabs.service.ts:35 | The submit path is `/v1/convai/batch-calling/submit`. |
| Service.CancelPath | src/services/elevenlabs.service.ts:58 | The cancel path is the fixed prefix, the batch id verbatim, then `/cancel`. |
| Service.DetailPath | src/services/elevenlabs.service.ts:86 | The detail path is the fixed prefix followed by the batch id verbatim. |
| Service.PathsInjective | src/services/elevenlabs.service.ts:58-86 | Distinct ids give distinct cancel paths and distinct detail paths. |
| Service.DetailPathCollisions | src/services/elevenlabs.service.ts:35-86 | Because the id is not escaped, the detail path equals the submit path exactly for id `submit`, and equals a cancel path exactly for an id ending in `/cancel`. |
| Service.ExtractMessage | src/services/elevenlabs.service.ts:104-121 | A missing or falsy body leaves the default; else a string body is used verbatim, else a truthy `detail`, else a truthy `message`, else the serialized body or "Error desconocido de ElevenLabs" when serializing throws. |
| Service.StatusText | src/services/elevenlabs.service.ts:131 | The status text is `unknown` exactly when the status is missing or 0; otherwise it is the status in decimal and reads back as that status. |
| Service.HandleError | src/services/elevenlabs.service.ts:97-143 | The message always starts with the default message; an HTTP error gives `default: msg (Status: s)`, another `Error` gives `default: message`, anything else the default alone. |
| Service.Settle | src/services/elevenlabs.service.ts:42-45 | A success returns the data unchanged; a failure throws the normalized error. |
| Service.SubmitBatchCall | src/services/elevenlabs.service.ts:29-46 | POST to `/v1/convai/batch-calling/submit` with the data; returns the response data unchanged or throws `handleError` with "Error al disparar batch de llamadas". |
| Service.CancelBatchCall | src/services/elevenlabs.service.ts:53-76 | POST to the cancel path without a body; returns the data unchanged or throws with "Error al cancelar batch de llamadas". |
| Service.GetBatchCallInfo | src/services/elevenlabs.service.ts:83-92 | GET of the detail path; returns the data unchanged or throws with "Error al obtener información del batch". |
| Service.StringBodyVerbatim | src/services/elevenlabs.service.ts:106-108 | A string body is the message verbatim; the empty string is falsy and leaves the default. |
| Service.DetailBeforeMessage | src/services/elevenlabs.service.ts:109-112 | A truthy `detail` wins; `message` is used only when `detail` is falsy. |
| Service.SerializedFallback | src/services/elevenlabs.service.ts:113-119 | With neither field usable the body is serialized, or "Error desconocido de ElevenLabs" when serializing throws. |
| Service.FalsyBodyKeepsDefault | src/services/elevenlabs.service.ts:104-106 | A missing or falsy body leaves the default message. |
| Service.TransportFailureMessage | src/services/elevenlabs.service.ts:98-133 | A failure without a response repeats the default message and reports the status as `unknown`. |
| Service.TypedErrorBodyMessage | src/services/elevenlabs.service.ts:99-120 | For the error body the provider is expected to send, a non-empty `detail` is the message, else a non-empty `message`, else the serialized body. |
| Types.ProviderName | src/types/elevenlabs.types.ts:20 | A provider is written as `twilio` or `sip_trunk`. |
| Types.StatusNameInjective | src/types/elevenlabs.types.ts:34 | The five batch statuses have distinct wire names. |
| Types.EncodeRecipients | src/types/elevenlabs.types.ts:18 | The recipients are encoded one for one, in order. |
| Types.OptionalEntries | src/types/elevenlabs.types.ts:19-21 | The optional request properties never overwrite a required one. |
| Decimal.NatToDecimalValue | src/services/elevenlabs.service.ts:131 | The decimal text of a status has the status as its value. |
| Decimal.IntToDecimalRoundTrip | src/services/elevenlabs.service.ts:131 | Reading back the decimal text of any integer gives that integer. |
| Decimal.NatToDecimalInjective | src/services/elevenlabs.service.ts:131 | Distinct numbers have distinct decimal texts. |
| Client.ClassifyError | examples/simbiosia-integration.ts:238-270 | Each class is chosen exactly by its own condition, status checks before code checks: 400 is a validation error with the `errors` list, 500 a server error with `error`, ECONNREFUSED a connection error, ECONNABORTED a timeout, anything else an unknown error with the message; a throw inside the catch block happens only on a 400 or 500. |
| Client.KindIdentifiesClass | examples/simbiosia-integration.ts:246-269 | The five `error` strings are distinct, so each failure gets exactly one class. |
| Client.Classified.ToJson | examples/simbiosia-integration.ts:246-269 | Every classified result has `success: false` and names its class; a validation error adds exactly `details`, a server error `message` from the response, an unknown error exactly the error's `message`, and connection and timeout errors nothing else. |
| Client.ValidationResponseClassified | examples/simbiosia-integration.ts:240-246 | The service's 400 validation response classifies as a validation error carrying all its violations. |
| Client.ServerFailureClassified | examples/simbiosia-integration.ts:250-253 | The service's 500 response classifies as a server error carrying its `error` text. |
| Client.IsFinished | examples/simbiosia-integration.ts:163-165 | For every provider status, monitoring stops exactly on `completed`, `failed` or `cancelled`, and continues on `pending` and `in_progress`. |
| Client.FinishedOnlyOnStatusName | examples/simbiosia-integration.ts:163-165 | Only a provider status name stops monitoring. |
| Client.ContactToRecipient | examples/simbiosia-integration.ts:192-203 | A recipient's `phone_number` is the contact's `telefono`, and its dynamic variables are the contact's variables. |
| Client.ContactsToRecipients | examples/simbiosia-integration.ts:192 | The mapping keeps length and order, and fails exactly when a contact is `null`. |
| Client.ContactVariables | examples/simbiosia-integration.ts:195-201 | The spread custom fields win on every key they carry; every other key is present exactly when it is `nombre`, `apellido` or `empresa` and the contact has it, with the contact's value. |
| Client.Spread | examples/simbiosia-integration.ts:200 | Spreading an object copies its entries; an array or string puts each element or character under its decimal index, with only digit keys; `undefined`, `null`, booleans and numbers spread nothing. |
| Client.IndexedCustomFieldsKeepNames | examples/simbiosia-integration.ts:195-201 | Custom fields given as an array spread into digit keys, so they never replace a name field. |
| Client.Indexed | examples/simbiosia-integration.ts:200 | Spreading an array puts each element under its decimal index, and every key is a digit string. |
| Client.MappedRecipientRules | examples/simbiosia-integration.ts:192-203 | A mapped recipient passes the route's client-data rules, and its phone rule exactly when `telefono` is a non-empty string. |
| Scenarios.AcceptedRequestForwarded | src/controllers/batch-calling.controller.ts:23-43 | An accepted typed request is posted as its own encoding (filtered only when the flag is `false`), and a success is relayed unchanged. |
| Scenarios.PromoSubmitted | src/controllers/batch-calling.controller.ts:11-43 | A one-recipient campaign is posted unchanged to the submit path and answered 200 with the provider's summary. |
| Scenarios.DetailNotFound | src/services/elevenlabs.service.ts:97-133 | A 404 with `detail: "batch not found"` becomes 500 "Error al obtener información del batch: batch not found (Status: 404)". |
| Scenarios.CancelRejected | src/services/elevenlabs.service.ts:97-133 | A 400 with `message: "invalid batch"` becomes 500 "Error al cancelar batch de llamadas: invalid batch (Status: 400)". |
| Scenarios.SubmitUnreachable | src/services/elevenlabs.service.ts:98-133 | When the provider cannot be reached, a valid submission gets 500 with the default message twice and `(Status: unknown)`. |

## Left out

- The Express app, server start-up, middleware and environment loading (`src/app.ts`, `src/server.ts`, `src/config/env.ts`) have no decision logic.
- The HTTP client is an abstract outcome. Left out are its construction, base URL, API-key header and the network round trip. The 30-second timeout is only the constant `Service.RequestTimeoutMs`; a timeout arrives as a failure without a response.
- All console logging is left out, and so is the extra error logging before `handleError` in the cancel operation: it has no effect on the result.
- Validation library internals are left out:
  - `bail` behaviour;
  - string coercion inside `isInt()` and `isBoolean()` (the model accepts only JSON integers and booleans);
  - the wildcard `recipients.*` over an object-valued `recipients` (the model ranges only over arrays).
- Routes.ValidateSubmit: reports one violation per failing rule, always with the rule's `withMessage` text. In the library that text belongs to `notEmpty()` alone; a failing `isString()` reports the library's default message. So a missing value gets both messages, and a non-empty value that is not a string (`call_name: 42`, `phone_number: 5551234`) gets only the default message. The model reports the rule's text in both cases.
- Routes.RequiredStringRejected: its "exactly when" is the model's rule of one violation per failing chain, not the library's output; the same difference applies.
- Routes.PhoneNumberRejected: the same difference for `recipients.*.phone_number`.
- Routes.OptionalFieldsRejected: the library's standard validators (`isInt`, `isIn`, `isBoolean`) check each element of an array value, so `phone_provider: ["twilio"]`, `include_dynamic_variables: [false]` and `scheduled_time_unix: []` pass in the library and are rejected by the model.
- Routes.OptionalFieldsRejected: for `scheduled_time_unix`, `isInt()` tests the text of the number, so a large integral value written in exponent form (`1e21`, text `1e+21`) is rejected by the library and accepted by the model.
- Whether `optional()` treats `null` as missing is the parameter `nullIsAbsent`, not a fixed choice.
- The validation error objects reach the client with only `msg` and `path`; the library's `type`, `value` and `location` fields are left out.
- `JSON.stringify` and the text conversion of non-string values are parameters (`Service.JsHost`), not verified serializers.
- JavaScript numbers are Dafny reals. A JSON property whose value is `undefined` is treated as absent, as serialization drops it.
- In the client example, timers and polling (`setInterval`), the clock (`Date.now()`, `toLocaleDateString()`) and the async request functions are left out.
- Client.ContactToRecipient: reading a property of a contact that is not an object gives `undefined`, as in JavaScript, except for `null`. `null` contacts are handled by `ContactsToRecipients`, which fails on them.
- Client.Spread: a Dafny string is a sequence of code points, while a JavaScript object spread splits a string into UTF-16 code units. A character outside the Basic Multilingual Plane therefore gives two index keys in JavaScript and one in the model.
- Client.Indexed: states the elements under their index keys and that every key is a digit string. It does not state that the key set is exactly the indices.
- The response record shapes (`BatchCallResponse`, `RecipientDetail`, `BatchCallDetailResponse`) are datatypes with an encoding. The service passes provider data through without checking its shape, so nothing is proved about them beyond that pass-through.
