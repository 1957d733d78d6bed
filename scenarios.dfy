/**
  End-to-end behaviour of the three routes, from the body or route parameter
  the caller sends to the status, envelope and provider request the
  controller produces.
 */
module Scenarios {

  import opened Json
  import opened Decimal
  import opened Types
  import opened Routes
  import opened Service
  import opened Controller

  /**
    A typed request the route accepts is forwarded as its own encoding, with
    the client data dropped only when `include_dynamic_variables` is `false`,
    and a provider answer is relayed unchanged.
   */
  lemma AcceptedRequestForwarded(r: SubmitBatchCallRequest, nullIsAbsent: bool, outcome: Outcome, host: JsHost)
    requires r.Complete()
    requires r.scheduled_time_unix.Present? ==> r.scheduled_time_unix.value.Floor as real == r.scheduled_time_unix.value
    requires r.scheduled_time_unix.Null? ==> nullIsAbsent
    requires r.phone_provider.Null? ==> nullIsAbsent
    ensures var resp := SubmitBatchCallHandler(EncodeRequest(r), nullIsAbsent, outcome, host);
      && resp.sent == Some(HttpRequest(Post, SubmitPath(), Some(EncodeRequest(FilterRequest(r)))))
      && (r.include_dynamic_variables != Some(false) ==> resp.sent.value.body == Some(EncodeRequest(r)))
      && (outcome.Ok? ==> resp.status == 200 && resp.envelope == DataEnvelope(outcome.data))
  {
    EncodedRequestAccepted(r, nullIsAbsent);
    FilterCommutesWithEncoding(r);
  }

  /** The smallest campaign: one recipient with only a phone number. */
  function Promo(): SubmitBatchCallRequest {
    SubmitBatchCallRequest("Promo", "a1", "p1", [Recipient("+15550001111", None, None)], Absent, Absent, None)
  }

  /** The provider's acknowledgement of that campaign. */
  function PromoScheduled(): BatchCallResponse {
    BatchCallResponse("b1", "p1", "Promo", "a1", 1700000000, 1700000000, 0, 1, 1700000000, Pending, "Agent", Some(Twilio))
  }

  /** Submitting the campaign sends exactly its body to the submit path and answers 200 with the provider's summary. */
  lemma PromoSubmitted(nullIsAbsent: bool, host: JsHost)
    ensures SubmitBatchCallHandler(EncodeRequest(Promo()), nullIsAbsent, Ok(EncodeBatchCallResponse(PromoScheduled())), host)
      == Response(200, DataEnvelope(EncodeBatchCallResponse(PromoScheduled())),
                  Some(HttpRequest(Post, "/v1/convai/batch-calling/submit", Some(EncodeRequest(Promo())))))
  {
    var outcome := Ok(EncodeBatchCallResponse(PromoScheduled()));
    assert Promo().Complete() by {
      assert Promo().recipients[0].phone_number != "";
    }
    assert FilterRequest(Promo()) == Promo();
    AcceptedRequestForwarded(Promo(), nullIsAbsent, outcome, host);
    assert SubmitPath() == "/v1/convai/batch-calling/submit";
  }

  lemma StatusText404()
    ensures StatusText(Some(404)) == "404"
  {
    assert NatToDecimal(4) == "4";
    assert NatToDecimal(40) == NatToDecimal(4) + "0";
    assert NatToDecimal(404) == NatToDecimal(40) + "4";
  }

  lemma StatusText400()
    ensures StatusText(Some(400)) == "400"
  {
    assert NatToDecimal(4) == "4";
    assert NatToDecimal(40) == NatToDecimal(4) + "0";
    assert NatToDecimal(400) == NatToDecimal(40) + "0";
  }

  /** A 404 whose body carries `detail` becomes a 500 naming the detail and the provider's status. */
  lemma DetailNotFound(host: JsHost)
    ensures GetBatchCallInfoHandler(Some("b1"), Fail(HttpErr(Some(404), Some(JObj(map["detail" := JStr("batch not found")])))), host)
      == Response(500, ErrorEnvelope(DetailFailed + ": " + "batch not found" + " (Status: " + "404" + ")"),
                  Some(HttpRequest(Get, "/v1/convai/batch-calling/b1", None)))
  {
    var body := JObj(map["detail" := JStr("batch not found")]);
    var failure := HttpErr(Some(404), Some(body));
    var r := GetBatchCallInfoHandler(Some("b1"), Fail(failure), host);
    assert !MissingId(Some("b1"));
    assert r.sent == Some(HttpRequest(Get, DetailPath("b1"), None));
    assert DetailPath("b1") == "/v1/convai/batch-calling/b1";
    assert r.status == 500;
    assert ExtractMessage(Some(body), DetailFailed, host) == "batch not found" by {
      assert Member(body, "detail") == Some(JStr("batch not found"));
    }
    StatusText404();
    assert HandleError(failure, DetailFailed, host) == DetailFailed + ": " + "batch not found" + " (Status: " + "404" + ")";
    assert r.envelope == ErrorEnvelope(HandleError(failure, DetailFailed, host));
  }

  /** A body with only a non-empty `message` yields that message. */
  lemma MessageOnlyBody(m: string, defaultMessage: string, host: JsHost)
    requires m != ""
    ensures ExtractMessage(Some(JObj(map["message" := JStr(m)])), defaultMessage, host) == m
  {
    var body := JObj(map["message" := JStr(m)]);
    assert Member(body, "detail") == None;
    assert Member(body, "message") == Some(JStr(m));
  }

  /** A 400 whose body carries only `message` becomes a 500 naming that message and the provider's status. */
  lemma CancelRejected(host: JsHost)
    ensures CancelBatchCallHandler(Some("unknown"), Fail(HttpErr(Some(400), Some(JObj(map["message" := JStr("invalid batch")])))), host)
      == Response(500, ErrorEnvelope(CancelFailed + ": " + "invalid batch" + " (Status: " + "400" + ")"),
                  Some(HttpRequest(Post, "/v1/convai/batch-calling/unknown/cancel", None)))
  {
    var body := JObj(map["message" := JStr("invalid batch")]);
    var failure := HttpErr(Some(400), Some(body));
    var r := CancelBatchCallHandler(Some("unknown"), Fail(failure), host);
    assert !MissingId(Some("unknown"));
    assert r.sent == Some(HttpRequest(Post, CancelPath("unknown"), None));
    assert CancelPath("unknown") == "/v1/convai/batch-calling/unknown/cancel";
    assert r.status == 500;
    MessageOnlyBody("invalid batch", CancelFailed, host);
    StatusText400();
    assert HandleError(failure, CancelFailed, host) == CancelFailed + ": " + "invalid batch" + " (Status: " + "400" + ")";
    assert r.envelope == ErrorEnvelope(HandleError(failure, CancelFailed, host));
  }

  /** When the provider cannot be reached, a valid submission answers 500 with the default message twice and an unknown status. */
  lemma SubmitUnreachable(body: Json, nullIsAbsent: bool, host: JsHost)
    requires ValidateSubmit(body, nullIsAbsent) == []
    ensures SubmitBatchCallHandler(body, nullIsAbsent, Fail(HttpErr(None, None)), host).status == 500
    ensures SubmitBatchCallHandler(body, nullIsAbsent, Fail(HttpErr(None, None)), host).envelope
      == ErrorEnvelope(SubmitFailed + ": " + SubmitFailed + " (Status: unknown)")
  {
    var r := SubmitBatchCallHandler(body, nullIsAbsent, Fail(HttpErr(None, None)), host);
    assert r.sent.Some?;
    TransportFailureMessage(SubmitFailed, host);
  }
}
