/** The `/webhooks/paystack` route: checks the Paystack signature of the
    request body, and for a `charge.success` event whose metadata names a
    user and a plan, queues the provisioning task for the payment's
    reference unless an instance already carries that reference. The
    decoded JSON event is given alongside the raw body. */
module WebhooksRouter {
  import opened Common
  import opened Models
  import Paystack
  import ProvisioningTask
  import Contabo

  /** The keys of a metadata object the route reads; each may be missing. */
  datatype Metadata = Metadata(userId: Option<int>, plan: Option<string>, osType: Option<string>)

  /** `data.get("metadata", {})`: an object (an absent key gives the empty
      one), or a value without `.get` (`null`, a string, a list), on which
      the next line raises `AttributeError`. */
  datatype MetadataField = Object(fields: Metadata) | NotObject

  /** The fields of the event the route reads. */
  datatype Event = Event(event: string, reference: string, customerEmail: string, metadata: MetadataField)

  const MetadataError := "AttributeError: object has no attribute 'get'"

  /** A successful charge whose metadata cannot be read: the route raises
      and answers 500, so Paystack delivers the event again. */
  predicate MetadataUnreadable(e: Event)
  {
    e.event == "charge.success" && e.metadata.NotObject?
  }

  datatype WebhookResult = WebhookResult(reply: Reply<string>, queued: Option<ProvisioningTask.TaskArgs>)

  /** Python truthiness of an optional integer: `None` and `0` are falsy. */
  predicate TruthyInt(v: Option<int>)
  {
    v.Some? && v.value != 0
  }

  /** Whether the signature check lets the request through: a missing or
      empty header is refused outright only when a key is configured, and
      then the header (or "") must match the body's digest. */
  predicate SignatureAccepted(secretKey: Option<string>, signature: Option<string>, body: seq<byte>,
                              hmacHex: (string, seq<byte>) -> string)
  {
    (Truthy(secretKey) ==> Truthy(signature))
    && Paystack.VerifyWebhookSignature(secretKey, OrElse(signature, ""), body, hmacHex)
  }

  /** The event asks for provisioning: a successful charge whose metadata
      carries a (non-zero) user id and a (non-empty) plan. */
  predicate Provisionable(e: Event)
  {
    e.event == "charge.success" && e.metadata.Object?
    && TruthyInt(e.metadata.fields.userId) && Truthy(e.metadata.fields.plan)
  }

  /** The task queued for a provisionable event; the OS defaults to Linux. */
  function TaskFor(e: Event): (t: ProvisioningTask.TaskArgs)
    requires Provisionable(e)
    ensures t.orderId == e.reference && t.userId == e.metadata.fields.userId.value
    ensures t.plan == e.metadata.fields.plan.value && t.userEmail == e.customerEmail
    ensures t.osTypeStr == OrElse(e.metadata.fields.osType, "linux")
  {
    var m := e.metadata.fields;
    ProvisioningTask.TaskArgs(m.userId.value, e.reference, OrElse(m.osType, "linux"), m.plan.value, e.customerEmail)
  }

  /** The route's idempotency test as written: some instance's
      `provider_id` equals the payment reference. */
  predicate HasInstanceWithProviderId(rows: seq<RDPInstance>, reference: string)
  {
    exists k :: 0 <= k < |rows| && rows[k].providerId == reference
  }

  /** `paystack_webhook` as written. */
  function PaystackWebhook(secretKey: Option<string>, signature: Option<string>, body: seq<byte>, e: Event,
                           rows: seq<RDPInstance>, hmacHex: (string, seq<byte>) -> string): (r: WebhookResult)
    ensures Truthy(secretKey) && !Truthy(signature) ==>
              r == WebhookResult(HttpError(400, "No signature header"), None)
    ensures (!Truthy(secretKey) || Truthy(signature))
            && !Paystack.VerifyWebhookSignature(secretKey, OrElse(signature, ""), body, hmacHex) ==>
              r == WebhookResult(HttpError(400, "Invalid signature"), None)
    ensures r.queued.Some? <==>
              SignatureAccepted(secretKey, signature, body, hmacHex) && Provisionable(e)
              && !HasInstanceWithProviderId(rows, e.reference)
    ensures r.queued.Some? ==> r.queued.value == TaskFor(e) && r.reply == Body("received")
    ensures SignatureAccepted(secretKey, signature, body, hmacHex) && MetadataUnreadable(e) ==>
              r.reply == Unhandled(MetadataError)
    ensures SignatureAccepted(secretKey, signature, body, hmacHex) && !MetadataUnreadable(e) ==>
              r.reply == Body(if Provisionable(e) && HasInstanceWithProviderId(rows, e.reference)
                              then "already_processed" else "received")
  {
    if Truthy(secretKey) && !Truthy(signature) then
      WebhookResult(HttpError(400, "No signature header"), None)
    else if !Paystack.VerifyWebhookSignature(secretKey, OrElse(signature, ""), body, hmacHex) then
      WebhookResult(HttpError(400, "Invalid signature"), None)
    else if MetadataUnreadable(e) then
      WebhookResult(Unhandled(MetadataError), None)
    else if Provisionable(e) then
      if HasInstanceWithProviderId(rows, e.reference) then WebhookResult(Body("already_processed"), None)
      else WebhookResult(Body("received"), Some(TaskFor(e)))
    else
      WebhookResult(Body("received"), None)
  }

  /** With a key configured, no request reaches the task without a header
      equal to the body's HMAC-SHA512 digest under that key. */
  lemma QueuedOnlyWithValidSignature(key: string, signature: Option<string>, body: seq<byte>, e: Event,
                                     rows: seq<RDPInstance>, hmacHex: (string, seq<byte>) -> string)
    requires key != ""
    requires PaystackWebhook(Some(key), signature, body, e, rows, hmacHex).queued.Some?
    ensures signature == Some(hmacHex(key, body))
  {
  }

  /** An event whose metadata lacks the user id or the plan (the checkout is
      opened without metadata) is acknowledged and queues nothing. */
  lemma NoMetadataQueuesNothing(secretKey: Option<string>, signature: Option<string>, body: seq<byte>, e: Event,
                                rows: seq<RDPInstance>, hmacHex: (string, seq<byte>) -> string)
    requires e.metadata.Object?
    requires e.metadata.fields.userId.None? || e.metadata.fields.plan.None?
    ensures PaystackWebhook(secretKey, signature, body, e, rows, hmacHex).queued.None?
    ensures SignatureAccepted(secretKey, signature, body, hmacHex) ==>
              PaystackWebhook(secretKey, signature, body, e, rows, hmacHex).reply == Body("received")
  {
  }

  /** A successful charge whose metadata is `null` or not an object is
      never acknowledged: a signed delivery fails with the `AttributeError`
      (a 500, which Paystack retries) and queues nothing. */
  lemma UnreadableMetadataFails(secretKey: Option<string>, signature: Option<string>, body: seq<byte>,
                                e: Event, rows: seq<RDPInstance>, hmacHex: (string, seq<byte>) -> string)
    requires MetadataUnreadable(e)
    ensures PaystackWebhook(secretKey, signature, body, e, rows, hmacHex).queued.None?
    ensures !PaystackWebhook(secretKey, signature, body, e, rows, hmacHex).reply.Body?
  {
  }

  /** The discrepancy in the idempotency test: the task records an instance
      under the provider's server id, never under the payment reference.
      After a first delivery of reference "ref-1" has been provisioned by the
      Contabo stand-in, a second delivery of the same event queues a second
      task. */
  lemma RedeliveryProvisionsTwice(body: seq<byte>, hmacHex: (string, seq<byte>) -> string)
    ensures var e := Event("charge.success", "ref-1", "a@b.c", Object(Metadata(Some(7), Some("basic"), None)));
            var created := NewRDPInstance(1, Some(7), "contabo", "pending", "linux", "basic", 0);
            var row := ProvisioningTask.WithDetails(created, Contabo.MockServer("ref-1"));
            PaystackWebhook(None, None, body, e, [row], hmacHex).queued.Some?
  {
    var row := ProvisioningTask.WithDetails(NewRDPInstance(1, Some(7), "contabo", "pending", "linux", "basic", 0),
                                            Contabo.MockServer("ref-1"));
    assert |row.providerId| != |"ref-1"|;
    assert !HasInstanceWithProviderId([row], "ref-1");
  }

  /** The test the route evidently intends: "an instance already exists or
      is being provisioned for this order". The references whose task has
      been queued are recorded, and a delivery of a recorded reference is
      answered "already_processed". */
  function PaystackWebhookOnce(secretKey: Option<string>, signature: Option<string>, body: seq<byte>, e: Event,
                               processed: set<string>, hmacHex: (string, seq<byte>) -> string)
    : (r: (WebhookResult, set<string>))
    ensures r.0.queued.Some? <==>
              SignatureAccepted(secretKey, signature, body, hmacHex) && Provisionable(e) && e.reference !in processed
    ensures r.0.queued.Some? ==> r.0.queued.value == TaskFor(e) && r.1 == processed + {e.reference}
    ensures r.0.queued.None? ==> r.1 == processed
    ensures SignatureAccepted(secretKey, signature, body, hmacHex) && MetadataUnreadable(e) ==>
              r.0.reply == Unhandled(MetadataError)
  {
    if Truthy(secretKey) && !Truthy(signature) then
      (WebhookResult(HttpError(400, "No signature header"), None), processed)
    else if !Paystack.VerifyWebhookSignature(secretKey, OrElse(signature, ""), body, hmacHex) then
      (WebhookResult(HttpError(400, "Invalid signature"), None), processed)
    else if MetadataUnreadable(e) then
      (WebhookResult(Unhandled(MetadataError), None), processed)
    else if Provisionable(e) then
      if e.reference in processed then (WebhookResult(Body("already_processed"), None), processed)
      else (WebhookResult(Body("received"), Some(TaskFor(e))), processed + {e.reference})
    else
      (WebhookResult(Body("received"), None), processed)
  }

  /** With the intended test, delivering the same event twice queues the
      task at most once, and the second answer is "already_processed"
      whenever the first queued it. */
  lemma RedeliveryQueuesOnce(secretKey: Option<string>, signature: Option<string>, body: seq<byte>, e: Event,
                             processed: set<string>, hmacHex: (string, seq<byte>) -> string)
    ensures var first := PaystackWebhookOnce(secretKey, signature, body, e, processed, hmacHex);
            var second := PaystackWebhookOnce(secretKey, signature, body, e, first.1, hmacHex);
            second.0.queued.None?
            && (first.0.queued.Some? ==> second.0.reply == Body("already_processed"))
  {
  }
}
