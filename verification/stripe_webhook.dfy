/** webhookController (src/stripe/stripeWebhook.ts): the signature gate,
    the table from event type to handler, and the acknowledgement. The
    provider library's signature check is an oracle whose answer is an
    input. */
module StripeWebhook {
  import opened Optional
  import opened Schema
  import opened Queries
  import opened WebhookHandlers

  datatype Handler =
    | CustomerCreated
    | CheckoutSessionCompleted
    | SubscriptionCreated
    | SubscriptionUpdated
    | SubscriptionDeleted
    | InvoicePaymentSucceeded
    | InvoicePaymentFailed
    | InvoicePaymentCanceled

  /** The provider event type each handler is written for. */
  function EventType(h: Handler): string {
    match h
    case CustomerCreated => "customer.created"
    case CheckoutSessionCompleted => "checkout.session.completed"
    case SubscriptionCreated => "customer.subscription.created"
    case SubscriptionUpdated => "customer.subscription.updated"
    case SubscriptionDeleted => "customer.subscription.deleted"
    case InvoicePaymentSucceeded => "invoice.payment_succeeded"
    case InvoicePaymentFailed => "invoice.payment_failed"
    case InvoicePaymentCanceled => "invoice.payment_canceled"
  }

  /** The controller's switch. It has no case for "invoice.payment_canceled". */
  function Route(eventType: string): (h: Option<Handler>)
    ensures h.Some? ==> EventType(h.value) == eventType && h.value != InvoicePaymentCanceled
  {
    match eventType
    case "customer.created" => Some(CustomerCreated)
    case "checkout.session.completed" => Some(CheckoutSessionCompleted)
    case "customer.subscription.created" => Some(SubscriptionCreated)
    case "customer.subscription.updated" => Some(SubscriptionUpdated)
    case "customer.subscription.deleted" => Some(SubscriptionDeleted)
    case "invoice.payment_succeeded" => Some(InvoicePaymentSucceeded)
    case "invoice.payment_failed" => Some(InvoicePaymentFailed)
    case _ => None
  }

  /** Every handler but the invoice-cancellation one is reached from its own
      event type, and from no other. */
  lemma RouteReachesHandler(h: Handler)
    ensures Route(EventType(h)) == Some(h) <==> h != InvoicePaymentCanceled
    ensures forall t :: Route(t) == Some(h) ==> t == EventType(h)
  {
  }

  /** Invoke one handler on the event's object. */
  function Run(h: Handler, store: Store, data: EventObject, faults: DbFaults, now: Timestamp): (out: Outcome)
    requires WellFormed(store)
    ensures WellFormed(out.store)
  {
    match h
    case CustomerCreated => HandleCustomerCreated(store, data, faults)
    case CheckoutSessionCompleted => HandleCheckoutSessionCompleted(store, data, faults)
    case SubscriptionCreated => HandleSubscriptionCreated(store, data, faults)
    case SubscriptionUpdated => HandleSubscriptionUpdated(store, data, faults)
    case SubscriptionDeleted => HandleSubscriptionDeleted(store, data, faults, now)
    case InvoicePaymentSucceeded => HandleInvoicePaymentSucceeded(store, data, faults)
    case InvoicePaymentFailed => HandleInvoicePaymentFailed(store, data, faults)
    case InvoicePaymentCanceled => HandleInvoicePaymentCanceled(store, data, faults)
  }

  /** The handlers that find their row through the reverse lookup. */
  predicate UsesLookup(h: Handler) {
    h != CustomerCreated && h != CheckoutSessionCompleted
  }

  /** The row a lookup-based handler writes does not depend on the order in
      which `limit(1)` reads the table. */
  predicate LookupUnambiguous(h: Handler, store: Store, data: EventObject) {
    UsesLookup(h) ==> CustomerOnOneRow(store, data.customer)
  }

  /** Delivering the same event twice, with the same clock value, leaves what
      one delivery leaves, and the second delivery is answered like the
      first. */
  lemma ReplayIsHarmless(h: Handler, store: Store, data: EventObject, faults: DbFaults, now: Timestamp)
    requires WellFormed(store) && LookupUnambiguous(h, store, data)
    ensures Run(h, Run(h, store, data, faults, now).store, data, faults, now) == Run(h, store, data, faults, now)
  {
    match h
    case CustomerCreated => CustomerCreatedReplay(store, data, faults);
    case CheckoutSessionCompleted => CheckoutSessionCompletedReplay(store, data, faults);
    case SubscriptionCreated => SubscriptionCreatedReplay(store, data, faults);
    case SubscriptionUpdated =>
      UpdateResolvedUserReplay(store, data.customer, faults, SubscriptionUpdatedAssignment(data),
                               Failed("Failed to update subscription", SubscriptionUpdateError),
                               Succeeded("Subscription updated successfully"));
    case SubscriptionDeleted => SubscriptionDeletedIdempotent(store, data, faults, now);
    case InvoicePaymentSucceeded =>
      UpdateResolvedUserReplay(store, data.customer, faults, PaymentSucceededAssignment(),
                               Failed("Failed to update payment status", PaymentSuccessError),
                               Succeeded("Payment successful and user updated"));
    case InvoicePaymentFailed =>
      UpdateResolvedUserReplay(store, data.customer, faults, PaymentFailedAssignment(),
                               Failed("Failed to update payment status", PaymentError),
                               Succeeded("Payment failure recorded"));
    case InvoicePaymentCanceled =>
      UpdateResolvedUserReplay(store, data.customer, faults, PaymentCanceledAssignment(),
                               Failed("Failed to update payment status", PaymentCancellationError),
                               Succeeded("Payment cancellation recorded"));
  }

  /** A verified provider event: its type tag and `data.object`. */
  datatype Event = Event(eventType: string, data: EventObject)

  /** The answer of the provider library's signature check. */
  datatype Verification = Verified(event: Event) | VerificationFailed(message: string)

  /** What the dispatch step produced. Handlers report every failure as a
      value, so `Threw` (an exception escaping a handler) is only shaped. */
  datatype Dispatch = Handled(handler: Handler, outcome: Outcome) | Unhandled | Threw

  function DispatchEvent(store: Store, event: Event, faults: DbFaults, now: Timestamp): (d: Dispatch)
    requires WellFormed(store)
    ensures !d.Threw?
    ensures d.Handled? <==> Route(event.eventType).Some?
    ensures d.Handled? ==> d.handler == Route(event.eventType).value
                           && d.outcome == Run(d.handler, store, event.data, faults, now)
  {
    match Route(event.eventType)
    case None => Unhandled
    case Some(h) => Handled(h, Run(h, store, event.data, faults, now))
  }

  /** A response body: plain text, or JSON `{received: true, ...}` with the
      optional `success` and `message` members. */
  datatype Body = Text(text: string) | Ack(success: Option<bool>, message: Option<string>)

  datatype Reply = Reply(status: int, body: Body)

  /** The acknowledgement after a verified event: always HTTP 200. */
  function Acknowledge(d: Dispatch): (r: Reply)
    ensures r.status == 200 && r.body.Ack?
    ensures d.Unhandled? <==> r.body.message == Some("Unhandled event type")
    ensures d.Handled? ==> r.body.success == Some(d.outcome.response.success)
    ensures d.Threw? ==> r.body.success == Some(false)
  {
    match d
    case Unhandled => Reply(200, Ack(None, Some("Unhandled event type")))
    case Handled(_, outcome) => Reply(200, Ack(Some(outcome.response.success), None))
    case Threw => Reply(200, Ack(Some(false), None))
  }

  /** The controller's result: the reply, the table, and the handler that
      ran, if any. */
  datatype WebhookResult = WebhookResult(reply: Reply, store: Store, ran: Option<Handler>)

  function WebhookController(store: Store, signature: Option<string>, verification: Verification,
                             faults: DbFaults, now: Timestamp): (r: WebhookResult)
    requires WellFormed(store)
    ensures WellFormed(r.store)
    ensures r.reply.status == 400 <==> !Truthy(signature) || verification.VerificationFailed?
    ensures r.reply.status == 400 ==> r.ran.None? && r.store == store
    ensures r.reply.status != 400 ==> r.reply.status == 200
    ensures r.reply.status == 200 ==> r.ran == Route(verification.event.eventType)
    ensures r.ran.None? ==> r.store == store
    ensures r.reply.status == 200 && r.ran.None? ==>
      r.reply.body == Ack(None, Some("Unhandled event type"))
    ensures r.ran.Some? ==>
      var out := Run(r.ran.value, store, verification.event.data, faults, now);
      r.store == out.store && r.reply.body == Ack(Some(out.response.success), None)
  {
    if !Truthy(signature) then
      WebhookResult(Reply(400, Text("No signature header present.")), store, None)
    else
      match verification
      case VerificationFailed(message) =>
        WebhookResult(Reply(400, Text("Webhook Error: " + message)), store, None)
      case Verified(event) =>
        var d := DispatchEvent(store, event, faults, now);
        var next := if d.Handled? then d.outcome.store else store;
        var ran := if d.Handled? then Some(d.handler) else None;
        WebhookResult(Acknowledge(d), next, ran)
  }

  /** "invoice.payment_canceled" is acknowledged as unhandled and changes
      nothing, although a handler for it exists. */
  lemma PaymentCanceledIsUnhandled(store: Store, signature: Option<string>, data: EventObject,
                                   faults: DbFaults, now: Timestamp)
    requires WellFormed(store) && Truthy(signature)
    ensures var r := WebhookController(store, signature, Verified(Event(EventType(InvoicePaymentCanceled), data)), faults, now);
      r.reply == Reply(200, Ack(None, Some("Unhandled event type"))) && r.store == store && r.ran.None?
  {
    assert Route(EventType(InvoicePaymentCanceled)).None?;
  }

  /** A second delivery of a verified event, at the same clock value, leaves
      the table as the first left it and is acknowledged the same way. */
  lemma RedeliveryIsHarmless(store: Store, signature: Option<string>, verification: Verification,
                             faults: DbFaults, now: Timestamp)
    requires WellFormed(store)
    requires verification.Verified? && Route(verification.event.eventType).Some? ==>
      LookupUnambiguous(Route(verification.event.eventType).value, store, verification.event.data)
    ensures var first := WebhookController(store, signature, verification, faults, now);
      var second := WebhookController(first.store, signature, verification, faults, now);
      second.store == first.store && second.reply == first.reply
  {
    var first := WebhookController(store, signature, verification, faults, now);
    if first.ran.Some? {
      ReplayIsHarmless(first.ran.value, store, verification.event.data, faults, now);
    }
  }

  /** Handlers write only "free" and "pro" into `plan`. */
  lemma HandlersKeepPlansKnown(h: Handler, store: Store, data: EventObject, faults: DbFaults, now: Timestamp)
    requires WellFormed(store) && PlansKnown(store)
    ensures PlansKnown(Run(h, store, data, faults, now).store)
  {
  }

  /** Nothing orders deliveries: an "active" update that arrives after the
      deletion of the same customer's subscription makes the row "pro" with
      a subscription id again. */
  lemma StaleUpdateRevivesSubscription(store: Store, deletion: EventObject, stale: EventObject,
                                       faults: DbFaults, now: Timestamp)
    requires WellFormed(store)
    requires stale.customer == deletion.customer && stale.status == "active"
    requires CustomerOnOneRow(store, deletion.customer)
    requires HandleSubscriptionDeleted(store, deletion, faults, now).response.success
    ensures var deleted := HandleSubscriptionDeleted(store, deletion, faults, now).store;
      var after := HandleSubscriptionUpdated(deleted, stale, faults);
      var k := ResolveCustomer(store, deletion.customer, faults.readFails).value;
      after.response.success ==>
        after.store[k].plan == PlanPro && after.store[k].subscriptionId == Some(stale.id)
        && after.store[k].subscriptionStatus == Some("active")
  {
    var deleted := HandleSubscriptionDeleted(store, deletion, faults, now).store;
    SelectByCustomerIdStable(store, deleted, deletion.customer);
  }
}
