/** The webhook handlers of src/stripe/webhookHandlers.ts, each a pure
    transition from the table and the event's object to a response and the
    new table. */
module WebhookHandlers {
  import opened Optional
  import opened Schema
  import opened Queries
  import opened JsNumber

  /** The `error` codes the handlers report (`MISSING_EMAIL`, `USER_NOT_FOUND`, ...).
      The controller never puts them on the wire, so they stay symbolic. */
  datatype ErrorCode =
    | MissingEmail
    | MissingUserId
    | UserNotFound
    | DatabaseError
    | SubscriptionError
    | SubscriptionUpdateError
    | CancellationError
    | PaymentError
    | PaymentSuccessError
    | PaymentCancellationError

  datatype WebhookResponse = WebhookResponse(success: bool, message: string, error: Option<ErrorCode>)

  function Succeeded(message: string): WebhookResponse {
    WebhookResponse(true, message, None)
  }

  function Failed(message: string, code: ErrorCode): WebhookResponse {
    WebhookResponse(false, message, Some(code))
  }

  const NotFound: WebhookResponse := Failed("User not found", UserNotFound)

  /** A handler's result: what it returns and the table it leaves. */
  datatype Outcome = Outcome(response: WebhookResponse, store: Store)

  /** `event.data.object`. The dispatcher casts it to the type each handler
      expects without checking, so one record carries every field a handler
      reads: `id` (customer or subscription id), `email` (customer),
      `customer` (session, subscription, invoice), `metadataUserId`
      (`session.metadata?.userId`) and `status` (subscription). */
  datatype EventObject = EventObject(
    id: string,
    email: Option<string>,
    customer: Option<string>,
    metadataUserId: Option<string>,
    status: string
  )

  /** The row the reverse lookup resolves, as a row id. */
  function ResolveCustomer(store: Store, customerId: Option<string>, readFails: bool): Option<int> {
    if !Truthy(customerId) || readFails then None else SelectByCustomerId(store, customerId)
  }

  /** getUserIdByStripeCustomerId: the id, as a string, of a row linked to
      the provider customer; null for an empty id (without a query), for a
      failed query and when no row is linked. */
  function GetUserIdByStripeCustomerId(store: Store, customerId: Option<string>, readFails: bool): (r: Option<string>)
    ensures !Truthy(customerId) || readFails ==> r.None?
    ensures r.Some? ==> r.value != "" && ParseId(r.value).Some?
    ensures r.Some? ==> ParseId(r.value).value in store
    ensures r.Some? ==> store[ParseId(r.value).value].stripeCustomerId == customerId
    ensures r.None? && Truthy(customerId) && !readFails ==>
      forall k :: k in store ==> store[k].stripeCustomerId != customerId
    ensures r.None? <==> ResolveCustomer(store, customerId, readFails).None?
    ensures r.Some? ==> ParseId(r.value) == ResolveCustomer(store, customerId, readFails)
  {
    if !Truthy(customerId) then None
    else if readFails then None
    else
      match SelectByCustomerId(store, customerId)
      case None => None
      case Some(k) =>
        ParseIdOfIntToString(k);
        Some(IntToString(k))
  }

  /** A found id survives the handlers' `!userId` test: its rendering is
      never the empty string. */
  lemma FoundIdIsTruthy(n: int)
    ensures Truthy(Some(IntToString(n)))
  {
  }

  /** handleSubscriptionUpdated's plan: it starts at "free" and only
      "active" turns it to "pro"; the "canceled"/"unpaid" branch writes
      "free" again, so every other status yields "free" as well. */
  function PlanForStatus(status: string): (plan: string)
    ensures plan == PlanPro <==> status == "active"
    ensures plan == PlanFree <==> status != "active"
  {
    var plan := PlanFree;
    if status == "active" then PlanPro
    else if status == "canceled" || status == "unpaid" then PlanFree
    else plan
  }

  /** A `past_due` subscription is downgraded, not left at its plan. */
  lemma PastDueIsFree()
    ensures PlanForStatus("past_due") == PlanFree
  {
  }

  /** The shared shape of the handlers that rely on the reverse lookup:
      resolve the row, answer "User not found" when the lookup gives null,
      otherwise update that row by `Number(userId)` and report `failure`
      when the update raises. */
  function UpdateResolvedUser(store: Store, customerId: Option<string>, faults: DbFaults,
                              a: Assignment, failure: WebhookResponse, done: WebhookResponse): (out: Outcome)
    requires WellFormed(store)
    ensures WellFormed(out.store)
    ensures ResolveCustomer(store, customerId, faults.readFails).None? ==> out == Outcome(NotFound, store)
    ensures ResolveCustomer(store, customerId, faults.readFails).Some? ==>
      var k := ResolveCustomer(store, customerId, faults.readFails).value;
      if faults.writeFails || !AssignmentFits(a) then out == Outcome(failure, store)
      else out == Outcome(done, store[k := Apply(store[k], a)])
  {
    var userId := GetUserIdByStripeCustomerId(store, customerId, faults.readFails);
    if userId.None? || userId.value == "" then Outcome(NotFound, store)
    else
      match ParseId(userId.value)
      case None => Outcome(failure, store)
      case Some(n) =>
        match UpdateById(store, n, a, faults.writeFails)
        case None => Outcome(failure, store)
        case Some(updated) =>
          UpdateKeepsWellFormed(store, n, a);
          Outcome(done, updated)
  }

  /** handleCustomerCreated: link the provider customer to the row whose
      email it carries. */
  function HandleCustomerCreated(store: Store, customer: EventObject, faults: DbFaults): (out: Outcome)
    requires WellFormed(store)
    ensures WellFormed(out.store)
    ensures !out.response.success ==> out.store == store
    ensures !Truthy(customer.email) ==> out.response.error == Some(MissingEmail)
    ensures Truthy(customer.email) && faults.writeFails ==> out.response.error == Some(DatabaseError)
    ensures Truthy(customer.email) && |customer.id| > CustomerIdLength ==> out.response.error == Some(DatabaseError)
    ensures Truthy(customer.email) && !faults.writeFails && |customer.id| <= CustomerIdLength
            && EmailRows(store, customer.email.value) == {} ==>
      out.response.error == Some(UserNotFound)
    ensures Truthy(customer.email) && EmailRows(store, customer.email.value) != {} && !out.response.success ==>
      out.response.error == Some(DatabaseError)
    ensures out.response.success <==>
      Truthy(customer.email) && !faults.writeFails && EmailRows(store, customer.email.value) != {}
      && |customer.id| <= CustomerIdLength
    ensures out.response.success ==>
      (exists k :: k in store && store[k].email == customer.email.value
                   && out.store == store[k := store[k].(stripeCustomerId := Some(customer.id))])
  {
    if !Truthy(customer.email) then
      Outcome(Failed("No email found", MissingEmail), store)
    else
      var email := customer.email.value;
      var a := NoChange.(stripeCustomerId := Put(Some(customer.id)));
      match UpdateByEmail(store, email, a, faults.writeFails)
      case None => Outcome(Failed("Failed to link customer", DatabaseError), store)
      case Some((updated, ids)) =>
        if ids == {} then Outcome(NotFound, store)
        else
          UpdateByEmailKeepsWellFormed(store, email, a, faults.writeFails);
          Outcome(Succeeded("Customer linked successfully"), updated)
  }

  /** handleCheckoutSessionCompleted: the row named by the session's
      `metadata.userId` becomes "pro", its last payment "succeeded", and it
      is linked to the session's customer. */
  function HandleCheckoutSessionCompleted(store: Store, session: EventObject, faults: DbFaults): (out: Outcome)
    requires WellFormed(store)
    ensures WellFormed(out.store)
    ensures !out.response.success ==> out.store == store
    ensures !Truthy(session.metadataUserId) ==> out.response.error == Some(MissingUserId)
    ensures out.response.error == Some(UserNotFound) <==>
      (&& Truthy(session.metadataUserId) && !faults.writeFails
       && ParseId(session.metadataUserId.value).Some?
       && IsInt32(ParseId(session.metadataUserId.value).value)
       && FitsNullable(session.customer, CustomerIdLength)
       && ParseId(session.metadataUserId.value).value !in store)
    ensures Truthy(session.metadataUserId) && !out.response.success && out.response.error != Some(UserNotFound) ==>
      out.response.error == Some(DatabaseError)
    ensures out.response.success <==>
      Truthy(session.metadataUserId) && !faults.writeFails
      && ParseId(session.metadataUserId.value).Some? && ParseId(session.metadataUserId.value).value in store
      && FitsNullable(session.customer, CustomerIdLength)
    ensures out.response.success ==>
      var n := ParseId(session.metadataUserId.value).value;
      out.store == store[n := store[n].(plan := PlanPro, lastPaymentStatus := Some(PaymentSucceeded),
                                        stripeCustomerId := session.customer)]
  {
    if !Truthy(session.metadataUserId) then
      Outcome(Failed("No userId found", MissingUserId), store)
    else
      var failure := Failed("Failed to update subscription", DatabaseError);
      var a := NoChange.(plan := Put(PlanPro), lastPaymentStatus := Put(Some(PaymentSucceeded)),
                         stripeCustomerId := Put(session.customer));
      match ParseId(session.metadataUserId.value)
      case None => Outcome(failure, store)
      case Some(n) =>
        match UpdateById(store, n, a, faults.writeFails)
        case None => Outcome(failure, store)
        case Some(updated) =>
          if n !in store then Outcome(NotFound, store)
          else
            UpdateKeepsWellFormed(store, n, a);
            Outcome(Succeeded("Subscription activated successfully"), updated)
  }

  function SubscriptionCreatedAssignment(subscription: EventObject): Assignment {
    NoChange.(plan := Put(PlanPro), subscriptionStatus := Put(Some(subscription.status)),
              subscriptionId := Put(Some(subscription.id)), canceledAt := Put(None))
  }

  /** handleSubscriptionCreated: looks the customer up with its own query
      (no empty-id short cut, a failed query is a SUBSCRIPTION_ERROR), then
      makes that row "pro" with the subscription's id and status and clears
      `canceledAt`. */
  function HandleSubscriptionCreated(store: Store, subscription: EventObject, faults: DbFaults): (out: Outcome)
    requires WellFormed(store)
    ensures WellFormed(out.store)
    ensures !out.response.success ==> out.store == store
    ensures faults.readFails ==> out.response.error == Some(SubscriptionError)
    ensures !faults.readFails && SelectByCustomerId(store, subscription.customer).None? ==>
      out.response.error == Some(UserNotFound)
    ensures SelectByCustomerId(store, subscription.customer).Some? && !out.response.success ==>
      out.response.error == Some(SubscriptionError)
    ensures out.response.success <==>
      !faults.readFails && SelectByCustomerId(store, subscription.customer).Some? && !faults.writeFails
      && |subscription.status| <= StatusLength && |subscription.id| <= SubscriptionIdLength
    ensures out.response.success ==>
      var k := SelectByCustomerId(store, subscription.customer).value;
      out.store == store[k := store[k].(plan := PlanPro, subscriptionStatus := Some(subscription.status),
                                        subscriptionId := Some(subscription.id), canceledAt := None)]
  {
    var failure := Failed("Failed to create subscription", SubscriptionError);
    if faults.readFails then Outcome(failure, store)
    else
      match SelectByCustomerId(store, subscription.customer)
      case None => Outcome(NotFound, store)
      case Some(k) =>
        var a := SubscriptionCreatedAssignment(subscription);
        match UpdateById(store, k, a, faults.writeFails)
        case None => Outcome(failure, store)
        case Some(updated) =>
          UpdateKeepsWellFormed(store, k, a);
          Outcome(Succeeded("Subscription created successfully"), updated)
  }

  function SubscriptionUpdatedAssignment(subscription: EventObject): Assignment {
    NoChange.(subscriptionStatus := Put(Some(subscription.status)),
              subscriptionId := Put(Some(subscription.id)),
              plan := Put(PlanForStatus(subscription.status)))
  }

  /** handleSubscriptionUpdated: copies the subscription's status and id and
      sets the plan to "pro" exactly when the status is "active". */
  function HandleSubscriptionUpdated(store: Store, subscription: EventObject, faults: DbFaults): (out: Outcome)
    requires WellFormed(store)
    ensures WellFormed(out.store)
    ensures !out.response.success ==> out.store == store
    ensures ResolveCustomer(store, subscription.customer, faults.readFails).None? ==>
      out.response.error == Some(UserNotFound)
    ensures ResolveCustomer(store, subscription.customer, faults.readFails).Some? && !out.response.success ==>
      out.response.error == Some(SubscriptionUpdateError)
    ensures out.response.success <==>
      ResolveCustomer(store, subscription.customer, faults.readFails).Some? && !faults.writeFails
      && |subscription.status| <= StatusLength && |subscription.id| <= SubscriptionIdLength
    ensures out.response.success ==>
      var k := ResolveCustomer(store, subscription.customer, faults.readFails).value;
      out.store == store[k := store[k].(subscriptionStatus := Some(subscription.status),
                                        subscriptionId := Some(subscription.id),
                                        plan := if subscription.status == "active" then PlanPro else PlanFree)]
  {
    UpdateResolvedUser(store, subscription.customer, faults, SubscriptionUpdatedAssignment(subscription),
                       Failed("Failed to update subscription", SubscriptionUpdateError),
                       Succeeded("Subscription updated successfully"))
  }

  function SubscriptionDeletedAssignment(now: Timestamp): Assignment {
    NoChange.(plan := Put(PlanFree), subscriptionStatus := Put(Some(StatusCanceled)),
              subscriptionId := Put(None), canceledAt := Put(Some(now)))
  }

  /** handleSubscriptionDeleted: the row drops to "free", its subscription is
      "canceled" and forgotten, and `canceledAt` is the current time. */
  function HandleSubscriptionDeleted(store: Store, subscription: EventObject, faults: DbFaults, now: Timestamp): (out: Outcome)
    requires WellFormed(store)
    ensures WellFormed(out.store)
    ensures !out.response.success ==> out.store == store
    ensures ResolveCustomer(store, subscription.customer, faults.readFails).None? ==>
      out.response.error == Some(UserNotFound)
    ensures ResolveCustomer(store, subscription.customer, faults.readFails).Some? && !out.response.success ==>
      out.response.error == Some(CancellationError)
    ensures out.response.success <==>
      ResolveCustomer(store, subscription.customer, faults.readFails).Some? && !faults.writeFails
    ensures out.response.success ==>
      var k := ResolveCustomer(store, subscription.customer, faults.readFails).value;
      out.store == store[k := store[k].(plan := PlanFree, subscriptionStatus := Some(StatusCanceled),
                                        subscriptionId := None, canceledAt := Some(now))]
  {
    UpdateResolvedUser(store, subscription.customer, faults, SubscriptionDeletedAssignment(now),
                       Failed("Failed to cancel subscription", CancellationError),
                       Succeeded("Subscription canceled successfully"))
  }

  function PaymentSucceededAssignment(): Assignment {
    NoChange.(lastPaymentStatus := Put(Some(PaymentSucceeded)), plan := Put(PlanPro))
  }

  /** handleInvoicePaymentSucceeded: last payment "succeeded" and plan "pro". */
  function HandleInvoicePaymentSucceeded(store: Store, invoice: EventObject, faults: DbFaults): (out: Outcome)
    requires WellFormed(store)
    ensures WellFormed(out.store)
    ensures !out.response.success ==> out.store == store
    ensures ResolveCustomer(store, invoice.customer, faults.readFails).None? ==>
      out.response.error == Some(UserNotFound)
    ensures ResolveCustomer(store, invoice.customer, faults.readFails).Some? && !out.response.success ==>
      out.response.error == Some(PaymentSuccessError)
    ensures out.response.success <==>
      ResolveCustomer(store, invoice.customer, faults.readFails).Some? && !faults.writeFails
    ensures out.response.success ==>
      var k := ResolveCustomer(store, invoice.customer, faults.readFails).value;
      out.store == store[k := store[k].(lastPaymentStatus := Some(PaymentSucceeded), plan := PlanPro)]
  {
    UpdateResolvedUser(store, invoice.customer, faults, PaymentSucceededAssignment(),
                       Failed("Failed to update payment status", PaymentSuccessError),
                       Succeeded("Payment successful and user updated"))
  }

  function PaymentFailedAssignment(): Assignment {
    NoChange.(lastPaymentStatus := Put(Some(PaymentFailed)))
  }

  /** handleInvoicePaymentFailed: last payment "failed"; nothing else. */
  function HandleInvoicePaymentFailed(store: Store, invoice: EventObject, faults: DbFaults): (out: Outcome)
    requires WellFormed(store)
    ensures WellFormed(out.store)
    ensures !out.response.success ==> out.store == store
    ensures ResolveCustomer(store, invoice.customer, faults.readFails).None? ==>
      out.response.error == Some(UserNotFound)
    ensures ResolveCustomer(store, invoice.customer, faults.readFails).Some? && !out.response.success ==>
      out.response.error == Some(PaymentError)
    ensures out.response.success <==>
      ResolveCustomer(store, invoice.customer, faults.readFails).Some? && !faults.writeFails
    ensures out.response.success ==>
      var k := ResolveCustomer(store, invoice.customer, faults.readFails).value;
      out.store == store[k := store[k].(lastPaymentStatus := Some(PaymentFailed))]
  {
    UpdateResolvedUser(store, invoice.customer, faults, PaymentFailedAssignment(),
                       Failed("Failed to update payment status", PaymentError),
                       Succeeded("Payment failure recorded"))
  }

  function PaymentCanceledAssignment(): Assignment {
    NoChange.(lastPaymentStatus := Put(Some(PaymentCanceled)))
  }

  /** handleInvoicePaymentCanceled: last payment "canceled"; nothing else. */
  function HandleInvoicePaymentCanceled(store: Store, invoice: EventObject, faults: DbFaults): (out: Outcome)
    requires WellFormed(store)
    ensures WellFormed(out.store)
    ensures !out.response.success ==> out.store == store
    ensures ResolveCustomer(store, invoice.customer, faults.readFails).None? ==>
      out.response.error == Some(UserNotFound)
    ensures ResolveCustomer(store, invoice.customer, faults.readFails).Some? && !out.response.success ==>
      out.response.error == Some(PaymentCancellationError)
    ensures out.response.success <==>
      ResolveCustomer(store, invoice.customer, faults.readFails).Some? && !faults.writeFails
    ensures out.response.success ==>
      var k := ResolveCustomer(store, invoice.customer, faults.readFails).value;
      out.store == store[k := store[k].(lastPaymentStatus := Some(PaymentCanceled))]
  {
    UpdateResolvedUser(store, invoice.customer, faults, PaymentCanceledAssignment(),
                       Failed("Failed to update payment status", PaymentCancellationError),
                       Succeeded("Payment cancellation recorded"))
  }

  // Replaying an event. None of the handlers below writes the column the
  // reverse lookup reads. When at most one row carries the customer, a
  // second delivery therefore finds the same row, whatever order `limit(1)`
  // reads in, and writes the same values again.

  lemma UpdateResolvedUserReplay(store: Store, customerId: Option<string>, faults: DbFaults,
                                 a: Assignment, failure: WebhookResponse, done: WebhookResponse)
    requires WellFormed(store) && a.stripeCustomerId.Keep?
    requires CustomerOnOneRow(store, customerId)
    ensures var first := UpdateResolvedUser(store, customerId, faults, a, failure, done);
      UpdateResolvedUser(first.store, customerId, faults, a, failure, done) == first
  {
    var first := UpdateResolvedUser(store, customerId, faults, a, failure, done);
    var target := ResolveCustomer(store, customerId, faults.readFails);
    if target.Some? && !faults.writeFails && AssignmentFits(a) {
      var k := target.value;
      SelectByCustomerIdStable(store, first.store, customerId);
      ApplyIdempotent(store[k], a);
      assert first.store[k := Apply(first.store[k], a)] == first.store;
    }
  }

  lemma SubscriptionCreatedReplay(store: Store, subscription: EventObject, faults: DbFaults)
    requires WellFormed(store) && CustomerOnOneRow(store, subscription.customer)
    ensures var first := HandleSubscriptionCreated(store, subscription, faults);
      HandleSubscriptionCreated(first.store, subscription, faults) == first
  {
    var first := HandleSubscriptionCreated(store, subscription, faults);
    if first.response.success {
      var k := SelectByCustomerId(store, subscription.customer).value;
      SelectByCustomerIdStable(store, first.store, subscription.customer);
      var a := SubscriptionCreatedAssignment(subscription);
      ApplyIdempotent(store[k], a);
      assert first.store[k := Apply(first.store[k], a)] == first.store;
    }
  }

  lemma CustomerCreatedReplay(store: Store, customer: EventObject, faults: DbFaults)
    requires WellFormed(store)
    ensures var first := HandleCustomerCreated(store, customer, faults);
      HandleCustomerCreated(first.store, customer, faults) == first
  {
    var first := HandleCustomerCreated(store, customer, faults);
    if first.response.success {
      var email := customer.email.value;
      var a := NoChange.(stripeCustomerId := Put(Some(customer.id)));
      var k :| k in store && store[k].email == email
               && first.store == store[k := store[k].(stripeCustomerId := Some(customer.id))];
      assert first.store == store[k := Apply(store[k], a)];
      assert first.store[k].email == email;
      UpdateByEmailSingleRow(first.store, email, a, faults.writeFails, k);
      assert first.store[k := Apply(first.store[k], a)] == first.store;
    }
  }

  lemma CheckoutSessionCompletedReplay(store: Store, session: EventObject, faults: DbFaults)
    requires WellFormed(store)
    ensures var first := HandleCheckoutSessionCompleted(store, session, faults);
      HandleCheckoutSessionCompleted(first.store, session, faults) == first
  {
    var first := HandleCheckoutSessionCompleted(store, session, faults);
    if first.response.success {
      var n := ParseId(session.metadataUserId.value).value;
      assert first.store[n := first.store[n]] == first.store;
    }
  }

  /** Replaying "subscription deleted" with the same clock gives the state of
      a single delivery. */
  lemma SubscriptionDeletedIdempotent(store: Store, subscription: EventObject, faults: DbFaults, now: Timestamp)
    requires WellFormed(store) && CustomerOnOneRow(store, subscription.customer)
    ensures var first := HandleSubscriptionDeleted(store, subscription, faults, now);
      HandleSubscriptionDeleted(first.store, subscription, faults, now) == first
  {
    UpdateResolvedUserReplay(store, subscription.customer, faults, SubscriptionDeletedAssignment(now),
                             Failed("Failed to cancel subscription", CancellationError),
                             Succeeded("Subscription canceled successfully"));
  }

  /** Nothing keeps `stripeCustomerId` unique: a completed checkout for one
      user that carries the customer already linked to another user leaves
      the customer on two rows, and the reverse lookup then has a choice. */
  lemma CheckoutCanShareCustomer(store: Store, session: EventObject, faults: DbFaults, other: int, n: int)
    requires WellFormed(store) && !faults.writeFails
    requires n in store && other in store && n != other
    requires session.metadataUserId == Some(IntToString(n))
    requires session.customer.Some? && |session.customer.value| <= CustomerIdLength
    requires store[other].stripeCustomerId == session.customer
    ensures var out := HandleCheckoutSessionCompleted(store, session, faults);
      out.response.success && {other, n} <= CustomerRows(out.store, session.customer.value)
      && !CustomerOnOneRow(out.store, session.customer)
  {
    ParseIdOfIntToString(n);
    var out := HandleCheckoutSessionCompleted(store, session, faults);
    var rows := CustomerRows(out.store, session.customer.value);
    assert other in rows && n in rows;
    assert |rows - {n}| == |rows| - 1;
    assert other in rows - {n};
  }
}
