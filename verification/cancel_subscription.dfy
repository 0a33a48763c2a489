/** cancelSubscriptionController (src/stripe/cancelSubscription.ts): asks
    the provider to cancel the stored subscription at the end of the period,
    then records the local pending state "canceling". The provider call is an
    oracle whose answer is an input; the request it would receive is part of
    the result. */
module CancelSubscription {
  import opened Optional
  import opened Schema
  import opened Queries
  import opened WebhookHandlers

  /** `stripe.subscriptions.update(subscriptionId, {cancel_at_period_end})`. */
  datatype ProviderRequest = SubscriptionUpdate(subscriptionId: string, cancelAtPeriodEnd: bool)

  /** The provider's answer: the updated subscription's `cancel_at`, or a
      thrown error with its message. */
  datatype ProviderAnswer = Updated(cancelAt: Option<Timestamp>) | ProviderFailed(message: string)

  /** The JSON body: the success record, or `{error, message?}` with `message` as `detail`. */
  datatype CancelBody =
    | Scheduled(success: bool, message: string, cancelAt: Option<Timestamp>, subscriptionStatus: Option<string>)
    | CancelError(error: string, detail: Option<string>)

  datatype Reply = Reply(status: int, body: CancelBody)

  /** The reply, the request sent to the provider (None when none was sent)
      and the table afterwards. */
  datatype CancelResult = CancelResult(reply: Reply, request: Option<ProviderRequest>, store: Store)

  /** The user has a subscription to cancel: a row with a non-empty
      `subscriptionId`. */
  predicate HasSubscription(store: Store, userId: int)
    ensures !HasSubscription(store, userId) <==>
      userId !in store || store[userId].subscriptionId == None || store[userId].subscriptionId == Some("")
  {
    userId in store && Truthy(store[userId].subscriptionId)
  }

  const InternalError: CancelBody := CancelError("Failed to cancel subscription", None)

  function Cancel(store: Store, userId: int, faults: DbFaults, provider: ProviderAnswer, now: Timestamp): (r: CancelResult)
    requires WellFormed(store)
    ensures WellFormed(r.store)
    ensures r.reply.status == 200 || r.reply.status == 404 || r.reply.status == 500
    ensures r.reply.status == 404 <==> !faults.readFails && IsInt32(userId) && !HasSubscription(store, userId)
    ensures r.reply.status == 404 ==> r.reply.body == CancelError("No active subscription found", None)
    ensures r.request.Some? <==> !faults.readFails && HasSubscription(store, userId)
    ensures r.request.Some? ==> r.request.value == SubscriptionUpdate(store[userId].subscriptionId.value, true)
    ensures r.request.Some? ==> r.request.value.subscriptionId != ""
    ensures r.reply.status == 200 <==> r.request.Some? && provider.Updated? && !faults.writeFails
    ensures r.reply.status != 200 ==> r.store == store
    ensures r.reply.status == 200 ==>
      r.store == store[userId := store[userId].(subscriptionStatus := Some(StatusCanceling), canceledAt := Some(now))]
    ensures r.reply.status == 200 ==>
      r.reply.body.Scheduled? && r.reply.body.success && r.reply.body.cancelAt == provider.cancelAt
      && r.reply.body.subscriptionStatus == Some(StatusCanceling)
  {
    if faults.readFails || !IsInt32(userId) then
      CancelResult(Reply(500, InternalError), None, store)
    else if !HasSubscription(store, userId) then
      CancelResult(Reply(404, CancelError("No active subscription found", None)), None, store)
    else
      var request := SubscriptionUpdate(store[userId].subscriptionId.value, true);
      match provider
      case ProviderFailed(message) =>
        CancelResult(Reply(500, CancelError("Failed to cancel subscription", Some(message))), Some(request), store)
      case Updated(cancelAt) =>
        var a := NoChange.(subscriptionStatus := Put(Some(StatusCanceling)), canceledAt := Put(Some(now)));
        match UpdateById(store, userId, a, faults.writeFails)
        case None => CancelResult(Reply(500, InternalError), Some(request), store)
        case Some(updated) =>
          UpdateKeepsWellFormed(store, userId, a);
          var body := Scheduled(true, "Subscription will be canceled at the end of the billing period",
                                cancelAt, updated[userId].subscriptionStatus);
          CancelResult(Reply(200, body), Some(request), updated)
  }

  /** Cancellation leaves `plan`, `subscriptionId` and `lastPaymentStatus`
      (and every other row) as they were: the user keeps the tier until the
      provider ends the subscription. */
  lemma CancelKeepsEntitlement(store: Store, userId: int, faults: DbFaults, provider: ProviderAnswer, now: Timestamp)
    requires WellFormed(store)
    ensures var r := Cancel(store, userId, faults, provider, now);
      && r.store.Keys == store.Keys
      && (forall k :: k in store ==> r.store[k].plan == store[k].plan)
      && (forall k :: k in store ==> r.store[k].subscriptionId == store[k].subscriptionId)
      && (forall k :: k in store ==> r.store[k].lastPaymentStatus == store[k].lastPaymentStatus)
      && (forall k :: k in store ==> r.store[k].stripeCustomerId == store[k].stripeCustomerId)
  {
  }

  /** The reverse lookup answers the same before and after a cancellation,
      when at most one row carries the customer. */
  lemma CancelKeepsLookup(store: Store, userId: int, faults: DbFaults, provider: ProviderAnswer, now: Timestamp,
                          customerId: Option<string>, readFails: bool)
    requires WellFormed(store) && CustomerOnOneRow(store, customerId)
    ensures ResolveCustomer(Cancel(store, userId, faults, provider, now).store, customerId, readFails)
         == ResolveCustomer(store, customerId, readFails)
  {
    CancelKeepsEntitlement(store, userId, faults, provider, now);
    SelectByCustomerIdStable(store, Cancel(store, userId, faults, provider, now).store, customerId);
  }

  /** When the provider later reports the subscription deleted for this
      user (the only row carrying the customer) and the deletion is written,
      the result is the same as if no
      cancellation had been requested: the "canceling" state and its
      timestamp are overwritten. */
  lemma CancelThenDeleted(store: Store, userId: int, faults: DbFaults, provider: ProviderAnswer, now: Timestamp,
                          subscription: EventObject, deleteFaults: DbFaults, later: Timestamp)
    requires WellFormed(store)
    requires ResolveCustomer(store, subscription.customer, deleteFaults.readFails) == Some(userId)
    requires CustomerOnOneRow(store, subscription.customer)
    requires !deleteFaults.writeFails
    ensures var canceled := Cancel(store, userId, faults, provider, now).store;
      HandleSubscriptionDeleted(canceled, subscription, deleteFaults, later)
        == HandleSubscriptionDeleted(store, subscription, deleteFaults, later)
  {
    var canceled := Cancel(store, userId, faults, provider, now).store;
    CancelKeepsLookup(store, userId, faults, provider, now, subscription.customer, deleteFaults.readFails);
    CancelTouchesOnlyUser(store, userId, faults, provider, now);
    var deletedRow := store[userId].(plan := PlanFree, subscriptionStatus := Some(StatusCanceled),
                                     subscriptionId := None, canceledAt := Some(later));
    DeletedRowForgetsCancel(store[userId], canceled[userId], later);
    OverwriteHides(canceled, store, userId, deletedRow);
  }

  /** A cancellation writes the user's own row and no other. */
  lemma CancelTouchesOnlyUser(store: Store, userId: int, faults: DbFaults, provider: ProviderAnswer, now: Timestamp)
    requires WellFormed(store)
    ensures var canceled := Cancel(store, userId, faults, provider, now).store;
      && canceled.Keys == store.Keys
      && (forall k :: k in store && k != userId ==> canceled[k] == store[k])
      && (userId in store ==>
            (canceled[userId] == store[userId]
             || canceled[userId] == store[userId].(subscriptionStatus := canceled[userId].subscriptionStatus,
                                                   canceledAt := canceled[userId].canceledAt)))
  {
  }

  /** Overwriting the one entry in which two tables differ makes them equal. */
  lemma OverwriteHides(a: Store, b: Store, k: int, v: UserRow)
    requires a.Keys == b.Keys && forall j :: j in a && j != k ==> a[j] == b[j]
    ensures a[k := v] == b[k := v]
  {
  }

  /** The deletion overwrites every column the cancellation wrote. */
  lemma DeletedRowForgetsCancel(row: UserRow, canceled: UserRow, later: Timestamp)
    requires canceled == row || canceled == row.(subscriptionStatus := canceled.subscriptionStatus,
                                                   canceledAt := canceled.canceledAt)
    ensures canceled.(plan := PlanFree, subscriptionStatus := Some(StatusCanceled),
                      subscriptionId := None, canceledAt := Some(later))
         == row.(plan := PlanFree, subscriptionStatus := Some(StatusCanceled),
                 subscriptionId := None, canceledAt := Some(later))
  {
  }
}
