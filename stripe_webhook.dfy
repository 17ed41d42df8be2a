/** The Stripe webhook: signature check, then a decision table from event type to the
    subscription call it makes. Stripe's own lookups arrive as inputs. */
module StripeWebhook {
  import opened Wrappers
  import opened Text
  import opened Web
  import opened Db
  import opened Subscriptions

  const CHECKOUT_COMPLETED: string := "checkout.session.completed"
  const SUBSCRIPTION_CREATED: string := "customer.subscription.created"
  const SUBSCRIPTION_UPDATED: string := "customer.subscription.updated"
  const SUBSCRIPTION_DELETED: string := "customer.subscription.deleted"
  const INVOICE_PAID: string := "invoice.paid"
  const INVOICE_PAYMENT_FAILED: string := "invoice.payment_failed"

  /** The fields of `event.data.object` the handler reads. For an invoice, `subscription`
      is the subscription id, whether Stripe sent it as a string or expanded. */
  datatype StripeObject = StripeObject(
    id: string,
    metadataUserId: Option<string>,
    metadataPlanId: Option<string>,
    subscription: Option<string>,
    status: Option<string>,
    customer: Option<string>,
    latestInvoice: Option<string>)

  datatype Event = Event(eventType: string, obj: StripeObject)

  /** A subscription as `stripe.subscriptions.retrieve` returns it. */
  datatype RemoteSubscription = RemoteSubscription(
    metadataUserId: Option<string>,
    metadataPlanId: Option<string>,
    customer: Option<string>,
    currentPeriodEnd: int)

  /** The calls the handler makes to look things up: whether a local subscription carries
      a Stripe id (`getSubscriptionByStripeId`, not part of this model), the `userId` in a
      customer's metadata (`None` also when `stripe.customers.retrieve` throws, which the
      handler's catch turns into no call, as a missing `userId` is), and a subscription
      fetched from Stripe, `None` when `stripe.subscriptions.retrieve` throws. */
  datatype Lookups = Lookups(
    hasLocal: string -> bool,
    customerUserId: string -> Option<string>,
    retrieve: string -> Option<RemoteSubscription>)

  /** The subscription call an event leads to. `Renew` and `ExpireStripe` name
      `handleRenewal` and `handleExpiry`, which are not part of this model. */
  datatype Action =
    | Activate(userId: string, planId: string, paymentId: Option<string>, stripeSubscriptionId: Option<string>)
    | Renew(renewedId: string, periodEnd: int, invoiceId: string)
    | ExpireStripe(deletedId: string)
    | NoAction

  /** The metadata `userId`, falling back to the customer's metadata when it is missing and
      the subscription names a customer. */
  function ResolveUser(metadataUserId: Option<string>, customer: Option<string>,
                       customerUserId: string -> Option<string>): (r: Option<string>)
    ensures Truthy(metadataUserId) ==> r == metadataUserId
    ensures !Truthy(metadataUserId) && Truthy(customer) ==> r == customerUserId(customer.value)
    ensures !Truthy(metadataUserId) && !Truthy(customer) ==> r == metadataUserId
  {
    var userId := metadataUserId;
    if !Truthy(userId) && Truthy(customer) then customerUserId(customer.value) else userId
  }

  /** `customer.subscription.created` and `.updated`: activate an active subscription that
      has no local row yet. */
  function SubscriptionChanged(sub: StripeObject, look: Lookups): (a: Action)
    ensures a.Activate? || a == NoAction
    ensures a.Activate? <==>
      && sub.status == Some("active") && !look.hasLocal(sub.id)
      && Truthy(ResolveUser(sub.metadataUserId, sub.customer, look.customerUserId)) && Truthy(sub.metadataPlanId)
    ensures a.Activate? ==> a.paymentId == sub.latestInvoice && a.stripeSubscriptionId == Some(sub.id)
  {
    if sub.status == Some("active") && !look.hasLocal(sub.id) then
      var userId := ResolveUser(sub.metadataUserId, sub.customer, look.customerUserId);
      if Truthy(userId) && Truthy(sub.metadataPlanId) then
        Activate(userId.value, sub.metadataPlanId.value, sub.latestInvoice, Some(sub.id))
      else NoAction
    else NoAction
  }

  /** `invoice.paid`: a renewal of a known subscription, otherwise a first activation when
      the fetched subscription names a user and a plan. The subscription is fetched before
      the branch, so a fetch that throws leaves both without a call. */
  function InvoicePaid(invoice: StripeObject, look: Lookups): (a: Action)
    ensures !Truthy(invoice.subscription) ==> a == NoAction
    ensures Truthy(invoice.subscription) && look.retrieve(invoice.subscription.value).None? ==> a == NoAction
    ensures Truthy(invoice.subscription) && look.hasLocal(invoice.subscription.value)
            && look.retrieve(invoice.subscription.value).Some? ==>
      a == Renew(invoice.subscription.value, look.retrieve(invoice.subscription.value).value.currentPeriodEnd * 1000,
                 invoice.id)
    ensures a.Activate? ==>
      && Truthy(invoice.subscription) && !look.hasLocal(invoice.subscription.value)
      && a.paymentId == Some(invoice.id) && a.stripeSubscriptionId == invoice.subscription
    ensures Truthy(invoice.subscription) && !look.hasLocal(invoice.subscription.value)
            && look.retrieve(invoice.subscription.value).Some? ==>
      var remote := look.retrieve(invoice.subscription.value).value;
      (a.Activate? <==> Truthy(ResolveUser(remote.metadataUserId, remote.customer, look.customerUserId))
                        && Truthy(remote.metadataPlanId))
  {
    if !Truthy(invoice.subscription) then NoAction
    else
      var subId := invoice.subscription.value;
      var existing := look.hasLocal(subId);
      match look.retrieve(subId)
      case None => NoAction
      case Some(remote) =>
        var periodEnd := remote.currentPeriodEnd * 1000;
        if !existing then
          var userId := ResolveUser(remote.metadataUserId, remote.customer, look.customerUserId);
          if Truthy(userId) && Truthy(remote.metadataPlanId) then
            Activate(userId.value, remote.metadataPlanId.value, Some(invoice.id), Some(subId))
          else NoAction
        else Renew(subId, periodEnd, invoice.id)
  }

  /** The decision table of `POST`, once the event is verified. */
  function Dispatch(e: Event, look: Lookups): (a: Action)
    ensures e.eventType == CHECKOUT_COMPLETED ==>
      (a.Activate? <==> Truthy(e.obj.metadataUserId) && Truthy(e.obj.metadataPlanId))
      && (a.Activate? ==> a.paymentId == Some(e.obj.id)) && (!a.Activate? ==> a == NoAction)
    ensures e.eventType == SUBSCRIPTION_CREATED || e.eventType == SUBSCRIPTION_UPDATED ==>
      a == SubscriptionChanged(e.obj, look)
    ensures e.eventType == INVOICE_PAID ==> a == InvoicePaid(e.obj, look)
    ensures a.Activate? ==> Truthy(Some(a.userId)) && Truthy(Some(a.planId))
    ensures a.Renew? ==> e.eventType == INVOICE_PAID && look.hasLocal(a.renewedId)
    ensures a.ExpireStripe? <==> e.eventType == SUBSCRIPTION_DELETED
    ensures a.ExpireStripe? ==> a.deletedId == e.obj.id
    ensures e.eventType == INVOICE_PAYMENT_FAILED ==> a == NoAction
  {
    var t := e.eventType;
    if t == CHECKOUT_COMPLETED then
      if Truthy(e.obj.metadataUserId) && Truthy(e.obj.metadataPlanId) then
        Activate(e.obj.metadataUserId.value, e.obj.metadataPlanId.value, Some(e.obj.id), e.obj.subscription)
      else NoAction
    else if t == SUBSCRIPTION_CREATED || t == SUBSCRIPTION_UPDATED then SubscriptionChanged(e.obj, look)
    else if t == INVOICE_PAID then InvoicePaid(e.obj, look)
    else if t == SUBSCRIPTION_DELETED then ExpireStripe(e.obj.id)
    else NoAction
  }

  datatype Reply = Refused(fail: Fail) | Received(action: Action)

  /** `handleRenewal(stripeSubscriptionId, periodEnd, invoiceId)` and
      `handleExpiry(stripeSubscriptionId)`, which are not part of this model: each is the
      store it leaves behind, given the store it starts from. A call that throws is caught
      by the handler and is the store it started from. */
  datatype Handlers = Handlers(
    renew: (State, string, int, string) -> State,
    expire: (State, string) -> State)

  /** `POST`: 400 without a signature or with one that does not verify (`verify` stands for
      `constructEvent`, `None` when it throws); otherwise the event's action, and the answer
      is `{ received: true }`. */
  function Respond(signature: Option<string>, body: string, verify: (string, string) -> Option<Event>,
                   look: Lookups): (r: Reply)
    ensures !Truthy(signature) ==> r == Refused(Fail(400, "No signature"))
    ensures Truthy(signature) && verify(body, signature.value).None? ==> r == Refused(Fail(400, "Invalid signature"))
    ensures Truthy(signature) && verify(body, signature.value).Some? ==>
      r == Received(Dispatch(verify(body, signature.value).value, look))
  {
    if !Truthy(signature) then Refused(Fail(400, "No signature"))
    else match verify(body, signature.value)
      case None => Refused(Fail(400, "Invalid signature"))
      case Some(e) => Received(Dispatch(e, look))
  }

  /** A webhook that is refused makes no subscription call. */
  lemma RefusedMakesNoCall(signature: Option<string>, body: string, verify: (string, string) -> Option<Event>,
                           look: Lookups)
    requires !Truthy(signature) || verify(body, signature.value).None?
    ensures Respond(signature, body, verify, look).Refused?
    ensures Respond(signature, body, verify, look).fail.status == 400
  {
  }

  /** The webhook endpoint over the subscription service. `storeId` maps an id string from
      Stripe metadata to the stored row it names, if any. */
  class Webhook {
    const subscriptions: SubscriptionService

    constructor (subscriptions: SubscriptionService)
      ensures this.subscriptions == subscriptions
    {
      this.subscriptions := subscriptions;
    }

    /** `POST`. An activation runs `activateSubscription`; its failure is caught and the
        event is still acknowledged. A renewal or an expiry leaves the store as the
        corresponding handler does. */
    method Post(signature: Option<string>, body: string, verify: (string, string) -> Option<Event>, look: Lookups,
                handlers: Handlers, storeId: string -> Option<Id>, now: int, monthLater: int, yearLater: int)
      returns (r: Reply)
      requires subscriptions.Valid()
      modifies subscriptions.db
      ensures r == Respond(signature, body, verify, look)
      ensures r.Refused? || r.action.NoAction? ==> subscriptions.db.Snapshot() == old(subscriptions.db.Snapshot())
      ensures r.Received? && r.action.Renew? ==>
        subscriptions.db.Snapshot() ==
          handlers.renew(old(subscriptions.db.Snapshot()), r.action.renewedId, r.action.periodEnd, r.action.invoiceId)
      ensures r.Received? && r.action.ExpireStripe? ==>
        subscriptions.db.Snapshot() == handlers.expire(old(subscriptions.db.Snapshot()), r.action.deletedId)
      ensures r.Received? && r.action.Activate? ==>
        var a := r.action;
        if storeId(a.userId).Some? && storeId(a.planId).Some? then
          match Subscriptions.Activate(old(subscriptions.db.Snapshot()), storeId(a.userId).value, storeId(a.planId).value,
                                       a.paymentId, now, monthLater, yearLater)
          case Success(v) => subscriptions.db.Snapshot() == v.0
          case Failure(_) => subscriptions.db.Snapshot() == old(subscriptions.db.Snapshot())
        else subscriptions.db.Snapshot() == old(subscriptions.db.Snapshot())
    {
      if !Truthy(signature) {
        return Refused(Fail(400, "No signature"));
      }
      var event := verify(body, signature.value);
      if event.None? {
        return Refused(Fail(400, "Invalid signature"));
      }
      var action := Dispatch(event.value, look);
      if action.Renew? {
        subscriptions.db.Restore(handlers.renew(subscriptions.db.Snapshot(), action.renewedId, action.periodEnd,
                                                action.invoiceId));
      } else if action.ExpireStripe? {
        subscriptions.db.Restore(handlers.expire(subscriptions.db.Snapshot(), action.deletedId));
      } else if action.Activate? {
        var userId := storeId(action.userId);
        var planId := storeId(action.planId);
        if userId.Some? && planId.Some? {
          var _ := subscriptions.ActivateSubscription(userId.value, planId.value, action.paymentId, now,
                                                      monthLater, yearLater);
        }
      }
      r := Received(action);
    }
  }
}
