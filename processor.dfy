/**
 * The part of the payment processor's state that the handlers read and change:
 * customers, subscriptions and checkout sessions, each in the order the
 * processor's list calls return them.
 */
module Processor {
  import opened Wrappers
  import opened Search
  import opened Status

  /** A processor customer; `firebaseUid` is the `metadata.firebaseUID` tag, absent on customers made elsewhere. */
  datatype Customer = Customer(id: string, email: string, firebaseUid: Option<string>)

  datatype Subscription = Subscription(id: string, customer: string, status: string, cancelAtPeriodEnd: bool)

  /** The parameters a checkout session is opened with. */
  datatype Session = Session(
    id: string,
    customer: string,
    mode: string,
    paymentMethodTypes: seq<string>,
    priceId: string,
    quantity: nat,
    successUrl: string,
    cancelUrl: string,
    clientReferenceId: string)

  /** The processor calls the handlers make; in one run, each call either answers or throws. */
  datatype Call = ListCustomers | CreateCustomer | CreateSession | ListSubscriptions | UpdateSubscription

  function HasEmail(email: string): Customer -> bool
  {
    (c: Customer) => c.email == email
  }

  /** `customers.list({email, limit: 1})`: the first customer with exactly that email, if any. */
  function FirstCustomerByEmail(cs: seq<Customer>, email: string): (r: Option<Customer>)
    ensures r.Some? ==> r.value.email == email
    ensures r.Some? ==> exists i :: 0 <= i < |cs| && cs[i] == r.value &&
                          forall j :: 0 <= j < i ==> cs[j].email != email
    ensures r.None? <==> forall i :: 0 <= i < |cs| ==> cs[i].email != email
  {
    match FirstIndex(cs, HasEmail(email))
    case None => None
    case Some(i) => Some(cs[i])
  }

  /** A newly created customer is listed before the older ones (newest first). */
  function AddCustomer(cs: seq<Customer>, c: Customer): (r: seq<Customer>)
    ensures FirstCustomerByEmail(r, c.email) == Some(c)
    ensures |r| == |cs| + 1 && r[0] == c
    ensures forall i :: 0 <= i < |cs| ==> r[i + 1] == cs[i]
  {
    assert HasEmail(c.email)(([c] + cs)[0]);
    [c] + cs
  }

  predicate IsActiveFor(x: Subscription, cid: string)
  {
    x.customer == cid && x.status == ActiveStatus
  }

  function ActiveFor(cid: string): Subscription -> bool
  {
    (x: Subscription) => IsActiveFor(x, cid)
  }

  /** `subscriptions.list({customer, status: "active", limit: 1})`: the index of the first active subscription of the customer. */
  function FirstActiveSubscription(subs: seq<Subscription>, cid: string): (r: Option<nat>)
    ensures r.Some? ==> r.value < |subs| && IsActiveFor(subs[r.value], cid)
    ensures r.Some? ==> forall j :: 0 <= j < r.value ==> !IsActiveFor(subs[j], cid)
    ensures r.None? <==> forall j :: 0 <= j < |subs| ==> !IsActiveFor(subs[j], cid)
  {
    FirstIndex(subs, ActiveFor(cid))
  }

  /** `subscriptions.update(id, {cancel_at_period_end: flag})`: only the flag of the subscription with that id changes. */
  function SetCancelAtPeriodEnd(subs: seq<Subscription>, id: string, flag: bool): (r: seq<Subscription>)
    ensures |r| == |subs|
    ensures forall i :: 0 <= i < |subs| ==> r[i].(cancelAtPeriodEnd := subs[i].cancelAtPeriodEnd) == subs[i]
    ensures forall i :: 0 <= i < |subs| && subs[i].id == id ==> r[i].cancelAtPeriodEnd == flag
    ensures forall i :: 0 <= i < |subs| && subs[i].id != id ==> r[i] == subs[i]
  {
    seq(|subs|, i requires 0 <= i < |subs| =>
      if subs[i].id == id then subs[i].(cancelAtPeriodEnd := flag) else subs[i])
  }

  /** Changing the flag never changes which subscription a later list call finds. */
  lemma SetCancelAtPeriodEndKeepsActive(subs: seq<Subscription>, id: string, flag: bool, cid: string)
    ensures FirstActiveSubscription(SetCancelAtPeriodEnd(subs, id, flag), cid) == FirstActiveSubscription(subs, cid)
  {
    var r := SetCancelAtPeriodEnd(subs, id, flag);
    forall j | 0 <= j < |r|
      ensures ActiveFor(cid)(r[j]) == ActiveFor(cid)(subs[j])
    {
      assert r[j].(cancelAtPeriodEnd := subs[j].cancelAtPeriodEnd) == subs[j];
    }
    FirstIndexAgree(r, subs, ActiveFor(cid), ActiveFor(cid));
  }
}

/** The events the processor delivers to the webhook, as `stripe.webhooks.constructEvent` yields them. */
module Events {
  import opened Wrappers
  import opened Processor

  datatype Event =
    | CheckoutSessionCompleted(clientReferenceId: Option<string>)  // checkout.session.completed
    | SubscriptionUpdated(subscription: Subscription)              // customer.subscription.updated
    | SubscriptionDeleted(subscription: Subscription)              // customer.subscription.deleted
    | Unhandled(eventType: string)                                 // every other event type
}
