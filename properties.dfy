/** What the handlers promise, stated over the handler functions of `Handlers`. */
module Properties {
  import opened Wrappers
  import opened Status
  import opened UserStore
  import opened Processor
  import opened Events
  import opened Handlers

  // ---------------------------------------------------------------- webhook

  /**
   * The webhook answers 400 exactly when the signature header is missing or the
   * signature check throws, and then changes nothing; otherwise it acknowledges
   * with `{received: true}` and its only effect is the event's dispatch.
   */
  lemma WebhookResponse(st: State, signature: Option<string>, rawBody: string, construct: EventVerifier)
    ensures var out := Webhook(st, signature, rawBody, construct);
      && (out.response == BadRequest <==> !Present(signature) || construct(rawBody, signature.value).None?)
      && (out.response == BadRequest ==> out.state == st)
      && (out.response != BadRequest ==>
            out.response == Response(200, ReceivedTrue) &&
            out.state == st.(users := ApplyEvent(st.users, construct(rawBody, signature.value).value)))
  {
  }

  /** checkout.session.completed sets exactly the referenced uid to subscribed; without a reference it is a no-op. */
  lemma CheckoutCompletedEffect(users: Store, ref: Option<string>)
    ensures var r := ApplyEvent(users, CheckoutSessionCompleted(ref));
      && (Present(ref) ==> RecordOf(r, ref.value).subscriptionStatus == Some(Subscribed))
      && (Present(ref) ==> ReadStatus(r, ref.value) == Subscribed && CustomerId(r, ref.value) == CustomerId(users, ref.value))
      && (Present(ref) ==> forall u :: u != ref.value ==> Get(r, u) == Get(users, u))
      && (!Present(ref) ==> r == users)
  {
  }

  /** The status a subscription event writes for the uid it resolves to. */
  function EventStatus(e: Event): SubscriptionStatus
    requires e.SubscriptionUpdated? || e.SubscriptionDeleted?
  {
    if e.SubscriptionUpdated? then DerivedStatus(e.subscription.status, e.subscription.cancelAtPeriodEnd)
    else Unsubscribed
  }

  /**
   * customer.subscription.updated / .deleted change only the status of the first
   * uid whose record holds the event's customer id, to the derived status or to
   * unsubscribed; when no record holds it the store is unchanged.
   */
  lemma SubscriptionEventEffect(users: Store, e: Event)
    requires e.SubscriptionUpdated? || e.SubscriptionDeleted?
    ensures var r := ApplyEvent(users, e);
      match UidByCustomerId(users, e.subscription.customer)
      case None => r == users
      case Some(uid) =>
        && HasCustomerId(users, uid, e.subscription.customer)
        && RecordOf(r, uid).subscriptionStatus == Some(EventStatus(e))
        && ReadStatus(r, uid) == EventStatus(e)
        && CustomerId(r, uid) == CustomerId(users, uid)
        && forall u :: u != uid ==> Get(r, u) == Get(users, u)
  {
  }

  /** Event types without a case are acknowledged and ignored. */
  lemma UnhandledEventIgnored(st: State, signature: Option<string>, rawBody: string, construct: EventVerifier, t: string)
    requires Present(signature) && construct(rawBody, signature.value) == Some(Unhandled(t))
    ensures Webhook(st, signature, rawBody, construct) == Outcome(Response(200, ReceivedTrue), st)
  {
  }

  /** Every branch is a set write: applying an event a second time changes nothing. */
  lemma ApplyEventIdempotent(users: Store, e: Event)
    ensures ApplyEvent(ApplyEvent(users, e), e) == ApplyEvent(users, e)
  {
    match e
    case CheckoutSessionCompleted(ref) =>
      if Present(ref) {
        SetStatusLastWriteWins(users, ref.value, Subscribed, Subscribed);
      }
    case SubscriptionUpdated(sub) =>
      SameTargetOverwrites(users, e, e);
    case SubscriptionDeleted(sub) =>
      SameTargetOverwrites(users, e, e);
    case Unhandled(_) =>
  }

  /** Redelivery of a webhook yields the same response and the same state as the first delivery. */
  lemma WebhookRedeliveryIdempotent(st: State, signature: Option<string>, rawBody: string, construct: EventVerifier)
    ensures var once := Webhook(st, signature, rawBody, construct);
      Webhook(once.state, signature, rawBody, construct) == once
  {
    if Present(signature) && construct(rawBody, signature.value).Some? {
      ApplyEventIdempotent(st.users, construct(rawBody, signature.value).value);
    }
  }

  /**
   * Two subscription events for the same customer: the later one alone decides the
   * resulting store (last write wins), whatever the earlier one wrote.
   */
  lemma SameTargetOverwrites(users: Store, e1: Event, e2: Event)
    requires e1.SubscriptionUpdated? || e1.SubscriptionDeleted?
    requires e2.SubscriptionUpdated? || e2.SubscriptionDeleted?
    requires e1.subscription.customer == e2.subscription.customer
    ensures ApplyEvent(ApplyEvent(users, e1), e2) == ApplyEvent(users, e2)
  {
    var cid := e1.subscription.customer;
    match UidByCustomerId(users, cid)
    case None =>
    case Some(uid) =>
      SetStatusKeepsLookup(users, uid, EventStatus(e1), cid);
      SetStatusLastWriteWins(users, uid, EventStatus(e1), EventStatus(e2));
  }

  /**
   * Out-of-order delivery is not corrected: of two updates of an active
   * subscription, the one applied last decides the status.
   */
  lemma UpdateOrderDecides(users: Store, uid: string, sub: Subscription)
    requires sub.status == ActiveStatus
    requires UidByCustomerId(users, sub.customer) == Some(uid)
    ensures var keep := SubscriptionUpdated(sub.(cancelAtPeriodEnd := false));
            var cancel := SubscriptionUpdated(sub.(cancelAtPeriodEnd := true));
      && ReadStatus(ApplyEvent(ApplyEvent(users, keep), cancel), uid) == PendingCancellation
      && ReadStatus(ApplyEvent(ApplyEvent(users, cancel), keep), uid) == Subscribed
  {
    var keep := SubscriptionUpdated(sub.(cancelAtPeriodEnd := false));
    var cancel := SubscriptionUpdated(sub.(cancelAtPeriodEnd := true));
    SameTargetOverwrites(users, keep, cancel);
    SameTargetOverwrites(users, cancel, keep);
  }

  // ------------------------------------------------------- cancel / reactivate

  /**
   * The command handlers fail in order: 401 without a bearer header, 500 when the
   * token does not verify, 404 without a stored customer id, 500 when listing
   * fails, 404 without an active subscription, 500 when the update fails; no
   * failure issues an update or writes the store.
   */
  lemma CommandFailures(st: State, header: Option<string>, verify: Verifier, flag: bool, failing: set<Call>)
    ensures var out := Command(st, header, verify, flag, failing);
            var auth := Authenticate(header, verify);
      && out.response.code in {200, 401, 404, 500}
      && (out.response.code != 200 ==> out.state == st)
      && (out.response.code == 401 <==> auth.NoBearer?)
      && (out.response.code == 404 <==>
            auth.Verified? &&
            var cid := CustomerId(st.users, auth.token.uid);
            (!Present(cid) ||
             (ListSubscriptions !in failing && FirstActiveSubscription(st.subscriptions, cid.value).None?)))
      && (out.response.code == 500 <==>
            auth.Rejected? ||
            (auth.Verified? &&
             var cid := CustomerId(st.users, auth.token.uid);
             Present(cid) &&
             (ListSubscriptions in failing ||
              (FirstActiveSubscription(st.subscriptions, cid.value).Some? && UpdateSubscription in failing))))
  {
  }

  /**
   * On success the first active subscription of the caller's customer gets the
   * flag, the caller's status becomes the one that flag derives to, and nothing
   * else in the store changes.
   */
  lemma CommandSucceeds(st: State, header: Option<string>, verify: Verifier, flag: bool, failing: set<Call>,
                        tok: Token, cid: string, i: nat)
    requires Authenticate(header, verify) == Verified(tok)
    requires CustomerId(st.users, tok.uid) == Some(cid) && cid != ""
    requires FirstActiveSubscription(st.subscriptions, cid) == Some(i)
    requires ListSubscriptions !in failing && UpdateSubscription !in failing
    ensures var out := Command(st, header, verify, flag, failing);
      && out.response == Response(200, SuccessTrue)
      && out.state.subscriptions == SetCancelAtPeriodEnd(st.subscriptions, st.subscriptions[i].id, flag)
      && out.state.subscriptions[i].cancelAtPeriodEnd == flag
      && RecordOf(out.state.users, tok.uid).subscriptionStatus == Some(CommandStatus(flag))
      && ReadStatus(out.state.users, tok.uid) == CommandStatus(flag)
      && ReadStatus(out.state.users, tok.uid) ==
           DerivedStatus(out.state.subscriptions[i].status, out.state.subscriptions[i].cancelAtPeriodEnd)
      && CustomerId(out.state.users, tok.uid) == Some(cid)
      && forall u :: u != tok.uid ==> Get(out.state.users, u) == Get(st.users, u)
  {
  }

  /**
   * The optimistic write agrees with the processor: when the caller is the first
   * holder of its customer id, the customer.subscription.updated event describing
   * the updated subscription leaves the store as the command left it.
   */
  lemma OptimisticWriteConfirmed(st: State, header: Option<string>, verify: Verifier, flag: bool,
                                                    failing: set<Call>, tok: Token, cid: string, i: nat)
    requires Authenticate(header, verify) == Verified(tok)
    requires CustomerId(st.users, tok.uid) == Some(cid) && cid != ""
    requires FirstActiveSubscription(st.subscriptions, cid) == Some(i)
    requires ListSubscriptions !in failing && UpdateSubscription !in failing
    requires UidByCustomerId(st.users, cid) == Some(tok.uid)
    ensures var out := Command(st, header, verify, flag, failing);
      ApplyEvent(out.state.users, SubscriptionUpdated(out.state.subscriptions[i])) == out.state.users
  {
    CommandSucceeds(st, header, verify, flag, failing, tok, cid, i);
    var out := Command(st, header, verify, flag, failing);
    var status := CommandStatus(flag);
    SetStatusKeepsLookup(st.users, tok.uid, status, cid);
    SetStatusLastWriteWins(st.users, tok.uid, status, status);
  }

  /**
   * Cancel followed by reactivate: the second command finds the same subscription,
   * so it ends with the flag cleared and the caller subscribed, exactly as if only
   * the reactivation had run.
   */
  lemma CancelThenReactivate(st: State, header: Option<string>, verify: Verifier, failing: set<Call>,
                                                tok: Token, cid: string, i: nat)
    requires Authenticate(header, verify) == Verified(tok)
    requires CustomerId(st.users, tok.uid) == Some(cid) && cid != ""
    requires FirstActiveSubscription(st.subscriptions, cid) == Some(i)
    requires ListSubscriptions !in failing && UpdateSubscription !in failing
    ensures var cancelled := Command(st, header, verify, true, failing);
            var reactivated := Command(cancelled.state, header, verify, false, failing);
      && reactivated.response == Response(200, SuccessTrue)
      && reactivated.state.users == SetStatus(st.users, tok.uid, Subscribed)
      && reactivated.state.subscriptions == SetCancelAtPeriodEnd(st.subscriptions, st.subscriptions[i].id, false)
  {
    var cancelled := Command(st, header, verify, true, failing);
    var id := st.subscriptions[i].id;
    CommandSucceeds(st, header, verify, true, failing, tok, cid, i);
    SetCancelAtPeriodEndKeepsActive(st.subscriptions, id, true, cid);
    var subs := cancelled.state.subscriptions;
    assert subs[i].id == id;
    CommandSucceeds(cancelled.state, header, verify, false, failing, tok, cid, i);
    SetStatusLastWriteWins(st.users, tok.uid, PendingCancellation, Subscribed);
    SetFlagTwice(st.subscriptions, id, true, false);
  }

  /** A later `cancel_at_period_end` update of the same subscription overwrites an earlier one. */
  lemma SetFlagTwice(subs: seq<Subscription>, id: string, a: bool, b: bool)
    ensures SetCancelAtPeriodEnd(SetCancelAtPeriodEnd(subs, id, a), id, b) == SetCancelAtPeriodEnd(subs, id, b)
  {
    var r1 := SetCancelAtPeriodEnd(SetCancelAtPeriodEnd(subs, id, a), id, b);
    var r2 := SetCancelAtPeriodEnd(subs, id, b);
    forall k | 0 <= k < |subs|
      ensures r1[k] == r2[k]
    {
    }
  }

  // ------------------------------------------------------------------ checkout

  /** Checkout never writes a subscription status and never touches subscriptions. */
  lemma CheckoutNeverWritesStatus(st: State, header: Option<string>, origin: Option<string>, verify: Verifier,
                                  priceId: string, newCustomerId: string, newSessionId: string, failing: set<Call>)
    ensures var out := Checkout(st, header, origin, verify, priceId, newCustomerId, newSessionId, failing);
      && out.state.subscriptions == st.subscriptions
      && (forall u :: RecordOf(out.state.users, u).subscriptionStatus == RecordOf(st.users, u).subscriptionStatus)
      && forall u :: ReadStatus(out.state.users, u) == ReadStatus(st.users, u)
  {
  }

  /**
   * Customer resolution: a customer found by email is reused and none is created;
   * otherwise the mapping is written only once `customers.create` has succeeded.
   * Every failure before that point leaves the state untouched; a failing session
   * call leaves the mapping written (there is no rollback).
   */
  lemma CheckoutCustomerResolution(st: State, header: Option<string>, origin: Option<string>, verify: Verifier,
                                   priceId: string, newCustomerId: string, newSessionId: string, failing: set<Call>)
    ensures var out := Checkout(st, header, origin, verify, priceId, newCustomerId, newSessionId, failing);
            var auth := Authenticate(header, verify);
      && (out.response.code == 401 <==> auth.NoBearer?)
      && out.response.code in {200, 401, 500}
      && (out.response.code == 200 <==>
            auth.Verified? && Present(auth.token.email) && ListCustomers !in failing &&
            (FirstCustomerByEmail(st.customers, auth.token.email.value).Some? || CreateCustomer !in failing) &&
            CreateSession !in failing)
      && (auth.Rejected? ==> out == Outcome(ServerError, st))
      && (auth.Verified? && (!Present(auth.token.email) || ListCustomers in failing) ==> out == Outcome(ServerError, st))
      && (CreateSession in failing ==> out.state.sessions == st.sessions)
      && (out.state != st ==> auth.Verified? && (out.response.code == 200 || CreateSession in failing))
      && (auth.Verified? && Present(auth.token.email) && ListCustomers !in failing ==>
            var found := FirstCustomerByEmail(st.customers, auth.token.email.value);
            && (found.Some? ==> out.state.customers == st.customers &&
                                out.state.users == SetCustomerId(st.users, auth.token.uid, found.value.id))
            && (found.None? && CreateCustomer in failing ==> out == Outcome(ServerError, st))
            && (found.None? && CreateCustomer !in failing ==>
                  out.state.customers == AddCustomer(st.customers, Customer(newCustomerId, auth.token.email.value, Some(auth.token.uid))) &&
                  out.state.users == SetCustomerId(st.users, auth.token.uid, newCustomerId)))
  {
  }

  /**
   * A successful checkout opens one session in subscription mode for the mapped
   * customer, one unit of the configured price, with redirect URLs built from the
   * request origin (or the local default) and the uid as client reference.
   */
  lemma CheckoutSessionParameters(st: State, header: Option<string>, origin: Option<string>, verify: Verifier,
                                  priceId: string, newCustomerId: string, newSessionId: string, failing: set<Call>)
    requires Checkout(st, header, origin, verify, priceId, newCustomerId, newSessionId, failing).response.code == 200
    ensures var out := Checkout(st, header, origin, verify, priceId, newCustomerId, newSessionId, failing);
            var uid := Authenticate(header, verify).token.uid;
            var base := if Present(origin) then origin.value else DefaultOrigin;
      && Authenticate(header, verify).Verified?
      && |out.state.sessions| == |st.sessions| + 1
      && out.state.sessions[..|st.sessions|] == st.sessions
      && var s := out.state.sessions[|st.sessions|];
         && out.response == Response(200, SessionCreated(s.id))
         && s.id == newSessionId
         && CustomerId(out.state.users, uid) == Some(s.customer)
         && s.mode == SubscriptionMode && s.paymentMethodTypes == CardOnly
         && s.priceId == priceId && s.quantity == 1
         && s.successUrl == base + "/success" && s.cancelUrl == base + "/"
         && s.clientReferenceId == uid
  {
  }

  /**
   * A second checkout for the same signed-in user after a successful one finds the
   * customer by email and creates no second processor customer.
   */
  lemma CheckoutCreatesOneCustomer(st: State, header: Option<string>, origin: Option<string>, verify: Verifier,
                                   priceId: string, newCustomerId: string, newSessionId: string, failing: set<Call>,
                                   origin2: Option<string>, newCustomerId2: string, newSessionId2: string, failing2: set<Call>)
    requires Checkout(st, header, origin, verify, priceId, newCustomerId, newSessionId, failing).response.code == 200
    ensures var once := Checkout(st, header, origin, verify, priceId, newCustomerId, newSessionId, failing);
            var twice := Checkout(once.state, header, origin2, verify, priceId, newCustomerId2, newSessionId2, failing2);
      twice.state.customers == once.state.customers
  {
    var once := Checkout(st, header, origin, verify, priceId, newCustomerId, newSessionId, failing);
    var tok := Authenticate(header, verify).token;
    var email := tok.email.value;
    var found := FirstCustomerByEmail(st.customers, email);
    if found.None? {
      assert once.state.customers == AddCustomer(st.customers, Customer(newCustomerId, email, Some(tok.uid)));
    }
    assert FirstCustomerByEmail(once.state.customers, email).Some?;
  }

  /**
   * A new user who completes checkout reads as subscribed once the
   * checkout.session.completed event for the session arrives.
   */
  lemma CheckoutThenCompleted(st: State, header: Option<string>, origin: Option<string>, verify: Verifier,
                              priceId: string, newCustomerId: string, newSessionId: string, failing: set<Call>)
    requires Checkout(st, header, origin, verify, priceId, newCustomerId, newSessionId, failing).response.code == 200
    requires Authenticate(header, verify).Verified? && Authenticate(header, verify).token.uid != ""
    ensures var out := Checkout(st, header, origin, verify, priceId, newCustomerId, newSessionId, failing);
            var session := out.state.sessions[|out.state.sessions| - 1];
            var uid := Authenticate(header, verify).token.uid;
      ReadStatus(ApplyEvent(out.state.users, CheckoutSessionCompleted(Some(session.clientReferenceId))), uid) == Subscribed
  {
  }
}
