/**
 * The functions backend as an object holding the shared state: each handler runs its
 * steps in order, writes the fields it changes as it goes, and returns early on the
 * first failing step. Each method's effect is the handler function of the same name
 * in `Handlers`, whose properties are proved in `Properties`.
 */
module Functions {
  import opened Wrappers
  import opened Status
  import opened UserStore
  import opened Processor
  import opened Events
  import opened Handlers

  class Backend {
    var users: Store
    var customers: seq<Customer>
    var subscriptions: seq<Subscription>
    var sessions: seq<Session>

    function Snapshot(): State
      reads this
    {
      State(users, customers, subscriptions, sessions)
    }

    /** The object invariant: the `users` node is a well-formed store (each uid once, in query order). */
    ghost predicate Valid()
      reads this
    {
      UserStore.Valid(users)
    }

    constructor (st: State)
      requires UserStore.Valid(st.users)
      ensures Valid() && Snapshot() == st
    {
      users, customers, subscriptions, sessions := st.users, st.customers, st.subscriptions, st.sessions;
    }

    /** `createCheckoutSession`; `newCustomerId` and `newSessionId` are the ids the processor assigns. */
    method CreateCheckoutSession(header: Option<string>, origin: Option<string>, verify: Verifier,
                                 priceId: string, newCustomerId: string, newSessionId: string,
                                 failing: set<Call>) returns (resp: Response)
      requires Valid()
      modifies this
      ensures Valid()
      ensures Outcome(resp, Snapshot()) ==
              Checkout(old(Snapshot()), header, origin, verify, priceId, newCustomerId, newSessionId, failing)
    {
      var auth := Authenticate(header, verify);
      if auth.NoBearer? {
        return Unauthorized;
      }
      if auth.Rejected? {
        return ServerError;
      }
      var token := auth.token;
      if !Present(token.email) {
        return ServerError;
      }
      if ListCustomers in failing {
        return ServerError;
      }
      var found := FirstCustomerByEmail(customers, token.email.value);
      var customer: Customer;
      if found.Some? {
        customer := found.value;
        users := SetCustomerId(users, token.uid, customer.id);
      } else {
        if CreateCustomer in failing {
          return ServerError;
        }
        customer := Customer(newCustomerId, token.email.value, Some(token.uid));
        customers := AddCustomer(customers, customer);
        users := SetCustomerId(users, token.uid, customer.id);
      }
      var base := if Present(origin) then origin.value else DefaultOrigin;
      if CreateSession in failing {
        return ServerError;
      }
      sessions := sessions + [Session(newSessionId, customer.id, SubscriptionMode, CardOnly, priceId, 1,
                                      base + "/success", base + "/", token.uid)];
      resp := Response(200, SessionCreated(newSessionId));
    }

    /** `cancelSubscription`. */
    method CancelSubscription(header: Option<string>, verify: Verifier, failing: set<Call>) returns (resp: Response)
      requires Valid()
      modifies this
      ensures Valid()
      ensures Outcome(resp, Snapshot()) == Command(old(Snapshot()), header, verify, true, failing)
    {
      resp := SetCancelAtPeriodEndFlag(header, verify, true, failing);
    }

    /** `reactivateSubscription`. */
    method ReactivateSubscription(header: Option<string>, verify: Verifier, failing: set<Call>) returns (resp: Response)
      requires Valid()
      modifies this
      ensures Valid()
      ensures Outcome(resp, Snapshot()) == Command(old(Snapshot()), header, verify, false, failing)
    {
      resp := SetCancelAtPeriodEndFlag(header, verify, false, failing);
    }

    /** The steps shared by the two command handlers. */
    method SetCancelAtPeriodEndFlag(header: Option<string>, verify: Verifier, flag: bool, failing: set<Call>)
      returns (resp: Response)
      requires Valid()
      modifies this
      ensures Valid()
      ensures Outcome(resp, Snapshot()) == Command(old(Snapshot()), header, verify, flag, failing)
    {
      var auth := Authenticate(header, verify);
      if auth.NoBearer? {
        return Unauthorized;
      }
      if auth.Rejected? {
        return ServerError;
      }
      var uid := auth.token.uid;
      var cid := CustomerId(users, uid);
      if !Present(cid) {
        return NotFound;
      }
      if ListSubscriptions in failing {
        return ServerError;
      }
      var active := FirstActiveSubscription(subscriptions, cid.value);
      if active.None? {
        return NotFound;
      }
      if UpdateSubscription in failing {
        return ServerError;
      }
      subscriptions := SetCancelAtPeriodEnd(subscriptions, subscriptions[active.value].id, flag);
      // Optimistic write: the store runs ahead of the processor until the
      // customer.subscription.updated event for this change arrives.
      users := SetStatus(users, uid, CommandStatus(flag));
      resp := Response(200, SuccessTrue);
    }

    /** `stripeWebhook`; `construct` stands for the signature check over the raw body. */
    method StripeWebhook(signature: Option<string>, rawBody: string, construct: EventVerifier) returns (resp: Response)
      requires Valid()
      modifies this`users
      ensures Valid()
      ensures Outcome(resp, Snapshot()) == Webhook(old(Snapshot()), signature, rawBody, construct)
    {
      if !Present(signature) {
        return BadRequest;
      }
      var event := construct(rawBody, signature.value);
      if event.None? {
        return BadRequest;
      }
      match event.value {
        case CheckoutSessionCompleted(ref) =>
          if Present(ref) {
            users := SetStatus(users, ref.value, Subscribed);
          }
        case SubscriptionUpdated(sub) =>
          var uid := FindUidByCustomerId(users, sub.customer);
          if uid.Some? {
            users := SetStatus(users, uid.value, DerivedStatus(sub.status, sub.cancelAtPeriodEnd));
          }
        case SubscriptionDeleted(sub) =>
          var uid := FindUidByCustomerId(users, sub.customer);
          if uid.Some? {
            users := SetStatus(users, uid.value, Unsubscribed);
          }
        case Unhandled(_) =>
      }
      resp := Response(200, ReceivedTrue);
    }
  }
}
