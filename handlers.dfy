/**
 * The four request handlers of the functions backend, each as a function from the
 * state before the request (and what the outside world answers during it) to the
 * response and the state after it.
 */
module Handlers {
  import opened Wrappers
  import opened Status
  import opened UserStore
  import opened Processor
  import opened Events

  /** Everything the handlers read or write: the `users` node and the processor's objects. */
  datatype State = State(users: Store, customers: seq<Customer>, subscriptions: seq<Subscription>, sessions: seq<Session>)

  datatype Body = SessionCreated(sessionId: string) | SuccessTrue | ReceivedTrue | ErrorBody

  datatype Response = Response(code: nat, body: Body)

  datatype Outcome = Outcome(response: Response, state: State)

  const BadRequest := Response(400, ErrorBody)
  const Unauthorized := Response(401, ErrorBody)
  const NotFound := Response(404, ErrorBody)
  const ServerError := Response(500, ErrorBody)

  /** A verified ID token: the subject and its email claim. */
  datatype Token = Token(uid: string, email: Option<string>)

  /** The identity provider's `verifyIdToken`: a token yields its claims, or the call throws (None). */
  type Verifier = string -> Option<Token>

  /** `stripe.webhooks.constructEvent(rawBody, signature, secret)` with the secret fixed: an event, or it throws (None). */
  type EventVerifier = (string, string) -> Option<Event>

  const BearerPrefix := "Bearer "
  const DefaultOrigin := "http://localhost:3000"
  const SubscriptionMode := "subscription"
  const CardOnly := ["card"]

  predicate StartsWith(s: string, prefix: string)
  {
    |prefix| <= |s| && s[..|prefix|] == prefix
  }

  /** `s.split(sep)[0]`: the part of `s` before the first occurrence of `sep`, all of `s` when there is none. */
  function TakeUntil(s: string, sep: string): (r: string)
    requires sep != ""
    ensures r <= s
    ensures r == s || StartsWith(s[|r|..], sep)
    ensures forall i :: 0 <= i < |r| ==> !StartsWith(s[i..], sep)
    decreases |s|
  {
    if |s| < |sep| then s
    else if s[..|sep|] == sep then ""
    else
      var rest := TakeUntil(s[1..], sep);
      assert forall i :: 1 <= i <= |s| ==> s[i..] == s[1..][i - 1..];
      [s[0]] + rest
  }

  /** `header.split("Bearer ")[1]` for a header that starts with "Bearer ". */
  function BearerToken(header: string): (r: string)
    requires StartsWith(header, BearerPrefix)
    ensures header[..|BearerPrefix|] + r <= header
    ensures header[..|BearerPrefix|] + r == header || StartsWith(header[|BearerPrefix| + |r|..], BearerPrefix)
    ensures forall i :: |BearerPrefix| <= i < |BearerPrefix| + |r| ==> !StartsWith(header[i..], BearerPrefix)
  {
    var rest := header[|BearerPrefix|..];
    assert forall i :: |BearerPrefix| <= i <= |header| ==> header[i..] == rest[i - |BearerPrefix|..];
    TakeUntil(rest, BearerPrefix)
  }

  datatype Auth = NoBearer | Rejected | Verified(token: Token)

  /** The bearer check followed by token verification, common to the three browser-facing handlers. */
  function Authenticate(header: Option<string>, verify: Verifier): (a: Auth)
    ensures a.NoBearer? <==> header.None? || !StartsWith(header.value, BearerPrefix)
    ensures !a.NoBearer? ==> (a.Rejected? <==> verify(BearerToken(header.value)).None?)
    ensures a.Verified? ==> verify(BearerToken(header.value)) == Some(a.token)
  {
    if header.None? || !StartsWith(header.value, BearerPrefix) then NoBearer
    else match verify(BearerToken(header.value))
      case None => Rejected
      case Some(t) => Verified(t)
  }

  /** `createCheckoutSession`. */
  function Checkout(st: State, header: Option<string>, origin: Option<string>, verify: Verifier,
                    priceId: string, newCustomerId: string, newSessionId: string, failing: set<Call>): (out: Outcome)
    ensures Valid(st.users) ==> Valid(out.state.users)
    ensures out.state.subscriptions == st.subscriptions
  {
    match Authenticate(header, verify)
    case NoBearer => Outcome(Unauthorized, st)
    case Rejected => Outcome(ServerError, st)
    case Verified(tok) =>
      if !Present(tok.email) || ListCustomers in failing then Outcome(ServerError, st)
      else
        var email := tok.email.value;
        var found := FirstCustomerByEmail(st.customers, email);
        if found.None? && CreateCustomer in failing then Outcome(ServerError, st)
        else
          var customer := if found.Some? then found.value else Customer(newCustomerId, email, Some(tok.uid));
          var customers := if found.Some? then st.customers else AddCustomer(st.customers, customer);
          var mapped := st.(users := SetCustomerId(st.users, tok.uid, customer.id), customers := customers);
          if CreateSession in failing then Outcome(ServerError, mapped)
          else
            var base := if Present(origin) then origin.value else DefaultOrigin;
            var session := Session(newSessionId, customer.id, SubscriptionMode, CardOnly, priceId, 1,
                                   base + "/success", base + "/", tok.uid);
            Outcome(Response(200, SessionCreated(newSessionId)), mapped.(sessions := mapped.sessions + [session]))
  }

  /** The status the command handlers write after a successful update of `cancel_at_period_end`. */
  function CommandStatus(cancelAtPeriodEnd: bool): (r: SubscriptionStatus)
    ensures r == DerivedStatus(ActiveStatus, cancelAtPeriodEnd)
  {
    if cancelAtPeriodEnd then PendingCancellation else Subscribed
  }

  /**
   * `cancelSubscription` (cancelAtPeriodEnd = true) and `reactivateSubscription`
   * (cancelAtPeriodEnd = false): the two handlers differ only in the flag they send
   * and the status they then write.
   */
  function Command(st: State, header: Option<string>, verify: Verifier, cancelAtPeriodEnd: bool, failing: set<Call>): (out: Outcome)
    ensures Valid(st.users) ==> Valid(out.state.users)
    ensures out.state.customers == st.customers && out.state.sessions == st.sessions
  {
    match Authenticate(header, verify)
    case NoBearer => Outcome(Unauthorized, st)
    case Rejected => Outcome(ServerError, st)
    case Verified(tok) =>
      var cid := CustomerId(st.users, tok.uid);
      if !Present(cid) then Outcome(NotFound, st)
      else if ListSubscriptions in failing then Outcome(ServerError, st)
      else match FirstActiveSubscription(st.subscriptions, cid.value)
        case None => Outcome(NotFound, st)
        case Some(i) =>
          if UpdateSubscription in failing then Outcome(ServerError, st)
          else
            var subs := SetCancelAtPeriodEnd(st.subscriptions, st.subscriptions[i].id, cancelAtPeriodEnd);
            var users := SetStatus(st.users, tok.uid, CommandStatus(cancelAtPeriodEnd));
            Outcome(Response(200, SuccessTrue), st.(users := users, subscriptions := subs))
  }

  /** The dispatch of `stripeWebhook` on an authenticated event: at most one unconditional status write. */
  function ApplyEvent(users: Store, e: Event): (r: Store)
    ensures Valid(users) ==> Valid(r)
  {
    match e
    case CheckoutSessionCompleted(ref) =>
      if Present(ref) then SetStatus(users, ref.value, Subscribed) else users
    case SubscriptionUpdated(sub) =>
      (match UidByCustomerId(users, sub.customer)
       case None => users
       case Some(uid) => SetStatus(users, uid, DerivedStatus(sub.status, sub.cancelAtPeriodEnd)))
    case SubscriptionDeleted(sub) =>
      (match UidByCustomerId(users, sub.customer)
       case None => users
       case Some(uid) => SetStatus(users, uid, Unsubscribed))
    case Unhandled(_) => users
  }

  /** `stripeWebhook`. */
  function Webhook(st: State, signature: Option<string>, rawBody: string, construct: EventVerifier): (out: Outcome)
    ensures Valid(st.users) ==> Valid(out.state.users)
    ensures out.state.customers == st.customers && out.state.subscriptions == st.subscriptions
    ensures out.state.sessions == st.sessions
  {
    if !Present(signature) then Outcome(BadRequest, st)
    else match construct(rawBody, signature.value)
      case None => Outcome(BadRequest, st)
      case Some(e) => Outcome(Response(200, ReceivedTrue), st.(users := ApplyEvent(st.users, e)))
  }
}
