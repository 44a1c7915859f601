/** The three-valued subscription status kept per user, and how it is derived from a processor subscription. */
module Status {

  /** `SubscriptionStatus` of the front-end: 'subscribed' | 'pending_cancellation' | 'unsubscribed'. */
  datatype SubscriptionStatus = Subscribed | PendingCancellation | Unsubscribed

  /** The processor's status string that counts as a live subscription. */
  const ActiveStatus := "active"

  /**
   * Total map from a processor subscription's `status` and `cancel_at_period_end`
   * to the stored status: an active subscription is pending cancellation when it is
   * set to end at the period's end and subscribed otherwise; any other status
   * (canceled, past_due, incomplete, ...) reads as unsubscribed.
   */
  function DerivedStatus(status: string, cancelAtPeriodEnd: bool): (r: SubscriptionStatus)
    ensures r == PendingCancellation <==> status == ActiveStatus && cancelAtPeriodEnd
    ensures r == Subscribed <==> status == ActiveStatus && !cancelAtPeriodEnd
    ensures r == Unsubscribed <==> status != ActiveStatus
  {
    if status == ActiveStatus && cancelAtPeriodEnd then PendingCancellation
    else if status == ActiveStatus then Subscribed
    else Unsubscribed
  }
}
