/**
 * The realtime-database node `users/<uid>` as a keyed store: each record has a
 * `subscriptionStatus` and a `stripeCustomerId` field, each of which may be absent.
 * `order` is the order in which a query over the node returns the records, so that
 * "the first key of the result" is well defined.
 */
module UserStore {
  import opened Wrappers
  import opened Search
  import opened Status

  datatype UserRec = UserRec(subscriptionStatus: Option<SubscriptionStatus>, stripeCustomerId: Option<string>)

  datatype Store = Store(order: seq<string>, records: map<string, UserRec>)

  /** A record with neither field set: what a field write starts from when the uid has no record. */
  const Blank := UserRec(None, None)

  /** Every uid appears once in the query order, and exactly the stored uids appear there. */
  ghost predicate Valid(s: Store)
  {
    && (forall i, j :: 0 <= i < j < |s.order| ==> s.order[i] != s.order[j])
    && (forall u :: u in s.records <==> u in s.order)
  }

  function Get(s: Store, uid: string): Option<UserRec>
  {
    if uid in s.records then Some(s.records[uid]) else None
  }

  function RecordOf(s: Store, uid: string): UserRec
  {
    if uid in s.records then s.records[uid] else Blank
  }

  /** What a client reads for `users/<uid>/subscriptionStatus`: an absent value reads as unsubscribed. */
  function ReadStatus(s: Store, uid: string): (r: SubscriptionStatus)
    ensures Get(s, uid).None? || Get(s, uid).value.subscriptionStatus.None? ==> r == Unsubscribed
    ensures Get(s, uid).Some? && Get(s, uid).value.subscriptionStatus.Some? ==> Some(r) == Get(s, uid).value.subscriptionStatus
  {
    var stored := RecordOf(s, uid).subscriptionStatus;
    if stored.Some? then stored.value else Unsubscribed
  }

  /** What a handler reads for `users/<uid>/stripeCustomerId`. */
  function CustomerId(s: Store, uid: string): (r: Option<string>)
    ensures Get(s, uid).None? ==> r.None?
    ensures Get(s, uid).Some? ==> r == Get(s, uid).value.stripeCustomerId
  {
    RecordOf(s, uid).stripeCustomerId
  }

  /** Replaces the uid's record; a uid without a record is added after all others. */
  function Update(s: Store, uid: string, rec: UserRec): (t: Store)
    ensures Valid(s) ==> Valid(t)
    ensures Get(t, uid) == Some(rec)
    ensures forall u :: u != uid ==> Get(t, u) == Get(s, u)
    ensures uid in s.records ==> t.order == s.order
    ensures uid !in s.records ==> t.order == s.order + [uid]
  {
    if uid in s.records then Store(s.order, s.records[uid := rec])
    else Store(s.order + [uid], s.records[uid := rec])
  }

  /** `ref("users/<uid>/subscriptionStatus").set(x)`: an unconditional set of one field. */
  function SetStatus(s: Store, uid: string, x: SubscriptionStatus): (t: Store)
    ensures Valid(s) ==> Valid(t)
    ensures RecordOf(t, uid).subscriptionStatus == Some(x)
    ensures ReadStatus(t, uid) == x
    ensures CustomerId(t, uid) == CustomerId(s, uid)
    ensures forall u :: u != uid ==> Get(t, u) == Get(s, u)
  {
    Update(s, uid, RecordOf(s, uid).(subscriptionStatus := Some(x)))
  }

  /** `ref("users/<uid>/stripeCustomerId").set(c)`: an unconditional set of one field. */
  function SetCustomerId(s: Store, uid: string, c: string): (t: Store)
    ensures Valid(s) ==> Valid(t)
    ensures CustomerId(t, uid) == Some(c)
    ensures forall u :: RecordOf(t, u).subscriptionStatus == RecordOf(s, u).subscriptionStatus
    ensures forall u :: ReadStatus(t, u) == ReadStatus(s, u)
    ensures forall u :: u != uid ==> Get(t, u) == Get(s, u)
  {
    Update(s, uid, RecordOf(s, uid).(stripeCustomerId := Some(c)))
  }

  /** The record of `u` matches the query `orderByChild("stripeCustomerId").equalTo(cid)`. */
  predicate HasCustomerId(s: Store, u: string, cid: string)
  {
    u in s.records && s.records[u].stripeCustomerId == Some(cid)
  }

  function MatchesCustomer(s: Store, cid: string): string -> bool
  {
    (u: string) => HasCustomerId(s, u, cid)
  }

  /**
   * Reverse lookup processor customer id -> uid: the first uid, in query order,
   * whose record holds that customer id; none when no record does.
   */
  function UidByCustomerId(s: Store, cid: string): (r: Option<string>)
    ensures r.Some? ==> HasCustomerId(s, r.value, cid)
    ensures r.Some? ==> exists i :: 0 <= i < |s.order| && s.order[i] == r.value &&
                          forall j :: 0 <= j < i ==> !HasCustomerId(s, s.order[j], cid)
    ensures r.None? <==> forall i :: 0 <= i < |s.order| ==> !HasCustomerId(s, s.order[i], cid)
    ensures Valid(s) ==> (r.None? <==> forall u :: !HasCustomerId(s, u, cid))
  {
    match FirstIndex(s.order, MatchesCustomer(s, cid))
    case None => None
    case Some(i) => Some(s.order[i])
  }

  /** The reverse lookup as a scan over the records in query order. */
  method FindUidByCustomerId(s: Store, cid: string) returns (r: Option<string>)
    ensures r == UidByCustomerId(s, cid)
  {
    var i := 0;
    while i < |s.order|
      invariant 0 <= i <= |s.order|
      invariant forall j :: 0 <= j < i ==> !HasCustomerId(s, s.order[j], cid)
    {
      var u := s.order[i];
      if u in s.records && s.records[u].stripeCustomerId == Some(cid) {
        assert MatchesCustomer(s, cid)(s.order[i]);
        return Some(u);
      }
      i := i + 1;
    }
    return None;
  }

  /** A later status write for the same uid overwrites an earlier one completely. */
  lemma SetStatusLastWriteWins(s: Store, uid: string, x: SubscriptionStatus, y: SubscriptionStatus)
    ensures SetStatus(SetStatus(s, uid, x), uid, y) == SetStatus(s, uid, y)
  {
    var t := SetStatus(s, uid, x);
    assert uid in t.records;
    assert t.records[uid := RecordOf(t, uid).(subscriptionStatus := Some(y))]
        == s.records[uid := RecordOf(s, uid).(subscriptionStatus := Some(y))];
  }

  /** Writing a status never changes which uid the reverse lookup finds. */
  lemma SetStatusKeepsLookup(s: Store, uid: string, x: SubscriptionStatus, cid: string)
    ensures UidByCustomerId(SetStatus(s, uid, x), cid) == UidByCustomerId(s, cid)
  {
    var t := SetStatus(s, uid, x);
    var p, q := MatchesCustomer(s, cid), MatchesCustomer(t, cid);
    forall j | 0 <= j < |s.order|
      ensures p(s.order[j]) == q(s.order[j])
    {
      var v := s.order[j];
      if v != uid {
        assert Get(t, v) == Get(s, v);
      }
    }
    FirstIndexAgree(s.order, s.order, p, q);
    if uid !in s.records {
      assert !q(uid);
      FirstIndexAppendMiss(s.order, uid, q);
    }
  }
}
