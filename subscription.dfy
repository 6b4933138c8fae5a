/** functions/api/check-subscription.ts: whether the signed-in user has an active
    subscription, whether today's report has been used, and when the allowance resets. */
module CheckSubscription {
  import opened JsText
  import opened Database

  datatype SubscriptionReply =
    | SubError(status: int, error: string)
    | SubStatus(active: bool, limitReached: bool, resetAt: Option<nat>)

  /** The next UTC midnight after now (milliseconds since the epoch). */
  function NextUtcMidnight(now: nat): (r: nat)
    ensures now < r <= now + MsPerDay
    ensures r % MsPerDay == 0
  {
    (now / MsPerDay + 1) * MsPerDay
  }

  /** The reset time is the first moment of the next usage day. */
  lemma ResetStartsNextDay(now: nat)
    ensures Day(NextUtcMidnight(now)) == Day(now) + 1
    ensures forall t: nat :: now <= t < NextUtcMidnight(now) ==> Day(t) == Day(now)
  {
    var m := NextUtcMidnight(now);
    assert m == (Day(now) + 1) * MsPerDay;
    forall t: nat | now <= t < m
      ensures Day(t) == Day(now)
    {
      DayOfRange(t, Day(now));
    }
    DayOfRange(m, Day(now) + 1);
  }

  lemma DayOfRange(t: nat, d: nat)
    requires d * MsPerDay <= t < d * MsPerDay + MsPerDay
    ensures Day(t) == d
  {
  }

  /** onRequestGet, given the looked-up values: the user behind the token (None when the
      token is rejected), the profile's subscription_status and today's report_count (None
      when there is no row), and the clock. */
  function CheckSubscription(configured: bool, authHeader: string, user: Option<string>,
                             profileStatus: Option<string>, reportCount: Option<nat>, now: nat): (r: SubscriptionReply)
    ensures !configured ==> r == SubError(500, "Server configuration error")
    ensures configured && !StartsWith(authHeader, "Bearer ") ==> r == SubError(401, "Missing authorization")
    ensures configured && StartsWith(authHeader, "Bearer ") && user.None? ==> r == SubError(401, "Invalid token")
    ensures r.SubStatus? ==> (r.active <==> profileStatus == Some("active"))
    ensures r.SubStatus? && !r.active ==> !r.limitReached && r.resetAt.None?
    ensures r.SubStatus? && r.active ==>
      (r.limitReached <==> reportCount.Some? && reportCount.value >= 1) && r.resetAt == Some(NextUtcMidnight(now))
    ensures r.SubStatus? <==> configured && StartsWith(authHeader, "Bearer ") && user.Some?
  {
    if !configured then SubError(500, "Server configuration error")
    else if !StartsWith(authHeader, "Bearer ") then SubError(401, "Missing authorization")
    else if user.None? then SubError(401, "Invalid token")
    else
      var status := if profileStatus.Some? then profileStatus.value else "none";
      if status != "active" then SubStatus(false, false, None)
      else
        var count := if reportCount.Some? then reportCount.value else 0;
        SubStatus(true, count >= 1, Some(NextUtcMidnight(now)))
  }

  /** The same answer read from the tables. */
  function CheckSubscriptionIn(db: Database, configured: bool, authHeader: string, user: Option<string>, now: nat): (r: SubscriptionReply)
    reads db
    ensures r.SubStatus? && r.active ==>
      user.Some? && db.SubscriptionStatusOf(user.value) == "active"
      && (r.limitReached <==> db.UsageOf(user.value, Day(now)) >= 1)
  {
    var profile := if user.Some? && user.value in db.profiles then Some(db.profiles[user.value]) else None;
    var count := if user.Some? && (user.value, Day(now)) in db.dailyUsage then Some(db.dailyUsage[(user.value, Day(now))]) else None;
    CheckSubscription(configured, authHeader, user, profile, count, now)
  }
}
