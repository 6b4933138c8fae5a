/** The tables the payment endpoints share (orders, subscriptions, profiles, daily usage and
    subscriber profiles), held as maps keyed the way the endpoints look rows up. Remote
    PATCH and POST requests become updates of these maps. */
module Database {
  import opened JsText
  import opened Career
  import ReportPrompt

  /** A row of orders, keyed by polar_checkout_id. */
  datatype Order = Order(
    userId: Option<string>,
    email: Option<string>,
    status: string,
    paymentType: string,
    pendingSessionKey: string,
    polarOrderId: Option<string>,
    reportGenerated: bool)

  /** A row of subscriptions, keyed by polar_subscription_id. */
  datatype Subscription = Subscription(userId: string, email: string, status: string, currentPeriodEnd: Option<string>)

  /** A row of subscriber_profiles, keyed by user_id: what the daily e-mail is built from. */
  datatype SubscriberProfile = SubscriberProfile(email: string, careerInput: ReportPrompt.ReportInput, lastAnalysis: Option<Analysis>)

  /** A usage day: milliseconds since the epoch divided by the length of a day (UTC). */
  const MsPerDay: nat := 86400000

  function Day(now: nat): nat
  {
    now / MsPerDay
  }

  /** profiles[0]?.subscription_status ?? 'none', on a profiles table. */
  function StatusIn(profiles: map<string, string>, user: string): (r: string)
    ensures user !in profiles ==> r == "none"
    ensures user in profiles ==> r == profiles[user]
  {
    if user in profiles then profiles[user] else "none"
  }

  /** The report_count of a user's day in a daily_usage table; a missing row counts as 0. */
  function CountIn(usage: map<(string, nat), nat>, user: string, day: nat): (r: nat)
    ensures (user, day) !in usage ==> r == 0
    ensures (user, day) in usage ==> r == usage[(user, day)]
  {
    if (user, day) in usage then usage[(user, day)] else 0
  }

  class Database {
    var orders: map<string, Order>
    var subscriptions: map<string, Subscription>
    /** profiles.subscription_status, keyed by profile id. */
    var profiles: map<string, string>
    /** daily_usage.report_count, keyed by user and usage day. */
    var dailyUsage: map<(string, nat), nat>
    var subscriberProfiles: map<string, SubscriberProfile>
    /** How many reports each one-time order has paid for so far. */
    ghost var oneTimeReports: map<string, nat>
    /** How many subscription reports each user has had on each day. */
    ghost var dailyReports: map<(string, nat), nat>

    /** A one-time order has paid for at most one report, and one that has paid for a report
        is marked used; a subscriber has had at most one report a day, and no more reports
        than daily_usage has counted for that day. */
    ghost predicate Valid()
      reads this
    {
      && (forall id :: id in oneTimeReports ==>
            oneTimeReports[id] <= 1 && (oneTimeReports[id] >= 1 ==> id in orders && orders[id].reportGenerated))
      && (forall k :: k in dailyReports ==>
            dailyReports[k] <= 1 && dailyReports[k] <= (if k in dailyUsage then dailyUsage[k] else 0))
    }

    /** The number of reports the one-time order id has paid for. */
    ghost function ReportsFor(id: string): nat
      reads this
    {
      if id in oneTimeReports then oneTimeReports[id] else 0
    }

    /** The number of subscription reports user has had on day. */
    ghost function ReportsOn(user: string, day: nat): nat
      reads this
    {
      if (user, day) in dailyReports then dailyReports[(user, day)] else 0
    }

    constructor ()
      ensures Valid()
      ensures orders == map[] && subscriptions == map[] && profiles == map[]
      ensures dailyUsage == map[] && subscriberProfiles == map[]
    {
      orders, subscriptions, profiles := map[], map[], map[];
      dailyUsage, subscriberProfiles := map[], map[];
      oneTimeReports, dailyReports := map[], map[];
    }

    /** The report_count of a user's day; a missing row counts as 0. */
    function UsageOf(user: string, day: nat): (r: nat)
      reads this
      ensures (user, day) !in dailyUsage ==> r == 0
      ensures (user, day) in dailyUsage ==> r == dailyUsage[(user, day)]
    {
      CountIn(dailyUsage, user, day)
    }

    /** profiles[0]?.subscription_status ?? 'none'. */
    function SubscriptionStatusOf(user: string): (r: string)
      reads this
      ensures user !in profiles ==> r == "none"
      ensures user in profiles ==> r == profiles[user]
    {
      StatusIn(profiles, user)
    }
  }
}
