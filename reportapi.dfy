/** functions/api/report.ts, the request side: the payment gate (verifyPayment) and
    onRequestPost, which checks the request, passes the gate, builds the prompt, asks the
    language model, and on success marks the one-time order used or records the
    subscriber's latest analysis. */
module ReportApi {
  import opened JsText
  import opened Career
  import opened Database
  import opened ReportPrompt
  import ReportPage
  import CheckSubscription

  /** body.credential: the checkout id of a one-time purchase, and the payment type. */
  datatype Credential = Credential(orderId: string, paymentType: string)

  /** The user the auth service returns for a token; email is None when absent. */
  datatype AuthUser = AuthUser(id: string, email: Option<string>)

  datatype PaymentCheck = Passed(userId: Option<string>, userEmail: Option<string>) | Rejected(status: int, error: string)

  /** The one-time order gate: the order must exist, be paid, and not have been used. */
  function OrderGate(order: Option<Order>): (r: PaymentCheck)
    ensures r.Passed? <==> order.Some? && order.value.status == "succeeded" && !order.value.reportGenerated
    ensures r.Passed? ==> r == Passed(None, None)
    ensures r.Rejected? ==> r.status == 402
  {
    if order.None? then Rejected(402, "Order not found")
    else if order.value.status != "succeeded" then Rejected(402, "Payment not completed")
    else if order.value.reportGenerated then Rejected(402, "Report already generated for this order")
    else Passed(None, None)
  }

  /** Once a paid order has been marked, the gate turns it away: an order pays for one report. */
  lemma MarkedOrderRejected(o: Order)
    requires o.status == "succeeded"
    ensures OrderGate(Some(o.(reportGenerated := true))) == Rejected(402, "Report already generated for this order")
  {
  }

  /** The daily limit: the count after the increment may be at most 1. */
  predicate OverDailyLimit(countAfter: int)
  {
    countAfter > 1
  }

  /** check-subscription reports the limit as reached exactly when the report gate would
      turn the next request of the day away. */
  lemma LimitAgreesWithGate(authHeader: string, user: string, count: nat, now: nat)
    requires StartsWith(authHeader, "Bearer ")
    ensures var r := CheckSubscription.CheckSubscription(true, authHeader, Some(user), Some("active"), Some(count), now);
      r.SubStatus? && r.active && (r.limitReached <==> OverDailyLimit(count + 1))
  {
  }

  /** The order row for a checkout id, if there is one. */
  function OrderIn(orders: map<string, Order>, id: string): (r: Option<Order>)
    ensures r.Some? <==> id in orders
    ensures r.Some? ==> r.value == orders[id]
  {
    if id in orders then Some(orders[id]) else None
  }

  /** The subscription path reaches a successful increment_daily_usage call: a bearer
      token the auth service accepts, for a user whose profile is active. */
  predicate Increments(profiles: map<string, string>, credential: Credential, authHeader: string,
                       auth: Option<AuthUser>, rpcOk: bool)
  {
    && credential.paymentType == "subscription" && StartsWith(authHeader, "Bearer ")
    && auth.Some? && StatusIn(profiles, auth.value.id) == "active" && rpcOk
  }

  /** daily_usage after verifyPayment: the user's count for the day goes up by one exactly
      when the increment call is made and succeeds. */
  function UsageAfter(profiles: map<string, string>, usage: map<(string, nat), nat>, credential: Credential,
                      authHeader: string, auth: Option<AuthUser>, rpcOk: bool, day: nat): map<(string, nat), nat>
  {
    if Increments(profiles, credential, authHeader, auth, rpcOk)
    then usage[(auth.value.id, day) := CountIn(usage, auth.value.id, day) + 1]
    else usage
  }

  /** The decision of verifyPayment, on the tables as they were when the request came in. */
  function Gate(orders: map<string, Order>, profiles: map<string, string>, usage: map<(string, nat), nat>,
                credential: Credential, authHeader: string, auth: Option<AuthUser>, rpcOk: bool, day: nat): (r: PaymentCheck)
    ensures credential.paymentType == "one_time" ==> r == OrderGate(OrderIn(orders, credential.orderId))
    ensures credential.paymentType == "subscription" ==>
      && (!StartsWith(authHeader, "Bearer ") ==> r == Rejected(401, "Missing authorization token"))
      && (StartsWith(authHeader, "Bearer ") && auth.None? ==> r == Rejected(401, "Invalid token"))
      && (StartsWith(authHeader, "Bearer ") && auth.Some? && StatusIn(profiles, auth.value.id) != "active" ==>
            r == Rejected(402, "No active subscription"))
      && (StartsWith(authHeader, "Bearer ") && auth.Some? && StatusIn(profiles, auth.value.id) == "active" && !rpcOk ==>
            r == Rejected(500, "Usage tracking failed"))
    ensures Increments(profiles, credential, authHeader, auth, rpcOk) ==>
      var user := auth.value.id;
      && (OverDailyLimit(CountIn(usage, user, day) + 1) ==> r == Rejected(402, "Daily report limit reached (1 per day)"))
      && (!OverDailyLimit(CountIn(usage, user, day) + 1) ==>
            r == Passed(Some(user), Some(if auth.value.email.Some? then auth.value.email.value else "")))
    ensures credential.paymentType != "one_time" && credential.paymentType != "subscription" ==>
      r == Rejected(400, "Unknown payment type")
    // The gate lets a request through only for a paid, unused order, or for an active
    // subscriber's first counted request of the day.
    ensures r.Passed? <==>
      (credential.paymentType == "one_time" && OrderGate(OrderIn(orders, credential.orderId)).Passed?)
      || (Increments(profiles, credential, authHeader, auth, rpcOk) && CountIn(usage, auth.value.id, day) == 0)
    ensures r.Rejected? ==> r.status in {400, 401, 402, 500}
  {
    if credential.paymentType == "one_time" then OrderGate(OrderIn(orders, credential.orderId))
    else if credential.paymentType == "subscription" then
      if !StartsWith(authHeader, "Bearer ") then Rejected(401, "Missing authorization token")
      else if auth.None? then Rejected(401, "Invalid token")
      else if StatusIn(profiles, auth.value.id) != "active" then Rejected(402, "No active subscription")
      else if !rpcOk then Rejected(500, "Usage tracking failed")
      else if OverDailyLimit(CountIn(usage, auth.value.id, day) + 1) then Rejected(402, "Daily report limit reached (1 per day)")
      else Passed(Some(auth.value.id), Some(if auth.value.email.Some? then auth.value.email.value else ""))
    else Rejected(400, "Unknown payment type")
  }

  /** verifyPayment. auth is what the auth service returned for the bearer token (None for
      a non-ok answer); rpcOk tells whether the increment_daily_usage call succeeded, which
      adds one to the user's count for the day. */
  method VerifyPayment(db: Database, credential: Credential, authHeader: string, auth: Option<AuthUser>,
                       rpcOk: bool, day: nat)
    returns (check: PaymentCheck)
    requires db.Valid()
    modifies db
    ensures db.Valid()
    ensures check == Gate(old(db.orders), old(db.profiles), old(db.dailyUsage), credential, authHeader, auth, rpcOk, day)
    ensures db.dailyUsage == UsageAfter(old(db.profiles), old(db.dailyUsage), credential, authHeader, auth, rpcOk, day)
    ensures db.orders == old(db.orders) && db.subscriptions == old(db.subscriptions) && db.profiles == old(db.profiles)
    ensures db.subscriberProfiles == old(db.subscriberProfiles)
    ensures db.oneTimeReports == old(db.oneTimeReports) && db.dailyReports == old(db.dailyReports)
    // A subscriber let through has had no report yet that day.
    ensures check.Passed? && credential.paymentType == "subscription" ==>
      check.userId == Some(auth.value.id) && db.UsageOf(auth.value.id, day) == 1 && db.ReportsOn(auth.value.id, day) == 0
  {
    if credential.paymentType == "one_time" {
      return OrderGate(OrderIn(db.orders, credential.orderId));
    }
    if credential.paymentType == "subscription" {
      if !StartsWith(authHeader, "Bearer ") {
        return Rejected(401, "Missing authorization token");
      }
      if auth.None? {
        return Rejected(401, "Invalid token");
      }
      var user := auth.value.id;
      var email := if auth.value.email.Some? then auth.value.email.value else "";
      if db.SubscriptionStatusOf(user) != "active" {
        return Rejected(402, "No active subscription");
      }
      if !rpcOk {
        return Rejected(500, "Usage tracking failed");
      }
      var count := db.UsageOf(user, day) + 1;
      ghost var reports := db.ReportsOn(user, day);
      assert reports <= count - 1 by {
        assert (user, day) in db.dailyReports ==> db.dailyReports[(user, day)] <= db.UsageOf(user, day);
      }
      db.dailyUsage := db.dailyUsage[(user, day) := count];
      if OverDailyLimit(count) {
        return Rejected(402, "Daily report limit reached (1 per day)");
      }
      return Passed(Some(user), Some(email));
    }
    return Rejected(400, "Unknown payment type");
  }

  datatype ReportEnv = ReportEnv(openAiKey: string, supabaseUrl: string, viteSupabaseUrl: string, serviceRoleKey: string)

  /** The request body; None for a field that is absent. */
  datatype ReportBody = ReportBody(careerInput: Option<ReportInput>, analysis: Option<Analysis>, credential: Option<Credential>)

  /** How the language-model call ended: the call or the parsing of its answer threw, a
      non-ok status, an answer without content, or the parsed report. */
  datatype ModelOutcome = ModelThrew(message: string) | ModelNotOk(status: int) | ModelEmpty | ModelReport(report: ReportPage.ReportData)

  datatype ReportReply = ReportOk(report: ReportPage.ReportData) | ReportError(status: int, error: string)

  /** The configuration the handler needs: the model key, a database URL and the service key. */
  predicate Configured(env: ReportEnv)
  {
    env.openAiKey != "" && (env.supabaseUrl != "" || env.viteSupabaseUrl != "") && env.serviceRoleKey != ""
  }

  /** The checks before payment: configuration, then the body and its fields. */
  function RequestError(env: ReportEnv, body: Option<ReportBody>): (r: Option<ReportReply>)
    ensures r.None? <==>
      Configured(env) && body.Some? && body.value.careerInput.Some? && body.value.analysis.Some? && body.value.credential.Some?
    ensures env.openAiKey == "" ==> r == Some(ReportError(500, "OpenAI API key not configured"))
    ensures env.openAiKey != "" && ((env.supabaseUrl == "" && env.viteSupabaseUrl == "") || env.serviceRoleKey == "") ==>
      r == Some(ReportError(500, "Database not configured"))
    ensures Configured(env) && body.None? ==> r == Some(ReportError(400, "Invalid request body"))
    ensures Configured(env) && body.Some? && (body.value.careerInput.None? || body.value.analysis.None?) ==>
      r == Some(ReportError(400, "Missing careerInput or analysis"))
    ensures Configured(env) && body.Some? && body.value.careerInput.Some? && body.value.analysis.Some?
            && body.value.credential.None? ==>
      r == Some(ReportError(402, "Payment required"))
  {
    if env.openAiKey == "" then Some(ReportError(500, "OpenAI API key not configured"))
    else if (env.supabaseUrl == "" && env.viteSupabaseUrl == "") || env.serviceRoleKey == "" then
      Some(ReportError(500, "Database not configured"))
    else if body.None? then Some(ReportError(400, "Invalid request body"))
    else if body.value.careerInput.None? || body.value.analysis.None? then
      Some(ReportError(400, "Missing careerInput or analysis"))
    else if body.value.credential.None? then Some(ReportError(402, "Payment required"))
    else None
  }

  /** The reply once the gate has passed: the report, or the error the model call came to. */
  function ModelReply(model: ModelOutcome): (r: ReportReply)
    ensures r.ReportOk? <==> model.ModelReport?
    ensures model.ModelReport? ==> r == ReportOk(model.report)
    ensures model.ModelThrew? ==>
      r == ReportError(500, if model.message != "" then model.message else "Failed to generate report")
    ensures model.ModelNotOk? ==> r == ReportError(502, "OpenAI API error: " + IntText(model.status))
    ensures model.ModelEmpty? ==> r == ReportError(502, "Empty response from OpenAI")
  {
    match model
    case ModelThrew(message) => ReportError(500, if message != "" then message else "Failed to generate report")
    case ModelNotOk(status) => ReportError(502, "OpenAI API error: " + IntText(status))
    case ModelEmpty => ReportError(502, "Empty response from OpenAI")
    case ModelReport(report) => ReportOk(report)
  }

  /** The previous analysis a subscriber's report is compared with. */
  function PreviousAnalysis(profiles: map<string, SubscriberProfile>, credential: Credential, check: PaymentCheck): (r: Option<Analysis>)
    ensures credential.paymentType != "subscription" || check.Rejected? ==> r.None?
    ensures r.Some? <==>
      && credential.paymentType == "subscription" && check.Passed? && check.userId.Some?
      && check.userId.value != "" && check.userId.value in profiles
      && profiles[check.userId.value].lastAnalysis.Some?
    ensures r.Some? ==> r == profiles[check.userId.value].lastAnalysis
  {
    if credential.paymentType == "subscription" && check.Passed? && check.userId.Some? && check.userId.value != ""
       && check.userId.value in profiles
    then profiles[check.userId.value].lastAnalysis
    else None
  }

  /** onRequestPost. now is the clock in milliseconds; the usage day is its UTC day. The
      prompt handed to the language model is returned beside the reply. */
  method GenerateReport(db: Database, env: ReportEnv, body: Option<ReportBody>, authHeader: string,
                        auth: Option<AuthUser>, rpcOk: bool, now: nat, model: ModelOutcome)
    returns (reply: ReportReply, prompt: Option<PromptData>)
    requires db.Valid()
    modifies db
    ensures db.Valid()
    ensures db.subscriptions == old(db.subscriptions) && db.profiles == old(db.profiles)
    // A request turned away before payment is answered as checked and changes nothing.
    ensures RequestError(env, body).Some? ==>
      reply == RequestError(env, body).value && prompt.None?
      && db.orders == old(db.orders) && db.dailyUsage == old(db.dailyUsage)
      && db.subscriberProfiles == old(db.subscriberProfiles)
    // Otherwise the gate decides: a rejection is the reply; past the gate the prompt is built
    // from the defaulted input, compared with the subscriber's stored last analysis, and the
    // reply is what the model call came to.
    ensures RequestError(env, body).None? ==>
      var c := body.value.credential.value;
      var input, analysis := WithDefaults(body.value.careerInput.value), body.value.analysis.value;
      var gate := Gate(old(db.orders), old(db.profiles), old(db.dailyUsage), c, authHeader, auth, rpcOk, Day(now));
      && (gate.Rejected? ==> reply == ReportError(gate.status, gate.error) && prompt.None?)
      && (gate.Passed? ==>
            reply == ModelReply(model)
            && prompt == Some(BuildPrompt(input, analysis, PreviousAnalysis(old(db.subscriberProfiles), c, gate)))
            && prompt.value.signals == DecisionSignals(input, analysis)
            && prompt.value.skillGaps == SkillGaps(analysis.skills))
      && db.dailyUsage == UsageAfter(old(db.profiles), old(db.dailyUsage), c, authHeader, auth, rpcOk, Day(now))
    // A delivered one-time report marks its order used; no other path touches orders.
    ensures reply.ReportOk? && body.value.credential.value.paymentType == "one_time" ==>
      var id := body.value.credential.value.orderId;
      && id in old(db.orders) && old(db.orders)[id].status == "succeeded" && !old(db.orders)[id].reportGenerated
      && db.orders == old(db.orders)[id := old(db.orders)[id].(reportGenerated := true)]
      && db.subscriberProfiles == old(db.subscriberProfiles)
      && old(db.ReportsFor(id)) == 0 && db.ReportsFor(id) == 1
    ensures !(reply.ReportOk? && body.value.credential.value.paymentType == "one_time") ==> db.orders == old(db.orders)
    // A delivered subscription report is the first of the day, and the subscriber's input
    // and analysis are stored when the user and e-mail are known.
    ensures reply.ReportOk? && body.value.credential.value.paymentType == "subscription" ==>
      var user := auth.value.id;
      var email := if auth.value.email.Some? then auth.value.email.value else "";
      var day := Day(now);
      && old(db.UsageOf(user, day)) == 0 && db.UsageOf(user, day) == 1
      && old(db.ReportsOn(user, day)) == 0 && db.ReportsOn(user, day) == 1
      && (user != "" && email != "" ==>
            db.subscriberProfiles == old(db.subscriberProfiles)[user :=
              SubscriberProfile(email, WithDefaults(body.value.careerInput.value), Some(body.value.analysis.value))])
      && (user == "" || email == "" ==> db.subscriberProfiles == old(db.subscriberProfiles))
    ensures !reply.ReportOk? ==> db.subscriberProfiles == old(db.subscriberProfiles)
  {
    prompt := None;
    var early := RequestError(env, body);
    if early.Some? {
      return early.value, prompt;
    }
    var req := body.value;
    var credential := req.credential.value;
    var analysis := req.analysis.value;
    var day := Day(now);
    var check := VerifyPayment(db, credential, authHeader, auth, rpcOk, day);
    if check.Rejected? {
      return ReportError(check.status, check.error), prompt;
    }
    var input := WithDefaults(req.careerInput.value);
    var previous := PreviousAnalysis(db.subscriberProfiles, credential, check);
    prompt := Some(BuildPrompt(input, analysis, previous));
    reply := ModelReply(model);
    if reply.ReportOk? {
      RecordReport(db, credential, check, day, input, analysis);
    }
  }

  /** What a delivered report leaves behind: a one-time order is marked used and its
      report counted; a subscriber's report is counted for the day, and with a known
      e-mail address the input and analysis are kept for the daily digest and the next
      report's comparison. */
  method RecordReport(db: Database, credential: Credential, check: PaymentCheck, day: nat,
                      input: ReportInput, analysis: Analysis)
    requires db.Valid()
    requires credential.paymentType == "one_time" ==> OrderGate(OrderIn(db.orders, credential.orderId)).Passed?
    requires credential.paymentType != "one_time" ==>
      && check.Passed? && check.userId.Some? && check.userEmail.Some?
      && db.UsageOf(check.userId.value, day) == 1 && db.ReportsOn(check.userId.value, day) == 0
    modifies db
    ensures db.Valid()
    ensures db.subscriptions == old(db.subscriptions) && db.profiles == old(db.profiles) && db.dailyUsage == old(db.dailyUsage)
    ensures credential.paymentType == "one_time" ==>
      var id := credential.orderId;
      db.orders == old(db.orders)[id := old(db.orders)[id].(reportGenerated := true)]
      && db.subscriberProfiles == old(db.subscriberProfiles)
      && old(db.ReportsFor(id)) == 0 && db.ReportsFor(id) == 1
    ensures credential.paymentType != "one_time" ==>
      var user := check.userId.value;
      var email := check.userEmail.value;
      db.orders == old(db.orders) && db.ReportsOn(user, day) == 1
      && (user != "" && email != "" ==>
            db.subscriberProfiles == old(db.subscriberProfiles)[user := SubscriberProfile(email, input, Some(analysis))])
      && (user == "" || email == "" ==> db.subscriberProfiles == old(db.subscriberProfiles))
  {
    if credential.paymentType == "one_time" {
      var id := credential.orderId;
      // An unused order has paid for no report yet.
      assert db.ReportsFor(id) == 0;
      db.orders := db.orders[id := db.orders[id].(reportGenerated := true)];
      db.oneTimeReports := db.oneTimeReports[id := db.ReportsFor(id) + 1];
    } else {
      var user := check.userId.value;
      db.dailyReports := db.dailyReports[(user, day) := db.ReportsOn(user, day) + 1];
      var email := check.userEmail.value;
      if user != "" && email != "" {
        db.subscriberProfiles := db.subscriberProfiles[user := SubscriberProfile(email, input, Some(analysis))];
      }
    }
  }
}
