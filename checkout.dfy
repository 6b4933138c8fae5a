/** functions/api/create-checkout.ts: validate the request, choose the product, ask Polar for
    a checkout session and record a pending order for it. */
module Checkout {
  import opened JsText
  import opened Database

  /** The configuration the endpoint reads; an unset variable is "". */
  datatype CheckoutEnv = CheckoutEnv(
    polarAccessToken: string,
    productOneTime: string,
    productSubscription: string,
    supabaseUrl: string,
    viteSupabaseUrl: string,
    serviceRoleKey: string)

  /** The request body; a missing field is "". */
  datatype CheckoutRequest = CheckoutRequest(
    paymentType: string,
    pendingSessionKey: string,
    userId: string,
    customerEmail: string,
    successOrigin: string)

  /** The checkout session request sent to Polar. */
  datatype PolarCheckoutRequest = PolarCheckoutRequest(
    productId: string,
    successUrl: string,
    customerEmail: Option<string>,
    pendingSessionKey: string,
    userId: Option<string>,
    paymentType: string)

  /** How the Polar call ended: the fetch threw, a non-ok status, or the url and id of the
      session ("" when a field is missing). */
  datatype PolarOutcome = PolarThrew(message: string) | PolarNotOk(status: int) | PolarCreated(url: string, id: string)

  /** How the insert of the pending order ended: accepted, answered with a non-ok status
      (which the database also gives for a checkout id it already holds), or the fetch threw. */
  datatype InsertOutcome = Inserted | InsertNotOk(status: int) | InsertThrew(message: string)

  datatype CheckoutReply = CheckoutUrl(url: string) | CheckoutError(status: int, error: string)

  /** env.SUPABASE_URL || env.VITE_SUPABASE_URL. */
  function SupabaseUrl(env: CheckoutEnv): string
  {
    if env.supabaseUrl != "" then env.supabaseUrl else env.viteSupabaseUrl
  }

  /** "subscription" buys the subscription product; every other type the one-time product. */
  function ProductFor(env: CheckoutEnv, paymentType: string): (r: string)
    ensures paymentType == "subscription" ==> r == env.productSubscription
    ensures paymentType != "subscription" ==> r == env.productOneTime
  {
    if paymentType == "subscription" then env.productSubscription else env.productOneTime
  }

  /** The success URL after the origin: the checkout id query, then the hash route. */
  const QueryPart: string := "/?checkout_id={CHECKOUT_ID}"
  const HashPart: string := "#/payment-success"

  function SuccessUrl(origin: string): (r: string)
    ensures |r| == |origin| + |QueryPart| + |HashPart| && r[..|origin|] == origin
  {
    origin + QueryPart + HashPart
  }

  /** The query string comes before the fragment, so the page can read checkout_id from
      location.search: right after the origin comes "/?checkout_id=...", free of '#', and
      only then the '#' of the hash route. */
  lemma QueryBeforeFragment(origin: string)
    ensures var u := SuccessUrl(origin);
      && u[|origin| + 1] == '?'
      && u[|origin|..|origin| + |QueryPart|] == QueryPart && '#' !in QueryPart
      && u[|origin| + |QueryPart|] == '#'
  {
    var u := SuccessUrl(origin);
    assert u[|origin|..|origin| + |QueryPart|] == QueryPart;
  }

  /** The session request for a validated body and product. */
  function PolarRequest(body: CheckoutRequest, productId: string): (r: PolarCheckoutRequest)
    ensures r.successUrl == SuccessUrl(body.successOrigin)
    ensures r.customerEmail.None? <==> body.customerEmail == ""
    ensures r.userId.None? <==> body.userId == ""
    ensures r.productId == productId && r.paymentType == body.paymentType && r.pendingSessionKey == body.pendingSessionKey
  {
    PolarCheckoutRequest(productId, SuccessUrl(body.successOrigin),
      if body.customerEmail != "" then Some(body.customerEmail) else None,
      body.pendingSessionKey,
      if body.userId != "" then Some(body.userId) else None,
      body.paymentType)
  }

  /** The row inserted for a new session: pending, not yet reported on, with null user and
      e-mail when the request had none. */
  function PendingOrder(body: CheckoutRequest): (r: Order)
    ensures r.status == "pending" && !r.reportGenerated && r.polarOrderId.None?
    ensures r.paymentType == body.paymentType && r.pendingSessionKey == body.pendingSessionKey
    ensures r.userId.None? <==> body.userId == ""
    ensures r.email.None? <==> body.customerEmail == ""
  {
    Order(if body.userId != "" then Some(body.userId) else None,
          if body.customerEmail != "" then Some(body.customerEmail) else None,
          "pending", body.paymentType, body.pendingSessionKey, None, false)
  }

  /** The endpoint's own configuration: the Polar token, a database URL and the service key. */
  predicate Configured(env: CheckoutEnv)
  {
    env.polarAccessToken != "" && SupabaseUrl(env) != "" && env.serviceRoleKey != ""
  }

  /** The required fields of the body are all present. */
  predicate HasRequiredFields(req: CheckoutRequest)
  {
    req.paymentType != "" && req.pendingSessionKey != "" && req.successOrigin != ""
  }

  /** The reply once the session request has been sent: the checkout URL when Polar created a
      session and the insert did not throw (a refused insert is ignored), otherwise the error. */
  function SessionReply(polar: PolarOutcome, insert: InsertOutcome): (r: CheckoutReply)
    ensures r.CheckoutUrl? <==> polar.PolarCreated? && polar.url != "" && polar.id != "" && !insert.InsertThrew?
    ensures polar.PolarThrew? ==>
      r == CheckoutError(500, if polar.message != "" then polar.message else "Failed to create checkout")
    ensures polar.PolarNotOk? ==> r == CheckoutError(502, "Polar API error: " + IntText(polar.status))
    ensures polar.PolarCreated? && (polar.url == "" || polar.id == "") ==> r == CheckoutError(502, "Invalid Polar response")
    ensures polar.PolarCreated? && polar.url != "" && polar.id != "" ==>
      && (insert.InsertThrew? ==>
            r == CheckoutError(500, if insert.message != "" then insert.message else "Failed to create checkout"))
      && (!insert.InsertThrew? ==> r == CheckoutUrl(polar.url))
  {
    match polar
    case PolarThrew(message) => CheckoutError(500, if message != "" then message else "Failed to create checkout")
    case PolarNotOk(status) => CheckoutError(502, "Polar API error: " + IntText(status))
    case PolarCreated(url, id) =>
      if url == "" || id == "" then CheckoutError(502, "Invalid Polar response")
      else match insert
        case InsertThrew(message) => CheckoutError(500, if message != "" then message else "Failed to create checkout")
        case _ => CheckoutUrl(url)
  }

  /** onRequestPost. body is None when the request is not JSON; polar is what the session
      request came to, and insert what the insert of the pending order came to. */
  method CreateCheckout(db: Database, env: CheckoutEnv, body: Option<CheckoutRequest>,
                        polar: PolarOutcome, insert: InsertOutcome)
    returns (reply: CheckoutReply, sent: Option<PolarCheckoutRequest>)
    requires db.Valid()
    modifies db
    ensures db.Valid()
    ensures db.subscriptions == old(db.subscriptions) && db.profiles == old(db.profiles)
    ensures db.dailyUsage == old(db.dailyUsage) && db.subscriberProfiles == old(db.subscriberProfiles)
    ensures !Configured(env) ==> reply == CheckoutError(500, "Server configuration error") && sent.None?
    ensures Configured(env) && body.None? ==> reply == CheckoutError(400, "Invalid request body") && sent.None?
    ensures Configured(env) && body.Some? && !HasRequiredFields(body.value) ==>
      reply == CheckoutError(400, "Missing required fields") && sent.None?
    ensures Configured(env) && body.Some? && HasRequiredFields(body.value) ==>
      var product := ProductFor(env, body.value.paymentType);
      && (product == "" ==> reply == CheckoutError(500, "Product not configured") && sent.None?)
      && (product != "" ==> sent == Some(PolarRequest(body.value, product)) && reply == SessionReply(polar, insert))
    // The pending row is written only for a session Polar created, whose insert the
    // database accepted for a checkout id it did not hold yet.
    ensures reply.CheckoutUrl? && insert.Inserted? && polar.id !in old(db.orders) ==>
      db.orders == old(db.orders)[polar.id := PendingOrder(body.value)]
    ensures !(reply.CheckoutUrl? && insert.Inserted? && polar.id !in old(db.orders)) ==> db.orders == old(db.orders)
  {
    sent := None;
    if !Configured(env) {
      return CheckoutError(500, "Server configuration error"), sent;
    }
    if body.None? {
      return CheckoutError(400, "Invalid request body"), sent;
    }
    var req := body.value;
    if !HasRequiredFields(req) {
      return CheckoutError(400, "Missing required fields"), sent;
    }
    var productId := ProductFor(env, req.paymentType);
    if productId == "" {
      return CheckoutError(500, "Product not configured"), sent;
    }
    sent := Some(PolarRequest(req, productId));
    reply := SessionReply(polar, insert);
    if reply.CheckoutUrl? && insert.Inserted? && polar.id !in db.orders {
      db.orders := db.orders[polar.id := PendingOrder(req)];
    }
  }
}
