/** functions/api/check-order.ts: the payment-success page asks whether a checkout has been
    paid. The order row answers when it is settled; otherwise Polar is asked, and a paid
    checkout whose webhook has not arrived yet is marked succeeded here. */
module CheckOrder {
  import opened JsText
  import opened Database

  datatype OrderEnv = OrderEnv(polarAccessToken: string, supabaseUrl: string, viteSupabaseUrl: string, serviceRoleKey: string)

  /** What the Polar checkout lookup came to: a non-ok response, or the checkout's status
      field (None when absent). */
  datatype PolarLookup = LookupNotOk | LookupOk(status: Option<string>)

  datatype OrderReply =
    | OrderSucceeded(pendingSessionKey: string, paymentType: string)
    | OrderStatus(status: string)
    | OrderError(code: int, error: string)

  /** The answer for a checkout id, given its row (if any) and the Polar lookup. */
  function Resolve(order: Option<Order>, polar: PolarLookup): (r: OrderReply)
    ensures order.Some? && order.value.status == "succeeded" ==>
      r == OrderSucceeded(order.value.pendingSessionKey, order.value.paymentType)
    ensures order.Some? && order.value.status == "failed" ==> r == OrderStatus("failed")
    ensures r.OrderSucceeded? ==> order.Some?
    ensures r.OrderSucceeded? ==> r == OrderSucceeded(order.value.pendingSessionKey, order.value.paymentType)
    ensures !r.OrderSucceeded? ==> r.OrderStatus?
    ensures !(order.Some? && order.value.status in {"succeeded", "failed"}) ==>
      (polar.LookupNotOk? ==> r == OrderStatus(if order.Some? then order.value.status else "pending"))
      && (polar.LookupOk? ==>
            var st := if polar.status.Some? then polar.status.value else "open";
            (st == "succeeded" && order.Some? ==> r.OrderSucceeded?)
            && (st == "succeeded" && order.None? ==> r == OrderStatus("pending"))
            && (st in {"failed", "expired"} ==> r == OrderStatus("failed"))
            && (st !in {"succeeded", "failed", "expired"} ==> r == OrderStatus("pending")))
  {
    if order.Some? && order.value.status == "succeeded" then
      OrderSucceeded(order.value.pendingSessionKey, order.value.paymentType)
    else if order.Some? && order.value.status == "failed" then OrderStatus("failed")
    else match polar
      case LookupNotOk => OrderStatus(if order.Some? then order.value.status else "pending")
      case LookupOk(status) =>
        var st := if status.Some? then status else Some("open");
        if st.value == "succeeded" && order.Some? then
          OrderSucceeded(order.value.pendingSessionKey, order.value.paymentType)
        else if st.value == "failed" || st.value == "expired" then OrderStatus("failed")
        else OrderStatus("pending")
  }

  /** The row is written only when Polar reports a paid checkout the table knows but has
      not yet settled. */
  predicate MarksSucceeded(order: Option<Order>, polar: PolarLookup)
  {
    && order.Some? && order.value.status != "succeeded" && order.value.status != "failed"
    && polar.LookupOk? && polar.status == Some("succeeded")
  }

  /** The page is told "succeeded" only for a row that is (or is just being made) succeeded. */
  lemma SucceededOnlyWhenPaid(order: Option<Order>, polar: PolarLookup)
    ensures Resolve(order, polar).OrderSucceeded? <==>
      order.Some? && (order.value.status == "succeeded" || MarksSucceeded(order, polar))
  {
  }

  /** An answer taken from the row never contradicts it: a failed row is never reported as paid. */
  lemma FailedRowStaysFailed(order: Order, polar: PolarLookup)
    requires order.status == "failed"
    ensures Resolve(Some(order), polar) == OrderStatus("failed")
  {
  }

  /** onRequestGet. checkoutId is the query parameter, None when absent. */
  method CheckOrder(db: Database, env: OrderEnv, checkoutId: Option<string>, polar: PolarLookup)
    returns (reply: OrderReply)
    requires db.Valid()
    modifies db
    ensures db.Valid()
    ensures db.subscriptions == old(db.subscriptions) && db.profiles == old(db.profiles)
    ensures db.dailyUsage == old(db.dailyUsage) && db.subscriberProfiles == old(db.subscriberProfiles)
    ensures env.polarAccessToken == "" || (env.supabaseUrl == "" && env.viteSupabaseUrl == "") || env.serviceRoleKey == "" ==>
      reply == OrderError(500, "Server configuration error") && db.orders == old(db.orders)
    ensures env.polarAccessToken != "" && (env.supabaseUrl != "" || env.viteSupabaseUrl != "") && env.serviceRoleKey != "" ==>
      && (checkoutId.None? || checkoutId.value == "" ==> reply == OrderError(400, "Missing checkout_id") && db.orders == old(db.orders))
      && (checkoutId.Some? && checkoutId.value != "" ==>
            var id := checkoutId.value;
            var order := if id in old(db.orders) then Some(old(db.orders)[id]) else None;
            reply == Resolve(order, polar)
            && (MarksSucceeded(order, polar) ==> db.orders == old(db.orders)[id := old(db.orders)[id].(status := "succeeded")])
            && (!MarksSucceeded(order, polar) ==> db.orders == old(db.orders)))
  {
    if env.polarAccessToken == "" || (env.supabaseUrl == "" && env.viteSupabaseUrl == "") || env.serviceRoleKey == "" {
      return OrderError(500, "Server configuration error");
    }
    if checkoutId.None? || checkoutId.value == "" {
      return OrderError(400, "Missing checkout_id");
    }
    var id := checkoutId.value;
    var order := if id in db.orders then Some(db.orders[id]) else None;
    if MarksSucceeded(order, polar) {
      db.orders := db.orders[id := db.orders[id].(status := "succeeded")];
    }
    reply := Resolve(order, polar);
  }

  /** The handler only ever writes "succeeded", and never to a failed or settled row: it
      cannot downgrade an order, and it leaves the report mark alone. */
  lemma NeverDowngrades(order: Option<Order>, polar: PolarLookup)
    requires MarksSucceeded(order, polar)
    ensures order.value.status !in {"succeeded", "failed"}
    ensures order.value.(status := "succeeded").reportGenerated == order.value.reportGenerated
  {
  }
}
