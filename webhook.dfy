/** functions/api/polar-webhook.ts: check the Standard Webhooks signature of a Polar event,
    then apply the event to orders, subscriptions and profiles. HMAC-SHA256 and base64 are
    not modelled: the signature the secret gives for a content is a parameter. */
module Webhook {
  import opened JsText
  import opened Database

  /** The secret with its "whsec_" prefix, if any, removed. */
  function RawSecret(secret: string): (r: string)
    ensures StartsWith(secret, "whsec_") ==> secret == "whsec_" + r
    ensures !StartsWith(secret, "whsec_") ==> r == secret
  {
    if StartsWith(secret, "whsec_") then secret[6..] else secret
  }

  lemma RawSecretStripsPrefix(key: string)
    ensures RawSecret("whsec_" + key) == key
  {
    assert ("whsec_" + key)[..6] == "whsec_";
  }

  /** One candidate of the signature header with its "v1," prefix, if any, removed. */
  function SignatureValue(sig: string): (r: string)
    ensures StartsWith(sig, "v1,") ==> sig == "v1," + r
    ensures !StartsWith(sig, "v1,") ==> r == sig
  {
    if StartsWith(sig, "v1,") then sig[3..] else sig
  }

  lemma SignatureValueOfVersioned(value: string)
    ensures SignatureValue("v1," + value) == value
  {
    assert ("v1," + value)[..3] == "v1,";
  }

  /** The content signed: "{webhook-id}.{webhook-timestamp}.{body}". */
  function SignedContent(id: string, timestamp: string, payload: string): string
  {
    id + "." + timestamp + "." + payload
  }

  /** The base64 HMAC of the content under the raw secret, or None when the key cannot be
      decoded or imported (the crypto call throws). */
  function Computed(sign: (string, string) -> Option<string>, secret: string,
                    id: string, timestamp: string, payload: string): Option<string>
  {
    sign(RawSecret(secret), SignedContent(id, timestamp, payload))
  }

  /** Some space-separated candidate of the header carries the computed signature. */
  predicate Accepted(header: string, computed: Option<string>)
  {
    var candidates := Split(header, ' ');
    computed.Some? && exists i :: 0 <= i < |candidates| && SignatureValue(candidates[i]) == computed.value
  }

  /** verifyWebhookSignature: the loop over the header's candidates; a failure of the
      crypto calls makes the answer false. */
  method VerifyWebhookSignature(payload: string, id: string, timestamp: string, header: string,
                                secret: string, sign: (string, string) -> Option<string>)
    returns (valid: bool)
    ensures valid <==> Accepted(header, Computed(sign, secret, id, timestamp, payload))
  {
    var computed := Computed(sign, secret, id, timestamp, payload);
    if computed.None? {
      return false;
    }
    var candidates := Split(header, ' ');
    for i := 0 to |candidates|
      invariant forall k :: 0 <= k < i ==> SignatureValue(candidates[k]) != computed.value
    {
      if SignatureValue(candidates[i]) == computed.value {
        return true;
      }
    }
    return false;
  }

  /** A header whose first candidate is the versioned signature is accepted, whatever follows. */
  lemma AcceptsFirstCandidate(computed: string, rest: string)
    requires ' ' !in computed
    ensures Accepted("v1," + computed + " " + rest, Some(computed))
  {
    var first := "v1," + computed;
    assert ' ' !in first by {
      assert forall k :: 0 <= k < |first| ==> first[k] == if k < 3 then "v1,"[k] else computed[k - 3];
    }
    SplitAppend(first, rest, ' ');
    SplitNoSeparator(first, ' ');
    assert first + [' '] + rest == "v1," + computed + " " + rest;
    SignatureValueOfVersioned(computed);
    assert Split(first + [' '] + rest, ' ')[0] == first;
  }

  /** A candidate in front of an accepted header does not spoil it. */
  lemma AcceptedAfterOthers(other: string, header: string, computed: string)
    requires ' ' !in other
    requires Accepted(header, Some(computed))
    ensures Accepted(other + " " + header, Some(computed))
  {
    SplitAppend(other, header, ' ');
    assert other + [' '] + header == other + " " + header;
    SplitNoSeparator(other, ' ');
    var c := Split(header, ' ');
    var i :| 0 <= i < |c| && SignatureValue(c[i]) == computed;
    assert Split(other + " " + header, ' ')[i + 1] == c[i];
  }

  // ---------------------------------------------------------------------------------
  // Events
  // ---------------------------------------------------------------------------------

  /** The fields of event.data the handler reads; None when absent or null. */
  datatype EventData = EventData(
    id: Option<string>,
    checkoutObjectId: Option<string>,
    checkoutId: Option<string>,
    metadataUserId: Option<string>,
    customerExternalId: Option<string>,
    customerEmail: Option<string>,
    status: Option<string>,
    currentPeriodEnd: Option<string>)

  datatype WebhookEvent = WebhookEvent(eventType: string, data: EventData)

  /** a ?? b. */
  function Coalesce(a: Option<string>, b: string): (r: string)
    ensures a.Some? ==> r == a.value
    ensures a.None? ==> r == b
  {
    if a.Some? then a.value else b
  }

  /** data.checkout?.id ?? data.checkout_id ?? ''. */
  function PaidCheckoutId(data: EventData): string
  {
    Coalesce(data.checkoutObjectId, Coalesce(data.checkoutId, ""))
  }

  /** data.metadata?.user_id ?? data.customer?.external_id ?? ''. */
  function EventUserId(data: EventData): string
  {
    Coalesce(data.metadataUserId, Coalesce(data.customerExternalId, ""))
  }

  /** The three tables an event can touch. */
  datatype Tables = Tables(orders: map<string, Order>, subscriptions: map<string, Subscription>, profiles: map<string, string>)

  /** A PATCH on a keyed row changes it when it exists and does nothing otherwise. */
  function PatchProfile(profiles: map<string, string>, user: string, status: string): (r: map<string, string>)
    ensures r.Keys == profiles.Keys
    ensures user in profiles ==> r == profiles[user := status]
    ensures user !in profiles ==> r == profiles
  {
    if user in profiles then profiles[user := status] else profiles
  }

  /** The effect of a verified event on the tables. */
  function ApplyEvent(t: Tables, e: WebhookEvent): (r: Tables)
    ensures e.eventType == "order.paid" ==>
      var cid := PaidCheckoutId(e.data);
      r.subscriptions == t.subscriptions && r.profiles == t.profiles
      && (cid != "" && cid in t.orders ==>
            r.orders == t.orders[cid := t.orders[cid].(status := "succeeded", polarOrderId := Some(Coalesce(e.data.id, "")))])
      && (cid == "" || cid !in t.orders ==> r.orders == t.orders)
    ensures e.eventType == "subscription.created" ==>
      var user, sub := EventUserId(e.data), Coalesce(e.data.id, "");
      r.orders == t.orders
      && (user != "" && sub != "" ==>
            r.subscriptions == t.subscriptions[sub := Subscription(user, Coalesce(e.data.customerEmail, ""), "active", e.data.currentPeriodEnd)]
            && r.profiles == PatchProfile(t.profiles, user, "active"))
      && (user == "" || sub == "" ==> r == t)
    ensures e.eventType == "subscription.updated" ==>
      var sub := Coalesce(e.data.id, "");
      r.orders == t.orders && r.profiles == t.profiles
      && (sub != "" && sub in t.subscriptions ==>
            r.subscriptions == t.subscriptions[sub := t.subscriptions[sub].(status := Coalesce(e.data.status, "active"),
                                                                          currentPeriodEnd := e.data.currentPeriodEnd)])
      && (sub == "" || sub !in t.subscriptions ==> r.subscriptions == t.subscriptions)
    ensures e.eventType == "subscription.revoked" ==>
      var sub, user := Coalesce(e.data.id, ""), EventUserId(e.data);
      r.orders == t.orders
      && (sub != "" && sub in t.subscriptions ==>
            r.subscriptions == t.subscriptions[sub := t.subscriptions[sub].(status := "revoked")])
      && (sub == "" || sub !in t.subscriptions ==> r.subscriptions == t.subscriptions)
      && r.profiles == (if user != "" then PatchProfile(t.profiles, user, "none") else t.profiles)
  {
    var d := e.data;
    if e.eventType == "order.paid" then
      var cid := PaidCheckoutId(d);
      if cid != "" && cid in t.orders then
        t.(orders := t.orders[cid := t.orders[cid].(status := "succeeded", polarOrderId := Some(Coalesce(d.id, "")))])
      else t
    else if e.eventType == "subscription.created" then
      var user, sub := EventUserId(d), Coalesce(d.id, "");
      if user != "" && sub != "" then
        Tables(t.orders,
               t.subscriptions[sub := Subscription(user, Coalesce(d.customerEmail, ""), "active", d.currentPeriodEnd)],
               PatchProfile(t.profiles, user, "active"))
      else t
    else if e.eventType == "subscription.updated" then
      var sub := Coalesce(d.id, "");
      if sub != "" && sub in t.subscriptions then
        t.(subscriptions := t.subscriptions[sub := t.subscriptions[sub].(status := Coalesce(d.status, "active"),
                                                                         currentPeriodEnd := d.currentPeriodEnd)])
      else t
    else if e.eventType == "subscription.revoked" then
      var sub, user := Coalesce(d.id, ""), EventUserId(d);
      var subs := if sub != "" && sub in t.subscriptions then t.subscriptions[sub := t.subscriptions[sub].(status := "revoked")]
                  else t.subscriptions;
      Tables(t.orders, subs, if user != "" then PatchProfile(t.profiles, user, "none") else t.profiles)
    else t
  }

  /** Event types the handler does not know change nothing. */
  lemma UnknownEventChangesNothing(t: Tables, e: WebhookEvent)
    requires e.eventType !in {"order.paid", "subscription.created", "subscription.updated", "subscription.revoked"}
    ensures ApplyEvent(t, e) == t
  {
  }

  /** No event removes an order or clears its report mark, so a used one-time order stays used. */
  lemma EventsKeepReportMarks(t: Tables, e: WebhookEvent)
    ensures ApplyEvent(t, e).orders.Keys == t.orders.Keys
    ensures forall id :: id in t.orders ==> ApplyEvent(t, e).orders[id].reportGenerated == t.orders[id].reportGenerated
  {
  }

  /** Applying the same event twice is the same as applying it once: Polar may redeliver. */
  lemma ApplyEventIdempotent(t: Tables, e: WebhookEvent)
    ensures ApplyEvent(ApplyEvent(t, e), e) == ApplyEvent(t, e)
  {
  }

  datatype WebhookEnv = WebhookEnv(webhookSecret: string, supabaseUrl: string, viteSupabaseUrl: string, serviceRoleKey: string)

  datatype WebhookReply = Received | WebhookError(status: int, error: string)

  /** onRequestPost. The headers are "" when absent; event is JSON.parse(payload), None when
      the payload is not JSON; sign stands for the HMAC. Writes to the tables are assumed to
      succeed. */
  method HandleWebhook(db: Database, env: WebhookEnv, id: string, timestamp: string, signature: string,
                       payload: string, sign: (string, string) -> Option<string>, event: Option<WebhookEvent>)
    returns (reply: WebhookReply)
    requires db.Valid()
    modifies db
    ensures db.Valid()
    ensures db.dailyUsage == old(db.dailyUsage) && db.subscriberProfiles == old(db.subscriberProfiles)
    ensures var configured := env.webhookSecret != "" && (env.supabaseUrl != "" || env.viteSupabaseUrl != "") && env.serviceRoleKey != "";
      && (!configured ==> reply == WebhookError(500, "Server configuration error"))
      && (configured && (id == "" || timestamp == "" || signature == "") ==> reply == WebhookError(400, "Missing webhook headers"))
      && (configured && id != "" && timestamp != "" && signature != "" ==>
            && (!Accepted(signature, Computed(sign, env.webhookSecret, id, timestamp, payload)) ==> reply == WebhookError(401, "Invalid signature"))
            && (Accepted(signature, Computed(sign, env.webhookSecret, id, timestamp, payload)) ==>
                  (event.None? ==> reply == WebhookError(400, "Invalid JSON")) && (event.Some? ==> reply == Received)))
    ensures reply == Received ==>
      event.Some? && Tables(db.orders, db.subscriptions, db.profiles)
        == ApplyEvent(Tables(old(db.orders), old(db.subscriptions), old(db.profiles)), event.value)
    ensures reply != Received ==>
      db.orders == old(db.orders) && db.subscriptions == old(db.subscriptions) && db.profiles == old(db.profiles)
  {
    if env.webhookSecret == "" || (env.supabaseUrl == "" && env.viteSupabaseUrl == "") || env.serviceRoleKey == "" {
      return WebhookError(500, "Server configuration error");
    }
    if id == "" || timestamp == "" || signature == "" {
      return WebhookError(400, "Missing webhook headers");
    }
    var valid := VerifyWebhookSignature(payload, id, timestamp, signature, env.webhookSecret, sign);
    if !valid {
      return WebhookError(401, "Invalid signature");
    }
    if event.None? {
      return WebhookError(400, "Invalid JSON");
    }
    var t := ApplyEvent(Tables(db.orders, db.subscriptions, db.profiles), event.value);
    EventsKeepReportMarks(Tables(db.orders, db.subscriptions, db.profiles), event.value);
    db.orders, db.subscriptions, db.profiles := t.orders, t.subscriptions, t.profiles;
    return Received;
  }
}
