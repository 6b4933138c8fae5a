/** The daily e-mail run of the scheduled worker: the active subscribers are fetched, each
    one is sent a digest, the successes get their last-sent time stamped, and every attempt
    is written to the e-mail log. */
module Scheduler {
  import opened JsText
  import opened Http

  datatype Subscriber = Subscriber(userId: string, email: string)

  /** What sending one digest came to: success, or the error message of the failure. */
  datatype SendResult = Delivered | Failed(error: string)

  datatype SendStatus = Sent | FailedStatus

  /** One row of the email_logs table (the subject line is not modelled). */
  datatype EmailLog = EmailLog(userId: string, email: string, sentAt: string,
                               status: SendStatus, errorMessage: Option<string>)

  /** The log row written for one attempt: the status follows the result, and the error
      message is recorded only for a failure. */
  function LogOf(sub: Subscriber, result: SendResult, now: string): (r: EmailLog)
    ensures r.userId == sub.userId && r.email == sub.email && r.sentAt == now
    ensures r.status == Sent <==> result.Delivered?
    ensures r.errorMessage.Some? <==> result.Failed?
    ensures result.Failed? ==> r.errorMessage == Some(result.error)
  {
    match result
    case Delivered => EmailLog(sub.userId, sub.email, now, Sent, None)
    case Failed(e) => EmailLog(sub.userId, sub.email, now, FailedStatus, Some(e))
  }

  /** The log rows of a run, one per attempt in subscriber order. */
  function Logs(subs: seq<Subscriber>, results: seq<SendResult>, times: seq<string>): seq<EmailLog>
    requires |results| == |subs| == |times|
  {
    if subs == [] then []
    else
      var n := |subs| - 1;
      Logs(subs[..n], results[..n], times[..n]) + [LogOf(subs[n], results[n], times[n])]
  }

  /** Each subscriber has exactly one log row, at its own position, telling its own result. */
  lemma {:induction false} LogsOnePerSubscriber(subs: seq<Subscriber>, results: seq<SendResult>, times: seq<string>)
    requires |results| == |subs| == |times|
    ensures |Logs(subs, results, times)| == |subs|
    ensures forall i :: 0 <= i < |subs| ==> Logs(subs, results, times)[i] == LogOf(subs[i], results[i], times[i])
    decreases |subs|
  {
    if subs != [] {
      var n := |subs| - 1;
      LogsOnePerSubscriber(subs[..n], results[..n], times[..n]);
    }
  }

  /** The number of successful sends. */
  function SentCount(results: seq<SendResult>): (r: nat)
    ensures r <= |results|
  {
    if results == [] then 0
    else SentCount(results[..|results| - 1]) + if results[|results| - 1].Delivered? then 1 else 0
  }

  /** The number of failed sends. */
  function FailedCount(results: seq<SendResult>): (r: nat)
    ensures r <= |results|
  {
    if results == [] then 0
    else FailedCount(results[..|results| - 1]) + if results[|results| - 1].Failed? then 1 else 0
  }

  /** Every attempt is counted exactly once: sent + failed is the number of subscribers. */
  lemma {:induction false} CountsCoverRun(results: seq<SendResult>)
    ensures SentCount(results) + FailedCount(results) == |results|
  {
    if results != [] {
      CountsCoverRun(results[..|results| - 1]);
    }
  }

  /** last_email_sent_at after the run: each successful send stamps its subscriber with
      the time of the attempt, later attempts overwriting earlier ones. */
  function Stamped(last: map<string, string>, subs: seq<Subscriber>, results: seq<SendResult>,
                   times: seq<string>): map<string, string>
    requires |results| == |subs| == |times|
  {
    if subs == [] then last
    else
      var n := |subs| - 1;
      var before := Stamped(last, subs[..n], results[..n], times[..n]);
      if results[n].Delivered? then before[subs[n].userId := times[n]] else before
  }

  /** A user carries a stamp after the run iff it had one before or one of its sends succeeded;
      a user none of whose sends succeeded keeps its old stamp. */
  lemma {:induction false} StampedUsers(last: map<string, string>, subs: seq<Subscriber>,
                                        results: seq<SendResult>, times: seq<string>, u: string)
    requires |results| == |subs| == |times|
    ensures u in Stamped(last, subs, results, times) <==>
      u in last || exists i :: 0 <= i < |subs| && results[i].Delivered? && subs[i].userId == u
    ensures (forall i :: 0 <= i < |subs| && subs[i].userId == u ==> results[i].Failed?) ==>
      (u in last ==> u in Stamped(last, subs, results, times) && Stamped(last, subs, results, times)[u] == last[u])
    decreases |subs|
  {
    if subs != [] {
      var n := |subs| - 1;
      StampedUsers(last, subs[..n], results[..n], times[..n], u);
      var r := Stamped(last, subs, results, times);
      var before := Stamped(last, subs[..n], results[..n], times[..n]);
      if u in r && u !in last && !(results[n].Delivered? && subs[n].userId == u) {
        var i :| 0 <= i < n && results[..n][i].Delivered? && subs[..n][i].userId == u;
        assert results[i].Delivered? && subs[i].userId == u;
      }
      if exists i :: 0 <= i < |subs| && results[i].Delivered? && subs[i].userId == u {
        var i :| 0 <= i < |subs| && results[i].Delivered? && subs[i].userId == u;
        if i < n {
          assert results[..n][i].Delivered? && subs[..n][i].userId == u;
        }
      }
    }
  }

  /** One more attempt extends every running value of the run by that attempt alone. */
  lemma RunStep(last: map<string, string>, subs: seq<Subscriber>, results: seq<SendResult>,
                times: seq<string>, i: nat)
    requires |results| == |subs| == |times| && i < |subs|
    ensures SentCount(results[..i + 1]) == SentCount(results[..i]) + if results[i].Delivered? then 1 else 0
    ensures FailedCount(results[..i + 1]) == FailedCount(results[..i]) + if results[i].Failed? then 1 else 0
    ensures Logs(subs[..i + 1], results[..i + 1], times[..i + 1])
      == Logs(subs[..i], results[..i], times[..i]) + [LogOf(subs[i], results[i], times[i])]
    ensures Stamped(last, subs[..i + 1], results[..i + 1], times[..i + 1])
      == var m := Stamped(last, subs[..i], results[..i], times[..i]);
         if results[i].Delivered? then m[subs[i].userId := times[i]] else m
  {
    assert subs[..i + 1][..i] == subs[..i];
    assert results[..i + 1][..i] == results[..i];
    assert times[..i + 1][..i] == times[..i];
  }

  /** The worker's persistent effects: the email_logs table and the last_email_sent_at
      column of subscriber_profiles, keyed by user id. */
  class Mailer {
    var logs: seq<EmailLog>
    var lastEmailSentAt: map<string, string>

    constructor (lastSent: map<string, string>)
      ensures logs == [] && lastEmailSentAt == lastSent
    {
      logs := [];
      lastEmailSentAt := lastSent;
    }

    /** scheduled: when the subscriber query fails nothing happens; otherwise each subscriber
        in turn gets one send attempt (its outcome and clock reading are given), a stamp on
        success and one log row, and the run reports how many sends succeeded and failed. */
    method Run(rpc: Response<seq<Subscriber>>, results: seq<SendResult>, times: seq<string>)
      returns (sent: nat, failed: nat)
      requires rpc.Ok? ==> |results| == |rpc.body| == |times|
      modifies this
      ensures rpc.NotOk? ==> sent == 0 && failed == 0 && logs == old(logs) && lastEmailSentAt == old(lastEmailSentAt)
      ensures rpc.Ok? ==> sent == SentCount(results) && failed == FailedCount(results)
      ensures rpc.Ok? ==> logs == old(logs) + Logs(rpc.body, results, times)
      ensures rpc.Ok? ==> lastEmailSentAt == Stamped(old(lastEmailSentAt), rpc.body, results, times)
    {
      sent, failed := 0, 0;
      if rpc.NotOk? {
        return;
      }
      var subs := rpc.body;
      var i := 0;
      while i < |subs|
        invariant i <= |subs|
        invariant sent == SentCount(results[..i]) && failed == FailedCount(results[..i])
        invariant logs == old(logs) + Logs(subs[..i], results[..i], times[..i])
        invariant lastEmailSentAt == Stamped(old(lastEmailSentAt), subs[..i], results[..i], times[..i])
      {
        var sub, result, now := subs[i], results[i], times[i];
        RunStep(old(lastEmailSentAt), subs, results, times, i);
        if result.Delivered? {
          sent := sent + 1;
          lastEmailSentAt := lastEmailSentAt[sub.userId := now];
        } else {
          failed := failed + 1;
        }
        logs := logs + [LogOf(sub, result, now)];
        i := i + 1;
      }
      assert subs[..i] == subs && results[..i] == results && times[..i] == times;
    }
  }

  /** Taken together: after a run on a successful query, sent + failed is the number of
      subscribers and each subscriber has exactly one new log row. */
  lemma RunAccounting(subs: seq<Subscriber>, results: seq<SendResult>, times: seq<string>)
    requires |results| == |subs| == |times|
    ensures SentCount(results) + FailedCount(results) == |subs|
    ensures |Logs(subs, results, times)| == |subs|
    ensures forall i :: 0 <= i < |subs| ==> Logs(subs, results, times)[i].userId == subs[i].userId
  {
    CountsCoverRun(results);
    LogsOnePerSubscriber(subs, results, times);
  }
}
