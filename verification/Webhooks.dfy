/** Webhook deliveries: the first attempt, replays and retry sweeps, over the delivery table and the wire. */
module Webhooks {
  import opened Domain
  import opened Recency
  import opened Store
  import opened Attempts

  /** The receiver answers with a status, or the transport fails. */
  datatype Answer = Unreachable | Answered(response: Response)

  /** One request on the wire and what came of it. */
  datatype Attempt = Attempt(id: Id, url: string, payload: seq<bv8>, headers: map<string, string>, answer: Answer)

  datatype Hooks = Hooks(deliveries: map<Id, Delivery>, log: seq<Attempt>)

  function AttemptOf(d: Delivery, answer: Answer): Attempt {
    Attempt(d.id, d.requestUrl, d.requestPayload, d.requestHeaders, answer)
  }

  /** Sending a delivery's request: logged in any case, recorded when it is answered. */
  function Dispatched(h: Hooks, d: Delivery, answer: Answer): Hooks {
    Hooks(if answer.Answered? then h.deliveries[d.id := Recorded(d, answer.response)] else h.deliveries,
          h.log + [AttemptOf(d, answer)])
  }

  predicate Replayable(d: Delivery) {
    d.requestUrl != "" && d.requestPayload != []
  }

  /** ReplayDelivery: a stored delivery whose request is available is sent again. */
  function Replayed(h: Hooks, id: Id, answer: Answer): Hooks {
    if id in h.deliveries && Replayable(h.deliveries[id]) then Dispatched(h, h.deliveries[id], answer) else h
  }

  predicate ReplaySucceeds(h: Hooks, id: Id, answer: Answer) {
    id in h.deliveries && Replayable(h.deliveries[id]) && answer.Answered?
  }

  predicate IsRetryDue(d: Delivery, at: Time) {
    if !d.status.Retrying? then false
    else if d.nextAttemptAt == ZERO_TIME then false
    else !(d.nextAttemptAt > at)
  }

  /** The sweep: each listed delivery that is due, judged by the listed copy, is replayed. */
  function Swept(h: Hooks, at: Time, list: seq<Delivery>, answers: Id -> Answer): Hooks {
    if list == [] then h
    else
      var d := list[|list| - 1];
      var before := Swept(h, at, list[..|list| - 1], answers);
      if IsRetryDue(d, at) then Replayed(before, d.id, answers(d.id)) else before
  }

  /** What the sweep reports: the new record of each replay that was answered. */
  function Retried(h: Hooks, at: Time, list: seq<Delivery>, answers: Id -> Answer): seq<Delivery> {
    if list == [] then []
    else
      var d := list[|list| - 1];
      var before := Swept(h, at, list[..|list| - 1], answers);
      Retried(h, at, list[..|list| - 1], answers)
      + (if IsRetryDue(d, at) && ReplaySucceeds(before, d.id, answers(d.id))
         then [Replayed(before, d.id, answers(d.id)).deliveries[before.deliveries[d.id].id]] else [])
  }

  /** The due deliveries of a list, in its order. */
  function DueIn(list: seq<Delivery>, at: Time): seq<Delivery> {
    if list == [] then []
    else
      var d := list[|list| - 1];
      DueIn(list[..|list| - 1], at) + (if IsRetryDue(d, at) then [d] else [])
  }

  /** The listed deliveries that are retrying and whose next attempt has a time that has come. */
  function Overdue(list: seq<Delivery>, at: Time): seq<Delivery> {
    if list == [] then []
    else
      var d := list[|list| - 1];
      Overdue(list[..|list| - 1], at)
      + (if d.status == Retrying && d.nextAttemptAt != ZERO_TIME && d.nextAttemptAt <= at then [d] else [])
  }

  lemma {:induction false} DueIsOverdue(list: seq<Delivery>, at: Time)
    ensures DueIn(list, at) == Overdue(list, at)
  {
    if list == [] {
    } else {
      DueIsOverdue(list[..|list| - 1], at);
    }
  }

  /** One more delivery of the listing. */
  lemma OneMoreListed(h: Hooks, at: Time, list: seq<Delivery>, n: nat, answers: Id -> Answer)
    requires n < |list|
    ensures var before, d := Swept(h, at, list[..n], answers), list[n];
            if IsRetryDue(d, at)
            then && Swept(h, at, list[..n + 1], answers) == Replayed(before, d.id, answers(d.id))
                 && |DueIn(list[..n + 1], at)| == |DueIn(list[..n], at)| + 1
                 && Retried(h, at, list[..n + 1], answers)
                      == Retried(h, at, list[..n], answers)
                         + (if ReplaySucceeds(before, d.id, answers(d.id))
                            then [Replayed(before, d.id, answers(d.id)).deliveries[before.deliveries[d.id].id]]
                            else [])
            else && Swept(h, at, list[..n + 1], answers) == before
                 && DueIn(list[..n + 1], at) == DueIn(list[..n], at)
                 && Retried(h, at, list[..n + 1], answers) == Retried(h, at, list[..n], answers)
  {
    hide Replayed, ReplaySucceeds, IsRetryDue;
    assert list[..n + 1][..n] == list[..n];
  }

  lemma SweepStarts(h: Hooks, at: Time, answers: Id -> Answer)
    ensures Swept(h, at, [], answers) == h && Retried(h, at, [], answers) == [] && DueIn([], at) == []
  {
  }

  // ---------------------------------------------------------------- the methods

  class Receiver {
    var log: seq<Attempt>

    /** Dispatcher.Dispatch. The receiver is a peer: what it answers is an input. */
    method Dispatch(d: Delivery, url: string, payload: seq<bv8>, headers: map<string, string>, answer: Answer)
      modifies this
      ensures log == old(log) + [Attempt(d.id, url, payload, headers, answer)]
    {
      log := log + [Attempt(d.id, url, payload, headers, answer)];
    }
  }

  ghost function HooksOf(store: Store, receiver: Receiver): Hooks
    reads store, receiver
  {
    Hooks(store.View().deliveries, receiver.log)
  }

  method CopyHeaders(headers: map<string, string>) returns (out: map<string, string>)
    ensures out == headers
  {
    out := map[];
    var unread := headers.Keys;
    while unread != {}
      invariant unread <= headers.Keys
      invariant out.Keys == headers.Keys - unread
      invariant forall k :: k in out ==> out[k] == headers[k]
      decreases unread
    {
      var k :| k in unread;
      out := out[k := headers[k]];
      unread := unread - {k};
    }
  }

  method RecordAttempt(store: Store, d: Delivery, r: Response) returns (delivery: Delivery)
    requires store.Valid()
    modifies store
    ensures store.Valid() && store.View() == old(store.View()).SaveDelivery(Recorded(d, r))
    ensures delivery == Recorded(d, r) && IsRecordOf(d, r, delivery)
    ensures store.webhookDeliveriesById == old(store.webhookDeliveriesById)[d.id := delivery]
  {
    RecordedByField(d, r);
    delivery := d.(attemptCount := d.attemptCount + 1);
    delivery := delivery.(responseCode := r.statusCode, responseBody := r.body);
    delivery := delivery.(lastAttemptAt := r.deliveredAt, updatedAt := r.deliveredAt);
    if r.statusCode >= 200 && r.statusCode < 300 {
      delivery := delivery.(status := Succeeded, nextAttemptAt := ZERO_TIME);
    } else if delivery.attemptCount <= MAX_ATTEMPTS {
      var delay := DefaultBackoff(delivery.attemptCount);
      delivery := delivery.(status := Retrying, nextAttemptAt := r.deliveredAt + delay);
    } else {
      delivery := delivery.(status := DeadLetter, nextAttemptAt := ZERO_TIME);
    }
    store.SaveWebhookDelivery(delivery);
  }

  /** DeliverAndRecordMessageReceived: the request snapshot stored is the request that was sent. */
  method DeliverAndRecord(store: Store, receiver: Receiver, pending: Delivery, url: string, payload: seq<bv8>,
                          headers: map<string, string>, answer: Answer)
    returns (ok: bool)
    requires store.Valid()
    modifies store, receiver
    ensures store.Valid() && ok == answer.Answered?
    ensures var d := pending.(requestUrl := url, requestPayload := payload, requestHeaders := headers);
            && HooksOf(store, receiver) == Dispatched(old(HooksOf(store, receiver)), d, answer)
            && store.View() == old(store.View()).(deliveries := HooksOf(store, receiver).deliveries)
    ensures receiver.log == old(receiver.log) + [Attempt(pending.id, url, payload, headers, answer)]
    ensures answer.Unreachable? ==> store.webhookDeliveriesById == old(store.webhookDeliveriesById)
    ensures answer.Answered? ==>
              && pending.id in store.webhookDeliveriesById
              && var sent := pending.(requestUrl := url, requestPayload := payload, requestHeaders := headers);
                 IsRecordOf(sent, answer.response, store.webhookDeliveriesById[pending.id])
  {
    receiver.Dispatch(pending, url, payload, headers, answer);
    if answer.Unreachable? {
      return false;
    }
    var copied := CopyHeaders(headers);
    var delivery := pending.(requestUrl := url, requestPayload := payload, requestHeaders := copied);
    var _ := RecordAttempt(store, delivery, answer.response);
    return true;
  }

  /** What a replay of a delivery does, field by field. */
  ghost predicate IsReplay(before: Hooks, after: Hooks, id: Id, answer: Answer) {
    if id in before.deliveries && before.deliveries[id].requestUrl != "" && before.deliveries[id].requestPayload != []
    then
      var d := before.deliveries[id];
      && after.log == before.log + [Attempt(d.id, d.requestUrl, d.requestPayload, d.requestHeaders, answer)]
      && (answer.Unreachable? ==> after.deliveries == before.deliveries)
      && (answer.Answered? ==>
            && d.id in after.deliveries && after.deliveries == before.deliveries[d.id := after.deliveries[d.id]]
            && IsRecordOf(d, answer.response, after.deliveries[d.id]))
    else after == before
  }

  lemma ReplayedByField(h: Hooks, id: Id, answer: Answer)
    ensures IsReplay(h, Replayed(h, id, answer), id, answer)
  {
    hide IsRecordOf, Recorded;
    if id in h.deliveries && answer.Answered? {
      RecordedByField(h.deliveries[id], answer.response);
      RecordKeepsId(h.deliveries[id], answer.response);
    }
  }

  lemma RecordKeepsId(d: Delivery, r: Response)
    ensures Recorded(d, r).id == d.id
  {
  }

  method ReplayDelivery(store: Store, receiver: Receiver, id: Id, answer: Answer) returns (r: Option<Delivery>)
    requires store.Valid()
    modifies store, receiver
    ensures store.Valid()
    ensures HooksOf(store, receiver) == Replayed(old(HooksOf(store, receiver)), id, answer)
    ensures IsReplay(old(HooksOf(store, receiver)), HooksOf(store, receiver), id, answer)
    ensures store.View() == old(store.View()).(deliveries := HooksOf(store, receiver).deliveries)
    ensures r.Some? <==> ReplaySucceeds(old(HooksOf(store, receiver)), id, answer)
    ensures r.Some? ==> id in store.View().deliveries && r.value == store.View().deliveries[id]
  {
    hide IsReplay;
    ReplayedByField(HooksOf(store, receiver), id, answer);
    if id !in store.webhookDeliveriesById {
      return None;
    }
    var delivery := store.webhookDeliveriesById[id];
    if delivery.requestUrl == "" || delivery.requestPayload == [] {
      return None;
    }
    var headers := CopyHeaders(delivery.requestHeaders);
    receiver.Dispatch(delivery, delivery.requestUrl, delivery.requestPayload, headers, answer);
    if answer.Unreachable? {
      return None;
    }
    var recorded := RecordAttempt(store, delivery, answer.response);
    return Some(recorded);
  }

  datatype SweepResult = SweepResult(
    attempted: nat, succeeded: nat, failed: nat, skipped: nat, deliveries: seq<Delivery>)

  method RetryDueDeliveries(store: Store, receiver: Receiver, limit: int, at: Time, answers: Id -> Answer)
    returns (result: SweepResult, ghost list: seq<Delivery>)
    requires store.Valid()
    modifies store, receiver
    ensures store.Valid()
    ensures IsRecentList(DeliveryRank, old(store.View()).deliveries.Values, limit, list)
    ensures HooksOf(store, receiver) == Swept(old(HooksOf(store, receiver)), at, list, answers)
    ensures store.View() == old(store.View()).(deliveries := HooksOf(store, receiver).deliveries)
    ensures result.attempted + result.skipped == |list|
    ensures result.attempted == result.succeeded + result.failed
    ensures result.succeeded == |result.deliveries|
    ensures result.deliveries == Retried(old(HooksOf(store, receiver)), at, list, answers)
    ensures result.attempted == |Overdue(list, at)|
  {
    hide Swept, Retried, DueIn, IsRecentList, Overdue;
    var listed := store.ListWebhookDeliveries(limit);
    list := listed;
    SweepStarts(old(HooksOf(store, receiver)), at, answers);
    assert listed[..0] == [];
    result := SweepResult(0, 0, 0, 0, []);
    for n := 0 to |listed|
      invariant store.Valid()
      invariant HooksOf(store, receiver) == Swept(old(HooksOf(store, receiver)), at, listed[..n], answers)
      invariant store.View() == old(store.View()).(deliveries := HooksOf(store, receiver).deliveries)
      invariant result.attempted + result.skipped == n
      invariant result.attempted == result.succeeded + result.failed
      invariant result.succeeded == |result.deliveries|
      invariant result.deliveries == Retried(old(HooksOf(store, receiver)), at, listed[..n], answers)
      invariant result.attempted == |DueIn(listed[..n], at)|
    {
      var delivery := listed[n];
      OneMoreListed(old(HooksOf(store, receiver)), at, listed, n, answers);
      if !IsRetryDue(delivery, at) {
        result := result.(skipped := result.skipped + 1);
        continue;
      }
      result := result.(attempted := result.attempted + 1);
      var replayed := ReplayDelivery(store, receiver, delivery.id, answers(delivery.id));
      if replayed.None? {
        result := result.(failed := result.failed + 1);
        continue;
      }
      result := result.(succeeded := result.succeeded + 1, deliveries := result.deliveries + [replayed.value]);
    }
    assert listed[..|listed|] == listed;
    DueIsOverdue(listed, at);
  }
}
