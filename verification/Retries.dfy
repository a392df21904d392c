/** What runs of deliveries, sweeps and replays do: spacing, bounds, exactness of a sweep, one request for ever. */
module Retries {
  import opened Domain
  import opened Recency
  import opened Store
  import opened Attempts
  import opened Webhooks

  // ---------------------------------------------------------------- one sweep

  predicate DistinctIds(list: seq<Delivery>) {
    forall i, j :: 0 <= i < j < |list| ==> list[i].id != list[j].id
  }

  /** The list is a snapshot: what it says of a delivery is what the table says. */
  ghost predicate Snapshot(deliveries: map<Id, Delivery>, list: seq<Delivery>) {
    && DistinctIds(list)
    && forall d :: d in list ==> d.id in deliveries && deliveries[d.id] == d
  }

  function AfterSweep(d: Delivery, at: Time, answer: Answer): Delivery {
    if IsRetryDue(d, at) && Replayable(d) && answer.Answered? then Recorded(d, answer.response) else d
  }

  function Requests(list: seq<Delivery>, at: Time, answers: Id -> Answer): seq<Attempt> {
    if list == [] then []
    else
      var d := list[|list| - 1];
      Requests(list[..|list| - 1], at, answers)
      + (if IsRetryDue(d, at) && Replayable(d) then [AttemptOf(d, answers(d.id))] else [])
  }

  /**
   A sweep sends the due deliveries of its list, each once and in order, records exactly those answered,
   and leaves every other delivery unchanged.
   */
  lemma {:induction false} SweepEffect(h: Hooks, at: Time, list: seq<Delivery>, answers: Id -> Answer)
    requires Snapshot(h.deliveries, list)
    ensures var h' := Swept(h, at, list, answers);
            && h'.log == h.log + Requests(list, at, answers)
            && h'.deliveries.Keys == h.deliveries.Keys
            && (forall d :: d in list ==> h'.deliveries[d.id] == AfterSweep(d, at, answers(d.id)))
            && (forall id :: id in h.deliveries && (forall d :: d in list ==> d.id != id) ==>
                  h'.deliveries[id] == h.deliveries[id])
  {
    hide Recorded, IsRetryDue, Replayable;
    if list == [] {
      assert h.log + [] == h.log;
    } else {
      var init, d := list[..|list| - 1], list[|list| - 1];
      LastListed(h.deliveries, list);
      SweepEffect(h, at, init, answers);
      ReplayEffect(Swept(h, at, init, answers), d, at, answers(d.id));
    }
  }

  function Succeeding(list: seq<Delivery>, at: Time, answers: Id -> Answer): seq<Delivery> {
    if list == [] then []
    else
      var d := list[|list| - 1];
      Succeeding(list[..|list| - 1], at, answers)
      + (if IsRetryDue(d, at) && Replayable(d) && answers(d.id).Answered?
         then [AfterSweep(d, at, answers(d.id))] else [])
  }

  /** A sweep reports as succeeded exactly the listed deliveries that were due and answered, in order. */
  lemma {:induction false} SweepReports(h: Hooks, at: Time, list: seq<Delivery>, answers: Id -> Answer)
    requires Snapshot(h.deliveries, list)
    ensures Retried(h, at, list, answers) == Succeeding(list, at, answers)
  {
    hide Recorded, IsRetryDue, Replayable;
    if list == [] {
    } else {
      var init, d := list[..|list| - 1], list[|list| - 1];
      LastListed(h.deliveries, list);
      SweepReports(h, at, init, answers);
      SweepEffect(h, at, init, answers);
      ReplayEffect(Swept(h, at, init, answers), d, at, answers(d.id));
    }
  }

  lemma LastListed(deliveries: map<Id, Delivery>, list: seq<Delivery>)
    requires Snapshot(deliveries, list) && list != []
    ensures var init, d := list[..|list| - 1], list[|list| - 1];
            && Snapshot(deliveries, init) && d.id in deliveries && deliveries[d.id] == d
            && (forall e :: e in init ==> e.id != d.id)
            && (forall e :: e in list <==> e in init || e == d)
  {
    assert list == list[..|list| - 1] + [list[|list| - 1]];
  }

  lemma ReplayEffect(h: Hooks, d: Delivery, at: Time, answer: Answer)
    requires d.id in h.deliveries && h.deliveries[d.id] == d
    ensures var h' := if IsRetryDue(d, at) then Replayed(h, d.id, answer) else h;
            && h'.log == h.log + (if IsRetryDue(d, at) && Replayable(d) then [AttemptOf(d, answer)] else [])
            && h'.deliveries == h.deliveries[d.id := AfterSweep(d, at, answer)]
  {
    assert h.log + [] == h.log;
  }

  lemma RecentIsSnapshot(deliveries: map<Id, Delivery>, limit: int, list: seq<Delivery>)
    requires IsRecentList(DeliveryRank, deliveries.Values, limit, list)
    requires forall id :: id in deliveries ==> deliveries[id].id == id
    ensures Snapshot(deliveries, list)
  {
    forall i, j | 0 <= i < j < |list| ensures list[i].id != list[j].id {
      assert Above(DeliveryRank(list[i]), DeliveryRank(list[j]));
      AboveTotal(DeliveryRank(list[i]), DeliveryRank(list[i]));
      assert list[i] in list && list[j] in list;
    }
  }

  /** The receiver's clock is not behind the sweep's when it answers for this delivery. */
  predicate ClockReached(at: Time, answer: Answer) {
    answer.Answered? ==> answer.response.deliveredAt >= at
  }

  lemma BackoffPositive(n: int)
    requires 1 <= n <= MAX_ATTEMPTS
    ensures Backoff(n) == MINUTE * Pow2(n - 1) && Backoff(n) >= MINUTE
  {
    BackoffExact(n);
  }

  /**
   After a sweep over the whole table, a delivery is due at the sweep's time exactly when it was due and got
   no answer; so when every dispatch is answered nothing is due.
   */
  lemma NothingAnsweredStaysDue(h: Hooks, at: Time, limit: int, list: seq<Delivery>, answers: Id -> Answer, id: Id)
    requires IsRecentList(DeliveryRank, h.deliveries.Values, limit, list)
    requires limit <= 0 || limit >= |h.deliveries.Values|
    requires forall k :: k in h.deliveries ==> h.deliveries[k].id == k
    requires forall k :: k in h.deliveries ==> h.deliveries[k].attemptCount >= 0
    requires ClockReached(at, answers(id)) && id in h.deliveries
    ensures var h' := Swept(h, at, list, answers);
            && id in h'.deliveries
            && (IsRetryDue(h'.deliveries[id], at) <==>
                  IsRetryDue(h.deliveries[id], at) && !ReplaySucceeds(h, id, answers(id)))
  {
    hide IsRecentList, Swept, IsRetryDue, Replayable, AfterSweep;
    RecentIsSnapshot(h.deliveries, limit, list);
    SweepEffect(h, at, list, answers);
    FullListIsTable(DeliveryRank, h.deliveries.Values, limit, list);
    var d := h.deliveries[id];
    assert d in h.deliveries.Values && d in (set x | x in list);
    DueAfter(d, at, answers(id));
  }

  lemma DueAfter(d: Delivery, at: Time, answer: Answer)
    requires d.attemptCount >= 0 && (answer.Answered? ==> answer.response.deliveredAt >= at)
    ensures IsRetryDue(AfterSweep(d, at, answer), at) <==>
              IsRetryDue(d, at) && !(Replayable(d) && answer.Answered?)
  {
    if answer.Answered? && d.attemptCount + 1 <= MAX_ATTEMPTS {
      BackoffPositive(d.attemptCount + 1);
    }
  }

  /** The attempts of one delivery, in order. */
  function AttemptsOf(log: seq<Attempt>, id: Id): seq<Attempt> {
    if log == [] then []
    else AttemptsOf(log[..|log| - 1], id) + (if log[|log| - 1].id == id then [log[|log| - 1]] else [])
  }

  lemma AttemptsSnoc(log: seq<Attempt>, a: Attempt, id: Id)
    ensures AttemptsOf(log + [a], id) == AttemptsOf(log, id) + (if a.id == id then [a] else [])
  {
    assert (log + [a])[..|log|] == log;
  }

  /** What a sweep sends for this delivery: one request if it is listed, due and replayable, else none. */
  function SentFor(h: Hooks, at: Time, list: seq<Delivery>, answers: Id -> Answer, id: Id): seq<Attempt> {
    if id in h.deliveries && h.deliveries[id] in list && IsRetryDue(h.deliveries[id], at)
       && Replayable(h.deliveries[id])
    then [AttemptOf(h.deliveries[id], answers(id))] else []
  }

  lemma {:induction false} SweepSendsOnce(h: Hooks, at: Time, list: seq<Delivery>, answers: Id -> Answer, id: Id)
    requires Snapshot(h.deliveries, list) && (id in h.deliveries ==> h.deliveries[id].id == id)
    ensures AttemptsOf(Swept(h, at, list, answers).log, id)
         == AttemptsOf(h.log, id) + SentFor(h, at, list, answers, id)
  {
    hide IsRetryDue, Replayable, Recorded;
    if list == [] {
      assert AttemptsOf(h.log, id) + [] == AttemptsOf(h.log, id);
    } else {
      var init, d := list[..|list| - 1], list[|list| - 1];
      LastListed(h.deliveries, list);
      SweepSendsOnce(h, at, init, answers, id);
      SweepEffect(h, at, init, answers);
      var before := Swept(h, at, init, answers);
      ReplayEffect(before, d, at, answers(d.id));
      AttemptsSnoc(before.log, AttemptOf(d, answers(d.id)), id);
      assert before.log + [] == before.log;
    }
  }

  /**
   A sweep over the whole table sends exactly the deliveries that are due at its time and can be sent again,
   one request each, and nothing for any other.
   */
  lemma WholeSweepSendsTheDue(h: Hooks, at: Time, limit: int, list: seq<Delivery>, answers: Id -> Answer, id: Id)
    requires IsRecentList(DeliveryRank, h.deliveries.Values, limit, list)
    requires limit <= 0 || limit >= |h.deliveries.Values|
    requires forall k :: k in h.deliveries ==> h.deliveries[k].id == k
    ensures AttemptsOf(Swept(h, at, list, answers).log, id)
         == AttemptsOf(h.log, id)
            + (if && id in h.deliveries && h.deliveries[id].status == Retrying
                  && h.deliveries[id].nextAttemptAt != ZERO_TIME && h.deliveries[id].nextAttemptAt <= at
                  && h.deliveries[id].requestUrl != "" && h.deliveries[id].requestPayload != []
               then [Attempt(id, h.deliveries[id].requestUrl, h.deliveries[id].requestPayload,
                             h.deliveries[id].requestHeaders, answers(id))]
               else [])
  {
    hide IsRecentList, Swept, AttemptsOf;
    RecentIsSnapshot(h.deliveries, limit, list);
    SweepSendsOnce(h, at, list, answers, id);
    FullListIsTable(DeliveryRank, h.deliveries.Values, limit, list);
    if id in h.deliveries {
      assert h.deliveries[id] in h.deliveries.Values && h.deliveries[id] in (set x | x in list);
    }
  }

  /** A due delivery that a sweep does not list, or gets no answer for, is due at every later time. */
  lemma UnansweredStaysDue(
      h: Hooks, at: Time, limit: int, list: seq<Delivery>, answers: Id -> Answer, id: Id, later: Time)
    requires IsRecentList(DeliveryRank, h.deliveries.Values, limit, list)
    requires forall k :: k in h.deliveries ==> h.deliveries[k].id == k
    requires id in h.deliveries && answers(id).Unreachable? && at <= later
    requires h.deliveries[id].status == Retrying && h.deliveries[id].nextAttemptAt != ZERO_TIME
             && h.deliveries[id].nextAttemptAt <= at
    ensures var h' := Swept(h, at, list, answers);
            && id in h'.deliveries && h'.deliveries[id] == h.deliveries[id]
            && h'.deliveries[id].status == Retrying && h'.deliveries[id].nextAttemptAt != ZERO_TIME
            && h'.deliveries[id].nextAttemptAt <= later && IsRetryDue(h'.deliveries[id], later)
  {
    hide IsRecentList, Swept;
    RecentIsSnapshot(h.deliveries, limit, list);
    SweepEffect(h, at, list, answers);
    if h.deliveries[id] in list {
      assert AfterSweep(h.deliveries[id], at, answers(id)) == h.deliveries[id];
    }
  }

  // ---------------------------------------------------------------- runs

  datatype HookEvent =
    | First(pending: Delivery, answer: Answer)
    | Sweep(at: Time, limit: int, list: seq<Delivery>, answers: Id -> Answer)
    | Replay(id: Id, replayAnswer: Answer)

  ghost function Followed(h: Hooks, e: HookEvent): Hooks {
    match e
    case First(d, answer) => Dispatched(h, d, answer)
    case Sweep(at, _, list, answers) => Swept(h, at, list, answers)
    case Replay(id, answer) => Replayed(h, id, answer)
  }

  /** A first delivery has a fresh id; a sweep lists the newest deliveries. */
  ghost predicate Allowed(h: Hooks, e: HookEvent) {
    match e
    case First(d, _) =>
      && d.id !in h.deliveries && (forall a :: a in h.log ==> a.id != d.id)
      && d.status.Pending? && d.attemptCount == 0
    case Sweep(_, limit, list, _) =>
      IsRecentList(DeliveryRank, h.deliveries.Values, limit, list)
    case Replay(_, _) => true
  }

  ghost predicate IsHistory(states: seq<Hooks>, events: seq<HookEvent>) {
    && |states| == |events| + 1
    && states[0] == Hooks(map[], [])
    && forall i :: 0 <= i < |events| ==>
         Allowed(states[i], events[i]) && states[i + 1] == Followed(states[i], events[i])
  }

  // ---------------------------------------------------------------- one request for ever

  ghost predicate Repeats(a: Attempt, d: Delivery) {
    a.url == d.requestUrl && a.payload == d.requestPayload && a.headers == d.requestHeaders
  }

  ghost predicate Faithful(h: Hooks) {
    && (forall id :: id in h.deliveries ==> h.deliveries[id].id == id)
    && (forall a :: a in h.log && a.id in h.deliveries ==> Repeats(a, h.deliveries[a.id]))
    && (forall a, b :: a in h.log && b in h.log && a.id == b.id ==>
          a.url == b.url && a.payload == b.payload && a.headers == b.headers)
  }

  lemma DispatchKeepsFaithful(h: Hooks, d: Delivery, answer: Answer)
    requires Faithful(h)
    requires if d.id in h.deliveries then h.deliveries[d.id] == d else forall a :: a in h.log ==> a.id != d.id
    ensures Faithful(Dispatched(h, d, answer))
  {
  }

  lemma {:induction false} SweepKeepsFaithful(h: Hooks, at: Time, list: seq<Delivery>, answers: Id -> Answer)
    requires Faithful(h)
    ensures Faithful(Swept(h, at, list, answers))
  {
    if list == [] {
    } else {
      SweepKeepsFaithful(h, at, list[..|list| - 1], answers);
      var before, d := Swept(h, at, list[..|list| - 1], answers), list[|list| - 1];
      if d.id in before.deliveries {
        DispatchKeepsFaithful(before, before.deliveries[d.id], answers(d.id));
      }
    }
  }

  /** Every attempt of a delivery, first, swept or replayed, in any run, sends the same request. */
  lemma {:induction false} OneRequestForEver(states: seq<Hooks>, events: seq<HookEvent>, n: nat)
    requires IsHistory(states, events) && n < |states|
    ensures Faithful(states[n])
  {
    if n == 0 {
    } else {
      OneRequestForEver(states, events, n - 1);
      var h := states[n - 1];
      match events[n - 1] {
        case First(d, answer) => DispatchKeepsFaithful(h, d, answer);
        case Sweep(at, _, list, answers) => SweepKeepsFaithful(h, at, list, answers);
        case Replay(id, answer) =>
          if id in h.deliveries {
            DispatchKeepsFaithful(h, h.deliveries[id], answer);
          }
      }
    }
  }

  // ---------------------------------------------------------------- the attempt count

  /** Retrying deliveries have one to three answered attempts behind them. */
  ghost predicate Counted(deliveries: map<Id, Delivery>) {
    && (forall id :: id in deliveries ==> deliveries[id].id == id && deliveries[id].attemptCount >= 1)
    && (forall id :: id in deliveries && deliveries[id].status.Retrying? ==>
          deliveries[id].attemptCount <= MAX_ATTEMPTS)
  }

  lemma DispatchKeepsCounted(h: Hooks, d: Delivery, answer: Answer)
    requires Counted(h.deliveries) && d.attemptCount >= 0
    ensures Counted(Dispatched(h, d, answer).deliveries)
  {
  }

  lemma {:induction false} SweepKeepsCounted(h: Hooks, at: Time, list: seq<Delivery>, answers: Id -> Answer)
    requires Counted(h.deliveries)
    ensures Counted(Swept(h, at, list, answers).deliveries)
  {
    if list == [] {
    } else {
      SweepKeepsCounted(h, at, list[..|list| - 1], answers);
      var before, d := Swept(h, at, list[..|list| - 1], answers), list[|list| - 1];
      if d.id in before.deliveries {
        DispatchKeepsCounted(before, before.deliveries[d.id], answers(d.id));
      }
    }
  }

  /** In every run, manual replays and slow clocks included. */
  lemma {:induction false} HistoryIsCounted(states: seq<Hooks>, events: seq<HookEvent>, n: nat)
    requires IsHistory(states, events) && n < |states|
    ensures Counted(states[n].deliveries)
  {
    hide Counted;
    if n == 0 {
      assert Counted(map[]) by {
        NoneIsCounted();
      }
    } else {
      HistoryIsCounted(states, events, n - 1);
      var h := states[n - 1];
      match events[n - 1] {
        case First(d, answer) => DispatchKeepsCounted(h, d, answer);
        case Sweep(at, _, list, answers) => SweepKeepsCounted(h, at, list, answers);
        case Replay(id, answer) =>
          if id in h.deliveries {
            CountedIsKeyed(h.deliveries);
            DispatchKeepsCounted(h, h.deliveries[id], answer);
          }
      }
    }
  }

  lemma NoneIsCounted()
    ensures Counted(map[])
  {
  }

  lemma CountedIsKeyed(deliveries: map<Id, Delivery>)
    requires Counted(deliveries)
    ensures forall id :: id in deliveries ==> deliveries[id].id == id && deliveries[id].attemptCount >= 1
  {
  }

  // ---------------------------------------------------------------- spacing and number of attempts

  /** When the answered attempts of a delivery came, in order. */
  function Times(log: seq<Attempt>, id: Id): seq<Time> {
    if log == [] then []
    else
      var a := log[|log| - 1];
      Times(log[..|log| - 1], id) + (if a.id == id && a.answer.Answered? then [a.answer.response.deliveredAt] else [])
  }

  lemma TimesSnoc(log: seq<Attempt>, a: Attempt, id: Id)
    ensures Times(log + [a], id)
         == Times(log, id) + (if a.id == id && a.answer.Answered? then [a.answer.response.deliveredAt] else [])
  {
    assert (log + [a])[..|log|] == log;
  }

  ghost predicate Spaced(times: seq<Time>) {
    forall k :: 0 <= k < |times| - 1 ==> times[k + 1] - times[k] >= MINUTE * Pow2(k)
  }

  /** The record of a delivery tells its answered attempts: how many, the last one, and when the next is due. */
  ghost predicate Chronicled(d: Delivery, times: seq<Time>) {
    && 1 <= |times| <= MAX_ATTEMPTS + 1
    && d.attemptCount == |times| && d.lastAttemptAt == times[|times| - 1]
    && (d.status.Retrying? ==>
          |times| <= MAX_ATTEMPTS && d.nextAttemptAt == times[|times| - 1] + MINUTE * Pow2(|times| - 1))
  }

  /** This delivery is chronicled; and well spaced, if its receiver's clock kept up. */
  ghost predicate Timely(h: Hooks, id: Id, clock: bool) {
    if id !in h.deliveries then Times(h.log, id) == []
    else
      && h.deliveries[id].id == id && Chronicled(h.deliveries[id], Times(h.log, id))
      && (clock ==> Spaced(Times(h.log, id)))
  }

  lemma RecordedIsChronicled(d: Delivery, times: seq<Time>, r: Response)
    requires d.attemptCount == |times| <= MAX_ATTEMPTS
    ensures Chronicled(Recorded(d, r), times + [r.deliveredAt])
  {
    if |times| + 1 <= MAX_ATTEMPTS {
      BackoffPositive(|times| + 1);
    }
  }

  /** An attempt at this time keeps its distance from the last one. */
  ghost predicate Due(times: seq<Time>, at: Time) {
    times != [] ==> at - times[|times| - 1] >= MINUTE * Pow2(|times| - 1)
  }

  lemma SpacedSnoc(times: seq<Time>, at: Time)
    requires Spaced(times) && Due(times, at)
    ensures Spaced(times + [at])
  {
    var longer := times + [at];
    forall k | 0 <= k < |longer| - 1 ensures longer[k + 1] - longer[k] >= MINUTE * Pow2(k) {
      if k + 1 < |times| {
        assert longer[k + 1] == times[k + 1] && longer[k] == times[k];
      }
    }
  }

  /** Sending some delivery: another one, or this one when another attempt is in order. */
  lemma DispatchKeepsTimely(h: Hooks, d: Delivery, answer: Answer, id: Id, clock: bool)
    requires Timely(h, id, clock)
    requires d.id == id ==> d.attemptCount == |Times(h.log, id)| <= MAX_ATTEMPTS
    requires d.id == id && clock && answer.Answered? ==>
      Spaced(Times(h.log, id)) && Due(Times(h.log, id), answer.response.deliveredAt)
    ensures Timely(Dispatched(h, d, answer), id, clock)
  {
    hide Chronicled, Recorded, Spaced, Times, Due;
    TimesAfter(h, d, answer);
    if d.id == id && answer.Answered? {
      RecordedIsChronicled(d, Times(h.log, id), answer.response);
      RecordedKeepsId(d, answer.response);
      if clock {
        SpacedSnoc(Times(h.log, id), answer.response.deliveredAt);
      }
    }
  }

  lemma RecordedKeepsId(d: Delivery, r: Response)
    ensures Recorded(d, r).id == d.id
  {
  }

  lemma TimesAfter(h: Hooks, d: Delivery, answer: Answer)
    ensures forall id :: Times(Dispatched(h, d, answer).log, id)
              == if d.id == id && answer.Answered? then Times(h.log, id) + [answer.response.deliveredAt]
                 else Times(h.log, id)
  {
    forall id ensures Times(Dispatched(h, d, answer).log, id)
                        == if d.id == id && answer.Answered? then Times(h.log, id) + [answer.response.deliveredAt]
                           else Times(h.log, id)
    {
      TimesSnoc(h.log, AttemptOf(d, answer), id);
      assert Times(h.log, id) + [] == Times(h.log, id);
    }
  }

  /** Replaying a delivery that is due, at a time the receiver's clock has reached if it keeps up. */
  lemma DueReplayKeepsTimely(h: Hooks, d: Delivery, at: Time, answer: Answer, id: Id, clock: bool)
    requires Timely(h, id, clock) && d.id in h.deliveries && h.deliveries[d.id] == d && IsRetryDue(d, at)
    requires d.id == id && clock && answer.Answered? ==> answer.response.deliveredAt >= at
    ensures Timely(Replayed(h, d.id, answer), id, clock)
  {
    if Replayable(d) {
      DispatchKeepsTimely(h, d, answer, id, clock);
    }
  }

  lemma {:induction false} SweepKeepsTimely(
      h: Hooks, at: Time, list: seq<Delivery>, answers: Id -> Answer, id: Id, clock: bool)
    requires Timely(h, id, clock) && Snapshot(h.deliveries, list) && (clock ==> ClockReached(at, answers(id)))
    ensures Timely(Swept(h, at, list, answers), id, clock)
  {
    if list == [] {
    } else {
      hide Timely, IsRetryDue, Replayed;
      var init, d := list[..|list| - 1], list[|list| - 1];
      LastListed(h.deliveries, list);
      SweepKeepsTimely(h, at, init, answers, id, clock);
      SweepEffect(h, at, init, answers);
      if IsRetryDue(d, at) {
        DueReplayKeepsTimely(Swept(h, at, init, answers), d, at, answers(d.id), id, clock);
      }
    }
  }

  /** This delivery is not replayed by hand; others may be. */
  ghost predicate NotReplayed(events: seq<HookEvent>, id: Id) {
    forall i :: 0 <= i < |events| && events[i].Replay? ==> events[i].id != id
  }

  /** In every sweep the clock of this delivery's receiver has reached the sweep's time. */
  ghost predicate ClocksAhead(events: seq<HookEvent>, id: Id) {
    forall i :: 0 <= i < |events| && events[i].Sweep? ==> ClockReached(events[i].at, events[i].answers(id))
  }

  lemma {:induction false} HistoryIsTimely(states: seq<Hooks>, events: seq<HookEvent>, n: nat, id: Id)
    requires IsHistory(states, events) && NotReplayed(events, id) && n < |states|
    ensures Timely(states[n], id, ClocksAhead(events, id))
  {
    hide ClockReached;
    if n == 0 {
    } else {
      HistoryIsTimely(states, events, n - 1, id);
      HistoryIsCounted(states, events, n - 1);
      var h := states[n - 1];
      match events[n - 1] {
        case First(d, answer) => DispatchKeepsTimely(h, d, answer, id, ClocksAhead(events, id));
        case Sweep(at, limit, list, answers) =>
          RecentIsSnapshot(h.deliveries, limit, list);
          SweepKeepsTimely(h, at, list, answers, id, ClocksAhead(events, id));
        case Replay(other, answer) =>
          if other in h.deliveries && Replayable(h.deliveries[other]) {
            DispatchKeepsTimely(h, h.deliveries[other], answer, id, ClocksAhead(events, id));
          }
      }
    }
  }

  lemma {:induction false} SpacingAddsUp(times: seq<Time>, k: nat)
    requires Spaced(times) && k < |times|
    ensures times[k] - times[0] >= MINUTE * (Pow2(k) - 1)
  {
    if k == 0 {
    } else {
      SpacingAddsUp(times, k - 1);
      assert times[k - 1 + 1] - times[k - 1] >= MINUTE * Pow2(k - 1);
    }
  }

  /**
   In every run, a delivery that is not replayed by hand gets at most four answered attempts; and where its
   receiver's clock keeps up with the sweeps, the k-th (counting from one) comes at least 2^(k-1) - 1 minutes
   after the first.
   */
  lemma AttemptsAreFewAndSpaced(states: seq<Hooks>, events: seq<HookEvent>, n: nat, id: Id, k: nat)
    requires IsHistory(states, events) && NotReplayed(events, id) && n < |states|
    requires 1 <= k <= |Times(states[n].log, id)|
    ensures |Times(states[n].log, id)| <= 4
    ensures ClocksAhead(events, id) ==>
              Times(states[n].log, id)[k - 1] - Times(states[n].log, id)[0] >= MINUTE * (Pow2(k - 1) - 1)
  {
    hide IsHistory, NotReplayed, ClocksAhead;
    HistoryIsTimely(states, events, n, id);
    if ClocksAhead(events, id) {
      SpacingAddsUp(Times(states[n].log, id), k - 1);
    }
  }

  // ---------------------------------------------------------------- the retry budget

  function Credit(d: Delivery): nat {
    if d.status.Retrying? && d.attemptCount < 4 then 4 - d.attemptCount else 0
  }

  ghost function Budget(deliveries: map<Id, Delivery>): nat
    decreases |deliveries|
  {
    if deliveries == map[] then 0
    else
      var id :| id in deliveries;
      Credit(deliveries[id]) + Budget(deliveries - {id})
  }

  lemma {:induction false} BudgetWithout(deliveries: map<Id, Delivery>, id: Id)
    requires id in deliveries
    ensures Budget(deliveries) == Credit(deliveries[id]) + Budget(deliveries - {id})
    decreases |deliveries|
  {
    var k :| k in deliveries && Budget(deliveries) == Credit(deliveries[k]) + Budget(deliveries - {k});
    if k == id {
    } else {
      BudgetWithout(deliveries - {k}, id);
      BudgetWithout(deliveries - {id}, k);
      assert deliveries - {k} - {id} == deliveries - {id} - {k};
    }
  }

  lemma BudgetUpdated(deliveries: map<Id, Delivery>, d: Delivery)
    requires d.id in deliveries
    ensures Budget(deliveries[d.id := d]) == Budget(deliveries) - Credit(deliveries[d.id]) + Credit(d)
  {
    BudgetWithout(deliveries, d.id);
    BudgetWithout(deliveries[d.id := d], d.id);
    assert deliveries[d.id := d] - {d.id} == deliveries - {d.id};
  }

  lemma {:induction false} BudgetBound(deliveries: map<Id, Delivery>)
    requires forall id :: id in deliveries ==> deliveries[id].attemptCount >= 1
    ensures Budget(deliveries) <= 3 * |deliveries|
    decreases |deliveries|
  {
    if deliveries == map[] {
    } else {
      var id :| id in deliveries && Budget(deliveries) == Credit(deliveries[id]) + Budget(deliveries - {id});
      var rest := deliveries - {id};
      assert rest.Keys == deliveries.Keys - {id};
      assert |rest| == |rest.Keys| == |deliveries.Keys| - 1 == |deliveries| - 1;
      BudgetBound(rest);
      assert Credit(deliveries[id]) <= 3;
    }
  }

  function AnsweredCount(log: seq<Attempt>): nat {
    if log == [] then 0
    else AnsweredCount(log[..|log| - 1]) + (if log[|log| - 1].answer.Answered? then 1 else 0)
  }

  /** An answered retry costs at least one credit; an unanswered one costs nothing. */
  lemma DueReplaySpends(h: Hooks, d: Delivery, at: Time, answer: Answer)
    requires Counted(h.deliveries) && d.id in h.deliveries && h.deliveries[d.id] == d && IsRetryDue(d, at)
    ensures var h' := Replayed(h, d.id, answer);
            && Counted(h'.deliveries) && h'.deliveries.Keys == h.deliveries.Keys
            && (if ReplaySucceeds(h, d.id, answer)
                then AnsweredCount(h'.log) == AnsweredCount(h.log) + 1 && Budget(h'.deliveries) < Budget(h.deliveries)
                else AnsweredCount(h'.log) == AnsweredCount(h.log) && Budget(h'.deliveries) == Budget(h.deliveries))
  {
    var h' := Replayed(h, d.id, answer);
    if Replayable(d) {
      assert (h.log + [AttemptOf(d, answer)])[..|h.log|] == h.log;
      if answer.Answered? {
        BudgetUpdated(h.deliveries, Recorded(d, answer.response));
      }
    }
  }

  lemma {:induction false} SweepSpends(h: Hooks, at: Time, list: seq<Delivery>, answers: Id -> Answer)
    requires Counted(h.deliveries) && Snapshot(h.deliveries, list)
    ensures var h' := Swept(h, at, list, answers);
            && Counted(h'.deliveries) && h'.deliveries.Keys == h.deliveries.Keys
            && AnsweredCount(h'.log) >= AnsweredCount(h.log)
            && AnsweredCount(h'.log) - AnsweredCount(h.log) <= Budget(h.deliveries) - Budget(h'.deliveries)
            && (AnsweredCount(h'.log) == AnsweredCount(h.log) ==> Budget(h'.deliveries) == Budget(h.deliveries))
  {
    if list == [] {
    } else {
      hide Counted, IsRetryDue, Replayed, ReplaySucceeds, Budget, AnsweredCount;
      var init, d := list[..|list| - 1], list[|list| - 1];
      LastListed(h.deliveries, list);
      SweepSpends(h, at, init, answers);
      SweepEffect(h, at, init, answers);
      if IsRetryDue(d, at) {
        DueReplaySpends(Swept(h, at, init, answers), d, at, answers(d.id));
      }
    }
  }

  ghost predicate OnlySweeps(events: seq<HookEvent>, from: nat, to: nat) {
    forall i :: from <= i < to && i < |events| ==> events[i].Sweep?
  }

  lemma {:induction false} SweepsSpend(states: seq<Hooks>, events: seq<HookEvent>, m: nat, n: nat)
    requires IsHistory(states, events) && m <= n < |states| && OnlySweeps(events, m, n)
    ensures AnsweredCount(states[n].log) - AnsweredCount(states[m].log)
         <= Budget(states[m].deliveries) - Budget(states[n].deliveries)
    decreases n
  {
    hide Counted, IsRecentList, Swept, Budget, AnsweredCount;
    if m == n {
    } else {
      SweepsSpend(states, events, m, n - 1);
      HistoryIsCounted(states, events, n - 1);
      var h, e := states[n - 1], events[n - 1];
      CountedIsKeyed(h.deliveries);
      RecentIsSnapshot(h.deliveries, e.limit, e.list);
      SweepSpends(h, e.at, e.list, e.answers);
    }
  }

  /** After any run whatever, however many sweeps follow, N deliveries use up at most 3N answered retries. */
  lemma RetriesAreBounded(states: seq<Hooks>, events: seq<HookEvent>, m: nat, n: nat)
    requires IsHistory(states, events) && m <= n < |states| && OnlySweeps(events, m, n)
    ensures AnsweredCount(states[n].log) - AnsweredCount(states[m].log) <= 3 * |states[m].deliveries|
  {
    SweepsSpend(states, events, m, n);
    HistoryIsCounted(states, events, m);
    BudgetBound(states[m].deliveries);
  }
}
