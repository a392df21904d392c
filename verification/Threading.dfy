/** threading.Resolver: which conversation an inbound message joins. */
module Threading {
  import opened Domain
  import opened Tables
  import opened Store

  datatype Strategy = ByInReplyTo | ByReferences | BySubjectRecent | NewThread

  datatype ThreadInput = ThreadInput(
    organizationId: Id, agentId: Id, inboxId: Id, contactId: Id, parsed: ParsedMessage, receivedAt: Time)

  datatype Resolution = Resolution(thread: Thread, matchedBy: Strategy, created: bool)

  const DEFAULT_DORMANT_THRESHOLD: int := 30 * 24 * 60 * MINUTE

  /** NewResolverWithConfig: a threshold that is not positive is replaced. */
  function Threshold(configured: int): (t: int)
    ensures t > 0 && (configured > 0 ==> t == configured) && (configured <= 0 ==> t == 30 * 24 * 3_600_000_000_000)
  {
    if configured <= 0 then DEFAULT_DORMANT_THRESHOLD else configured
  }

  predicate IsDormant(threshold: int, t: Thread, receivedAt: Time) {
    if t.state.Dormant? then true
    else if t.lastActivityAt == ZERO_TIME then false
    else Elapsed(receivedAt, t.lastActivityAt) > threshold
  }

  function FreshThread(input: ThreadInput, id: Id): Thread {
    Thread(id, input.organizationId, input.agentId, input.inboxId, input.contactId,
           input.parsed.subjectNormalized, Active, "", "", input.receivedAt, input.receivedAt, input.receivedAt)
  }

  /** The ids a message links to, in the order they are looked up. */
  function LinkIds(parsed: ParsedMessage): seq<string> {
    (if parsed.inReplyTo != "" then [parsed.inReplyTo] else []) + parsed.references
  }

  function LinkStrategy(parsed: ParsedMessage, k: nat): Strategy {
    if k == 0 && parsed.inReplyTo != "" then ByInReplyTo else ByReferences
  }

  ghost predicate LinkedAt(db: Db, input: ThreadInput, k: nat, t: Thread)
    requires k < |LinkIds(input.parsed)|
  {
    var ids := LinkIds(input.parsed);
    && (forall j :: 0 <= j < k ==> db.FoundByHeader(ids[j], None))
    && db.FoundByHeader(ids[k], Some(t))
  }

  ghost predicate Unlinked(db: Db, input: ThreadInput) {
    var ids := LinkIds(input.parsed);
    forall j :: 0 <= j < |ids| ==> db.FoundByHeader(ids[j], None)
  }

  ghost predicate RecentMatch(db: Db, input: ThreadInput, m: Option<Thread>) {
    db.MostRecent(input.organizationId, input.inboxId, input.contactId, input.parsed.subjectNormalized, m)
  }

  /** The thread the subject path settles on, given the most recent match. */
  function BySubject(threshold: int, input: ThreadInput, freshId: Id, recent: Option<Thread>): Resolution {
    if recent.Some? && !IsDormant(threshold, recent.value, input.receivedAt)
    then Resolution(recent.value, BySubjectRecent, false)
    else Resolution(FreshThread(input, freshId), NewThread, true)
  }

  /** The answer is the thread of a message bearing link id number k, the ids before it being unknown. */
  ghost predicate ComesFrom(db: Db, input: ThreadInput, k: nat, r: Resolution) {
    && k < |LinkIds(input.parsed)| && LinkedAt(db, input, k, r.thread)
    && r == Resolution(r.thread, LinkStrategy(input.parsed, k), false)
  }

  /** The thread of the first known link id, else the most recent subject match, else a fresh thread. */
  ghost predicate Resolves(db: Db, threshold: int, input: ThreadInput, freshId: Id, r: Resolution) {
    || (exists k: nat :: ComesFrom(db, input, k, r))
    || (Unlinked(db, input) && input.parsed.subjectNormalized == ""
        && r == BySubject(threshold, input, freshId, None))
    || (Unlinked(db, input) && input.parsed.subjectNormalized != ""
        && exists m :: RecentMatch(db, input, m) && r == BySubject(threshold, input, freshId, m))
  }

  // ---------------------------------------------------------------- the answer, field by field

  /** The thread has the organization, inbox, contact and subject asked for. */
  predicate IsMatch(t: Thread, input: ThreadInput) {
    && t.organizationId == input.organizationId && t.inboxId == input.inboxId && t.contactId == input.contactId
    && t.subjectNormalized == input.parsed.subjectNormalized
  }

  /** A stored match, and no stored match has later activity. */
  ghost predicate IsLatestMatch(db: Db, input: ThreadInput, id: Id) {
    && id in db.threads && IsMatch(db.threads[id], input)
    && forall k :: k in db.threads && IsMatch(db.threads[k], input) ==>
         db.threads[k].lastActivityAt <= db.threads[id].lastActivityAt
  }

  /** Not marked dormant, and without an activity time or active within the threshold, if that is not the longest. */
  predicate IsLive(t: Thread, threshold: int, at: Time) {
    && t.state != Dormant
    && (t.lastActivityAt == ZERO_TIME || at - t.lastActivityAt <= threshold || threshold >= MAX_DURATION)
  }

  ghost predicate JoinsLatest(db: Db, threshold: int, input: ThreadInput, r: Resolution) {
    exists id :: IsLatestMatch(db, input, id) && IsLive(db.threads[id], threshold, input.receivedAt)
                 && r.thread == db.threads[id] && r.matchedBy == BySubjectRecent && !r.created
  }

  predicate IsOpened(input: ThreadInput, freshId: Id, r: Resolution) {
    && r.created && r.matchedBy == NewThread
    && r.thread.id == freshId && r.thread.organizationId == input.organizationId
    && r.thread.agentId == input.agentId && r.thread.inboxId == input.inboxId
    && r.thread.contactId == input.contactId && r.thread.subjectNormalized == input.parsed.subjectNormalized
    && r.thread.state == Active && r.thread.lastInboundId == "" && r.thread.lastOutboundId == ""
    && r.thread.lastActivityAt == r.thread.createdAt == r.thread.updatedAt == input.receivedAt
  }

  /** The latest match if it is live, and a new thread if it is not or there is none. */
  ghost predicate SubjectAnswers(db: Db, threshold: int, input: ThreadInput, freshId: Id, r: Resolution) {
    if input.parsed.subjectNormalized == "" then IsOpened(input, freshId, r)
    else
      || JoinsLatest(db, threshold, input, r)
      || (IsOpened(input, freshId, r)
          && ((forall id :: id in db.threads ==> !IsMatch(db.threads[id], input))
              || exists id :: IsLatestMatch(db, input, id)
                              && !IsLive(db.threads[id], threshold, input.receivedAt)))
  }

  /** The answer is the stored thread of a message with this Message-ID. */
  ghost predicate IsThreadOf(db: Db, header: string, r: Resolution) {
    exists id :: id in db.messages && db.messages[id].messageIdHeader == header
                 && db.messages[id].threadId in db.threads && r.thread == db.threads[db.messages[id].threadId]
  }

  ghost predicate Known(db: Db, header: string) {
    exists id :: id in db.messages && db.messages[id].messageIdHeader == header
  }

  ghost predicate ThreadsPresent(db: Db) {
    forall id :: id in db.messages ==> db.messages[id].threadId in db.threads
  }

  ghost predicate ParentKnown(db: Db, parsed: ParsedMessage) {
    parsed.inReplyTo != "" && Known(db, parsed.inReplyTo)
  }

  /** Reference n is known and none before it is. */
  ghost predicate FirstKnown(db: Db, references: seq<string>, n: nat) {
    n < |references| && Known(db, references[n]) && forall j :: 0 <= j < n ==> !Known(db, references[j])
  }

  /** In-Reply-To first, then the first known reference, then the subject. */
  ghost predicate AnswersByField(db: Db, threshold: int, input: ThreadInput, freshId: Id, r: Resolution) {
    var parsed := input.parsed;
    if ParentKnown(db, parsed)
    then IsThreadOf(db, parsed.inReplyTo, r) && r.matchedBy == ByInReplyTo && !r.created
    else
      && (forall n: nat :: FirstKnown(db, parsed.references, n) ==>
            IsThreadOf(db, parsed.references[n], r) && r.matchedBy == ByReferences && !r.created)
      && ((forall n: nat :: n < |parsed.references| ==> !Known(db, parsed.references[n])) ==>
            SubjectAnswers(db, threshold, input, freshId, r))
  }

  /** While messages keep their threads, an id is passed over exactly when no message bears it. */
  lemma LookupMissesUnknown(db: Db, header: string, r: Option<Thread>)
    requires ThreadsPresent(db) && db.FoundByHeader(header, r)
    ensures r.Some? <==> Known(db, header)
    ensures r.Some? ==> exists id :: id in db.messages && db.messages[id].messageIdHeader == header
                          && db.messages[id].threadId in db.threads && r.value == db.threads[db.messages[id].threadId]
  {
    if Known(db, header) {
      var id :| id in db.messages && db.messages[id].messageIdHeader == header && r == db.ThreadOf(db.messages[id]);
      assert db.messages[id].threadId in db.threads;
    }
  }

  lemma DormantByField(threshold: int, t: Thread, at: Time)
    requires threshold > 0
    ensures IsDormant(threshold, t, at) <==> !IsLive(t, threshold, at)
  {
  }

  /** What BySubject makes of the most recent match, in those terms. */
  lemma SubjectPathByField(db: Db, threshold: int, input: ThreadInput, freshId: Id, m: Option<Thread>)
    requires threshold > 0 && input.parsed.subjectNormalized != "" && RecentMatch(db, input, m)
    ensures SubjectAnswers(db, threshold, input, freshId, BySubject(threshold, input, freshId, m))
  {
    match m {
      case None =>
        assert forall id :: id in db.threads ==>
          !db.SubjectMatch(db.threads[id], input.organizationId, input.inboxId, input.contactId,
                           input.parsed.subjectNormalized);
      case Some(latest) =>
        var id :| id in db.threads && db.threads[id] == latest;
        DormantByField(threshold, latest, input.receivedAt);
        assert IsLatestMatch(db, input, id);
    }
  }

  /** Where each link id stands. */
  lemma LinkPlaces(parsed: ParsedMessage)
    ensures var ids, base := LinkIds(parsed), if parsed.inReplyTo != "" then 1 else 0;
            && |ids| == base + |parsed.references|
            && (parsed.inReplyTo != "" ==> ids[0] == parsed.inReplyTo)
            && forall n {:trigger parsed.references[n]} :: 0 <= n < |parsed.references| ==>
                 ids[base + n] == parsed.references[n]
  {
  }

  /** The ids before place k are unknown, and the one there is that of a stored message in the answered thread. */
  lemma LinkKnown(db: Db, input: ThreadInput, k: nat, r: Resolution)
    requires ThreadsPresent(db) && ComesFrom(db, input, k, r)
    ensures k < |LinkIds(input.parsed)| && IsThreadOf(db, LinkIds(input.parsed)[k], r)
    ensures Known(db, LinkIds(input.parsed)[k])
    ensures forall j :: 0 <= j < k ==> !Known(db, LinkIds(input.parsed)[j])
    ensures !r.created && r.matchedBy == LinkStrategy(input.parsed, k)
  {
    var ids := LinkIds(input.parsed);
    forall j | 0 <= j < k ensures !Known(db, ids[j]) {
      LookupMissesUnknown(db, ids[j], None);
    }
    LookupMissesUnknown(db, ids[k], Some(r.thread));
  }

  lemma LinkByField(db: Db, threshold: int, input: ThreadInput, freshId: Id, k: nat, r: Resolution)
    requires ThreadsPresent(db) && ComesFrom(db, input, k, r)
    ensures AnswersByField(db, threshold, input, freshId, r)
  {
    hide ComesFrom, Known, IsThreadOf, SubjectAnswers, LinkIds;
    var parsed := input.parsed;
    LinkKnown(db, input, k, r);
    LinkPlaces(parsed);
    if !ParentKnown(db, parsed) {
      var base := if parsed.inReplyTo != "" then 1 else 0;
      assert LinkIds(parsed)[k] == parsed.references[k - base];
      forall n: nat | n < k - base ensures !Known(db, parsed.references[n]) {
        assert LinkIds(parsed)[base + n] == parsed.references[n];
      }
      assert forall n: nat :: FirstKnown(db, parsed.references, n) ==> n == k - base;
    }
  }

  lemma UnlinkedByField(db: Db, input: ThreadInput)
    requires ThreadsPresent(db) && Unlinked(db, input)
    ensures !ParentKnown(db, input.parsed)
    ensures forall n: nat :: n < |input.parsed.references| ==> !Known(db, input.parsed.references[n])
  {
    hide Known;
    var ids, parsed := LinkIds(input.parsed), input.parsed;
    LinkPlaces(parsed);
    forall j | 0 <= j < |ids| ensures !Known(db, ids[j]) {
      LookupMissesUnknown(db, ids[j], None);
    }
    if parsed.inReplyTo != "" {
      assert !Known(db, ids[0]);
    }
  }

  /** The answer of the resolver, in the fields of the mail and of the stored threads and messages. */
  lemma ResolvesByField(db: Db, threshold: int, input: ThreadInput, freshId: Id, r: Resolution)
    requires Resolves(db, threshold, input, freshId, r) && ThreadsPresent(db) && threshold > 0
    ensures AnswersByField(db, threshold, input, freshId, r)
  {
    hide AnswersByField, ComesFrom, Unlinked, RecentMatch, BySubject, SubjectAnswers, ThreadsPresent;
    if k: nat :| ComesFrom(db, input, k, r) {
      LinkByField(db, threshold, input, freshId, k, r);
    } else {
      UnlinkedByField(db, input);
      if input.parsed.subjectNormalized == "" {
        NoSubjectByField(db, threshold, input, freshId);
      } else {
        var m :| RecentMatch(db, input, m) && r == BySubject(threshold, input, freshId, m);
        SubjectPathByField(db, threshold, input, freshId, m);
      }
      SubjectDecides(db, threshold, input, freshId, r);
    }
  }

  lemma AlsoByField(db: Db, threshold: int, input: ThreadInput, freshId: Id, r: Resolution)
    requires Resolves(db, threshold, input, freshId, r)
    ensures threshold > 0 && ThreadsPresent(db) ==> AnswersByField(db, threshold, input, freshId, r)
  {
    hide Resolves, AnswersByField, ThreadsPresent;
    if threshold > 0 && ThreadsPresent(db) {
      ResolvesByField(db, threshold, input, freshId, r);
    }
  }

  lemma SubjectAlsoByField(db: Db, threshold: int, input: ThreadInput, freshId: Id, m: Option<Thread>)
    requires input.parsed.subjectNormalized != "" && RecentMatch(db, input, m)
    ensures threshold > 0 ==> SubjectAnswers(db, threshold, input, freshId, BySubject(threshold, input, freshId, m))
  {
    hide RecentMatch, SubjectAnswers, BySubject;
    if threshold > 0 {
      SubjectPathByField(db, threshold, input, freshId, m);
    }
  }

  lemma NoSubjectByField(db: Db, threshold: int, input: ThreadInput, freshId: Id)
    requires input.parsed.subjectNormalized == ""
    ensures SubjectAnswers(db, threshold, input, freshId, BySubject(threshold, input, freshId, None))
  {
  }

  lemma SubjectDecides(db: Db, threshold: int, input: ThreadInput, freshId: Id, r: Resolution)
    requires !ParentKnown(db, input.parsed) && SubjectAnswers(db, threshold, input, freshId, r)
    requires forall n: nat :: n < |input.parsed.references| ==> !Known(db, input.parsed.references[n])
    ensures AnswersByField(db, threshold, input, freshId, r)
  {
    hide SubjectAnswers, Known;
  }

  // ---------------------------------------------------------------- the resolver

  method ResolveBySubject(store: Store, threshold: int, input: ThreadInput, freshId: Id) returns (r: Resolution)
    ensures input.parsed.subjectNormalized == "" ==> r == BySubject(threshold, input, freshId, None)
    ensures input.parsed.subjectNormalized != "" ==>
              exists m :: RecentMatch(store.View(), input, m) && r == BySubject(threshold, input, freshId, m)
    ensures threshold > 0 ==> SubjectAnswers(store.View(), threshold, input, freshId, r)
  {
    hide IsDormant, Db.MostRecent, SubjectAnswers, Store.View;
    if input.parsed.subjectNormalized != "" {
      var found := store.FindMostRecentBySubject(
        input.organizationId, input.inboxId, input.contactId, input.parsed.subjectNormalized);
      assert RecentMatch(store.View(), input, found);
      SubjectAlsoByField(store.View(), threshold, input, freshId, found);
      if found.Some? && !IsDormant(threshold, found.value, input.receivedAt) {
        return Resolution(found.value, BySubjectRecent, false);
      }
    } else {
      NoSubjectByField(store.View(), threshold, input, freshId);
    }
    return Resolution(FreshThread(input, freshId), NewThread, true);
  }

  method Resolve(store: Store, threshold: int, input: ThreadInput, freshId: Id) returns (r: Resolution)
    ensures Resolves(store.View(), threshold, input, freshId, r)
    ensures threshold > 0 && ThreadsPresent(store.View()) ==>
              AnswersByField(store.View(), threshold, input, freshId, r)
  {
    hide Db.FoundByHeader, BySubject, RecentMatch, Store.View, AnswersByField, ThreadsPresent;
    ghost var ids := LinkIds(input.parsed);
    ghost var base := 0;
    if input.parsed.inReplyTo != "" {
      var found := store.FindByMessageId(input.parsed.inReplyTo);
      if found.Some? {
        r := Resolution(found.value, ByInReplyTo, false);
        assert ComesFrom(store.View(), input, 0, r);
        AlsoByField(store.View(), threshold, input, freshId, r);
        return;
      }
      base := 1;
    }
    for n := 0 to |input.parsed.references|
      invariant forall j :: 0 <= j < base + n ==> store.View().FoundByHeader(ids[j], None)
    {
      assert ids[base + n] == input.parsed.references[n];
      var found := store.FindByMessageId(input.parsed.references[n]);
      if found.Some? {
        r := Resolution(found.value, ByReferences, false);
        assert ComesFrom(store.View(), input, base + n, r);
        AlsoByField(store.View(), threshold, input, freshId, r);
        return;
      }
    }
    r := ResolveBySubject(store, threshold, input, freshId);
    AlsoByField(store.View(), threshold, input, freshId, r);
  }

  // ---------------------------------------------------------------- what the answer means

  /**
   The scan follows no order, so an id settles the thread exactly when all its bearers are in one: replies
   in two threads under one generated Message-ID leave it open which thread an answer joins.
   */
  lemma LookupSettledExactly(db: Db, header: string)
    ensures (forall r, s :: db.FoundByHeader(header, r) && db.FoundByHeader(header, s) ==> r == s)
       <==> (forall a, b :: a in db.messages && b in db.messages && db.messages[a].messageIdHeader == header
                            && db.messages[b].messageIdHeader == header ==>
                              db.ThreadOf(db.messages[a]) == db.ThreadOf(db.messages[b]))
  {
    forall a | a in db.messages && db.messages[a].messageIdHeader == header
      ensures db.FoundByHeader(header, db.ThreadOf(db.messages[a]))
    {
    }
  }

  /** A known link id always decides: the answer is the thread of a message bearing the first known one. */
  lemma FirstKnownLinkDecides(db: Db, threshold: int, input: ThreadInput, freshId: Id, r: Resolution, k: nat)
    requires ThreadsPresent(db) && Resolves(db, threshold, input, freshId, r)
    requires k < |LinkIds(input.parsed)| && Known(db, LinkIds(input.parsed)[k])
    requires forall j :: 0 <= j < k ==> !Known(db, LinkIds(input.parsed)[j])
    ensures !r.created && r.matchedBy == LinkStrategy(input.parsed, k)
    ensures exists id :: id in db.messages && db.messages[id].messageIdHeader == LinkIds(input.parsed)[k]
              && db.messages[id].threadId in db.threads && r.thread == db.threads[db.messages[id].threadId]
  {
    var ids := LinkIds(input.parsed);
    forall j | 0 <= j < |ids| && db.FoundByHeader(ids[j], None) ensures !Known(db, ids[j]) {
      LookupMissesUnknown(db, ids[j], None);
    }
    var i: nat :| ComesFrom(db, input, i, r);
    LookupMissesUnknown(db, ids[i], Some(r.thread));
    assert i == k;
  }

  ghost predicate Matches(db: Db, input: ThreadInput, id: Id) {
    && id in db.threads
    && db.SubjectMatch(db.threads[id], input.organizationId, input.inboxId, input.contactId,
                       input.parsed.subjectNormalized)
  }

  /** Neither marked dormant nor with an activity time: never stale, yet behind every later match. */
  predicate Cleared(t: Thread) {
    !t.state.Dormant? && t.lastActivityAt == ZERO_TIME
  }

  ghost predicate AllStale(db: Db, threshold: int, input: ThreadInput) {
    forall id :: Matches(db, input, id) ==> IsDormant(threshold, db.threads[id], input.receivedAt)
  }

  /** Asking only the most recent match loses nothing: a new thread is opened exactly when every match is stale. */
  ghost predicate LosesNothing(db: Db, threshold: int, input: ThreadInput, freshId: Id, m: Option<Thread>) {
    BySubject(threshold, input, freshId, m).created <==> AllStale(db, threshold, input)
  }

  lemma OlderIsStaler(threshold: int, t: Thread, latest: Thread, at: Time)
    requires t.lastActivityAt <= latest.lastActivityAt && !Cleared(t) && !latest.state.Dormant?
    requires IsDormant(threshold, latest, at)
    ensures IsDormant(threshold, t, at)
  {
    assert Elapsed(at, t.lastActivityAt) >= Elapsed(at, latest.lastActivityAt);
  }

  /** If the latest match is not marked dormant: exactly when it is fresh, or no match is cleared. */
  lemma LatestSpeaksExactly(db: Db, threshold: int, input: ThreadInput, freshId: Id, latest: Thread)
    requires RecentMatch(db, input, Some(latest)) && !latest.state.Dormant?
    ensures LosesNothing(db, threshold, input, freshId, Some(latest))
       <==> (IsDormant(threshold, latest, input.receivedAt) ==>
               forall id :: Matches(db, input, id) ==> !Cleared(db.threads[id]))
  {
    hide Elapsed;
    var best :| best in db.threads && db.threads[best] == latest;
    assert Matches(db, input, best);
    if IsDormant(threshold, latest, input.receivedAt) {
      forall id | Matches(db, input, id)
        ensures IsDormant(threshold, db.threads[id], input.receivedAt) <==> !Cleared(db.threads[id])
      {
        if !Cleared(db.threads[id]) {
          OlderIsStaler(threshold, db.threads[id], latest, input.receivedAt);
        }
      }
    }
  }

  /** The most recent match among those not marked dormant. */
  ghost predicate RecentUnmarked(db: Db, input: ThreadInput, u: Option<Thread>) {
    match u
    case None => forall id :: Matches(db, input, id) ==> db.threads[id].state.Dormant?
    case Some(t) =>
      && !t.state.Dormant?
      && (exists id :: Matches(db, input, id) && db.threads[id] == t)
      && forall id :: Matches(db, input, id) && !db.threads[id].state.Dormant? ==>
           db.threads[id].lastActivityAt <= t.lastActivityAt
  }

  /** If it is marked: exactly when no match is cleared and the latest unmarked one, if any, is stale. */
  lemma MarkedLatestSpeaksExactly(
      db: Db, threshold: int, input: ThreadInput, freshId: Id, latest: Thread, u: Option<Thread>)
    requires RecentMatch(db, input, Some(latest)) && latest.state.Dormant? && RecentUnmarked(db, input, u)
    ensures LosesNothing(db, threshold, input, freshId, Some(latest))
       <==> (&& (forall id :: Matches(db, input, id) ==> !Cleared(db.threads[id]))
             && (u.Some? ==> IsDormant(threshold, u.value, input.receivedAt)))
  {
    hide Elapsed;
    forall id | Matches(db, input, id) && !Cleared(db.threads[id]) && u.Some?
                && IsDormant(threshold, u.value, input.receivedAt)
      ensures IsDormant(threshold, db.threads[id], input.receivedAt)
    {
      if !db.threads[id].state.Dormant? {
        OlderIsStaler(threshold, db.threads[id], u.value, input.receivedAt);
      }
    }
  }

  /** Where no match is marked or cleared, asking only the most recent one never loses anything. */
  lemma LatestSpeaksForAll(db: Db, threshold: int, input: ThreadInput, freshId: Id, m: Option<Thread>)
    requires RecentMatch(db, input, m)
    requires forall id :: Matches(db, input, id) ==> !db.threads[id].state.Dormant? && !Cleared(db.threads[id])
    ensures LosesNothing(db, threshold, input, freshId, m)
  {
    match m {
      case None => assert forall id :: !Matches(db, input, id);
      case Some(latest) =>
        var best :| best in db.threads && db.threads[best] == latest;
        assert Matches(db, input, best);
        LatestSpeaksExactly(db, threshold, input, freshId, latest);
    }
  }

  /**
   It can lose: escalating a thread clears its activity time, so that it never goes stale but ranks behind
   every other match, and any stale one hides it.
   */
  lemma ClearedThreadIsHidden(
      db: Db, threshold: int, input: ThreadInput, freshId: Id, stale: Thread, open: Thread, now: Time)
    requires input.parsed.subjectNormalized != "" && Unlinked(db, input) && stale.id != open.id
    requires db.threads == map[stale.id := stale, open.id := open]
    requires Matches(db, input, stale.id) && Matches(db, input, open.id)
    requires stale.lastActivityAt > ZERO_TIME && IsDormant(threshold, stale, input.receivedAt)
    ensures var db' := db.SaveThread(SparseThread(open.id, now));
            && Matches(db', input, open.id) && !IsDormant(threshold, db'.threads[open.id], input.receivedAt)
            && Resolves(db', threshold, input, freshId, Resolution(FreshThread(input, freshId), NewThread, true))
  {
    var db' := db.SaveThread(SparseThread(open.id, now));
    assert Unlinked(db', input) by {
      EscalationLinksNothing(db, input, open.id, now);
    }
    assert stale.id in db'.threads && db'.threads[stale.id] == stale;
    assert RecentMatch(db', input, Some(stale));
    assert BySubject(threshold, input, freshId, Some(stale)).created;
  }

  lemma EscalationLinksNothing(db: Db, input: ThreadInput, id: Id, now: Time)
    requires Unlinked(db, input) && id in db.threads
    ensures Unlinked(db.SaveThread(SparseThread(id, now)), input)
  {
    var db', ids := db.SaveThread(SparseThread(id, now)), LinkIds(input.parsed);
    forall j | 0 <= j < |ids| ensures db'.FoundByHeader(ids[j], None) {
      assert db.FoundByHeader(ids[j], None);
      if k :| k in db.messages && db.messages[k].messageIdHeader == ids[j] && db.ThreadOf(db.messages[k]).None? {
        assert db'.ThreadOf(db'.messages[k]).None?;
      }
    }
  }
}
