/** memory.Store: the maps and the calls that read and write them, each proved against Tables. */
module Store {
  import opened Domain
  import opened Keys
  import opened Recency
  import opened Tables

  function ReceiptRank(r: Receipt): Rank { Rank(r.receivedAt, r.rawKey) }
  function SuppressionRank(s: Suppression): Rank { Rank(s.updatedAt, s.id) }
  function DeliveryRank(d: Delivery): Rank { Rank(d.updatedAt, d.id) }

  const NO_MESSAGE := Message("", "", "", "", "", Inbound, "", "", "", "", [], "", "", "", NoState, "",
                              ZERO_TIME, ZERO_TIME, ZERO_TIME, ZERO_TIME)

  /** The record is filed under its id, and under its inbox and Message-ID and its provider id if it has them. */
  ghost predicate IsWritten(db: Db, digest: string -> string, m: Message, db': Db) {
    && db'.messages == db.messages[m.id := m]
    && (m.inboxId != "" && m.messageIdHeader != "" ==>
          db'.inboundKeys == db.inboundKeys[InboundMessageKey(digest, m.inboxId, m.messageIdHeader) := m.id])
    && (m.inboxId == "" || m.messageIdHeader == "" ==> db'.inboundKeys == db.inboundKeys)
    && (m.providerMessageId != "" ==> db'.byProvider == db.byProvider[m.providerMessageId := m])
    && (m.providerMessageId == "" ==> db'.byProvider == db.byProvider)
  }

  /** Its id is the next of its thread's list. */
  ghost predicate IsListed(db: Db, m: Message, db': Db) {
    && (m.threadId == "" ==> db'.threadLists == db.threadLists)
    && (m.threadId != "" && m.threadId in db.threadLists ==>
          db'.threadLists == db.threadLists[m.threadId := db.threadLists[m.threadId] + [m.id]])
    && (m.threadId != "" && m.threadId !in db.threadLists ==>
          db'.threadLists == db.threadLists[m.threadId := [m.id]])
  }

  ghost predicate IsLookedUp(index: map<string, Id>, messages: map<Id, Message>, key: string, r: Option<Message>) {
    && (key in index && index[key] in messages ==> r == Some(messages[index[key]]))
    && (r.Some? ==> key in index && index[key] in messages)
  }

  predicate IsOf(t: Thread, organizationId: Id, inboxId: Id, contactId: Id, subject: string) {
    && t.organizationId == organizationId && t.inboxId == inboxId
    && t.contactId == contactId && t.subjectNormalized == subject
  }

  ghost predicate IsLatestOf(
      threads: map<Id, Thread>, organizationId: Id, inboxId: Id, contactId: Id, subject: string, r: Option<Thread>)
  {
    && (r.None? ==> forall id :: id in threads ==> !IsOf(threads[id], organizationId, inboxId, contactId, subject))
    && (r.Some? ==>
          && r.value in threads.Values && IsOf(r.value, organizationId, inboxId, contactId, subject)
          && forall id :: id in threads && IsOf(threads[id], organizationId, inboxId, contactId, subject) ==>
               threads[id].lastActivityAt <= r.value.lastActivityAt)
  }

  ghost predicate IsThreadOfBearer(
      messages: map<Id, Message>, threads: map<Id, Thread>, header: string, r: Option<Thread>)
  {
    && (r.Some? ==> exists id :: id in messages && messages[id].messageIdHeader == header
                      && messages[id].threadId in threads && r.value == threads[messages[id].threadId])
    && (r.None? ==> forall id :: id in messages && messages[id].messageIdHeader == header ==>
          exists other :: other in messages && messages[other].messageIdHeader == header
                          && messages[other].threadId !in threads)
  }

  /** Later, or at the same time under a key that sorts after the other. */
  predicate IsNewer(at: Time, key: string, otherAt: Time, otherKey: string) {
    at > otherAt || (at == otherAt && StringLess(otherKey, key))
  }

  class Store {
    const digest: string -> string

    var organizationsById: map<Id, Organization>
    var agentsById: map<Id, Agent>
    var rawMessages: map<string, string>
    var inboxesById: map<Id, Inbox>
    var inboxesByEmail: map<string, Inbox>
    var inboundReceiptsByKey: map<string, Receipt>
    var contactsById: map<Id, Contact>
    var contactsByEmail: map<string, Contact>
    var threadsById: map<Id, Thread>
    var messagesById: map<Id, Message>
    var messagesByInboundKey: map<string, Id>
    var messagesByProviderId: map<string, Message>
    var messagesByThreadId: map<Id, seq<Id>>
    var replySubmissionsByKey: map<string, Id>
    var suppressionsById: map<Id, Suppression>
    var webhookDeliveriesById: map<Id, Delivery>

    ghost function View(): Db
      reads this
    {
      Db(organizationsById, agentsById, inboxesById, inboxesByEmail, rawMessages, inboundReceiptsByKey,
         contactsById, contactsByEmail, threadsById, messagesById, messagesByInboundKey,
         messagesByProviderId, messagesByThreadId, replySubmissionsByKey, suppressionsById,
         webhookDeliveriesById)
    }

    ghost predicate Valid()
      reads this
    {
      View().Keyed()
    }

    constructor (digest: string -> string)
      ensures Valid() && this.digest == digest
      ensures View() == Db(map[], map[], map[], map[], map[], map[], map[], map[], map[], map[], map[],
                           map[], map[], map[], map[], map[])
    {
      this.digest := digest;
      organizationsById, agentsById, inboxesById, inboxesByEmail := map[], map[], map[], map[];
      rawMessages, inboundReceiptsByKey := map[], map[];
      contactsById, contactsByEmail, threadsById := map[], map[], map[];
      messagesById, messagesByInboundKey, messagesByProviderId := map[], map[], map[];
      messagesByThreadId, replySubmissionsByKey := map[], map[];
      suppressionsById, webhookDeliveriesById := map[], map[];
    }

    method SaveOrganization(o: Organization)
      requires Valid()
      modifies `organizationsById
      ensures Valid() && organizationsById == old(organizationsById)[o.id := o]
    {
      organizationsById := organizationsById[o.id := o];
    }

    method SaveAgent(a: Agent)
      requires Valid()
      modifies `agentsById
      ensures Valid() && agentsById == old(agentsById)[a.id := a]
    {
      agentsById := agentsById[a.id := a];
    }

    method SaveInbox(i: Inbox)
      requires Valid()
      modifies `inboxesById, `inboxesByEmail
      ensures Valid()
      ensures inboxesById == old(inboxesById)[i.id := i]
      ensures inboxesByEmail == old(inboxesByEmail)[i.emailAddress := i]
    {
      inboxesById := inboxesById[i.id := i];
      inboxesByEmail := inboxesByEmail[i.emailAddress := i];
    }

    method Put(key: string, data: string)
      requires Valid()
      modifies `rawMessages
      ensures Valid() && View() == old(View()).PutRaw(key, data)
      ensures rawMessages == old(rawMessages)[key := data]
    {
      rawMessages := rawMessages[key := data];
    }

    method SaveInboundReceipt(r: Receipt)
      requires Valid()
      modifies `inboundReceiptsByKey
      ensures Valid() && View() == old(View()).SaveReceipt(r)
      ensures inboundReceiptsByKey == old(inboundReceiptsByKey)[r.rawKey := r]
    {
      inboundReceiptsByKey := inboundReceiptsByKey[r.rawKey := r];
    }

    method UpsertByEmail(c: Contact)
      requires Valid()
      modifies `contactsById, `contactsByEmail
      ensures Valid() && View() == old(View()).UpsertContact(c)
      ensures contactsById == old(contactsById)[c.id := c]
      ensures contactsByEmail == old(contactsByEmail)[c.emailAddress := c]
    {
      contactsById := contactsById[c.id := c];
      contactsByEmail := contactsByEmail[c.emailAddress := c];
    }

    method Save(t: Thread) returns (saved: Thread)
      requires Valid()
      modifies `threadsById
      ensures Valid() && View() == old(View()).SaveThread(t)
      ensures saved == old(View()).Merged(t)
      ensures threadsById == old(threadsById)[t.id := saved] && IsSaved(old(threadsById), t, saved)
    {
      saved := t;
      if t.id in threadsById {
        saved := Refill(t, threadsById[t.id]);
      }
      threadsById := threadsById[t.id := saved];
    }

    method SaveMessage(m: Message)
      requires Valid()
      modifies `messagesById, `messagesByInboundKey, `messagesByProviderId
      ensures Valid() && View() == old(View()).SaveMessage(digest, m)
      ensures IsWritten(old(View()), digest, m, View()) && View().threadLists == old(View()).threadLists
    {
      messagesById := messagesById[m.id := m];
      messagesByInboundKey :=
        if m.inboxId != "" && m.messageIdHeader != ""
        then messagesByInboundKey[InboundMessageKey(digest, m.inboxId, m.messageIdHeader) := m.id]
        else messagesByInboundKey;
      messagesByProviderId :=
        if m.providerMessageId != "" then messagesByProviderId[m.providerMessageId := m] else messagesByProviderId;
    }

    /** Create makes the three writes of SaveMessage and then extends the thread's list. */
    method Create(m: Message)
      requires Valid()
      modifies `messagesById, `messagesByInboundKey, `messagesByProviderId, `messagesByThreadId
      ensures Valid() && View() == old(View()).CreateMessage(digest, m)
      ensures IsWritten(old(View()), digest, m, View()) && IsListed(old(View()), m, View())
    {
      SaveMessage(m);
      if m.threadId != "" {
        var ids := if m.threadId in messagesByThreadId then messagesByThreadId[m.threadId] else [];
        messagesByThreadId := messagesByThreadId[m.threadId := ids + [m.id]];
        assert [] + [m.id] == [m.id];
      }
    }

    method SaveReplySubmission(key: string, messageId: Id)
      requires Valid()
      modifies `replySubmissionsByKey
      ensures Valid() && View() == old(View()).SaveSubmission(key, messageId)
      ensures replySubmissionsByKey == old(replySubmissionsByKey)[key := messageId]
    {
      replySubmissionsByKey := replySubmissionsByKey[key := messageId];
    }

    method SaveSuppression(s: Suppression)
      requires Valid()
      modifies `suppressionsById
      ensures Valid() && View() == old(View()).SaveSuppression(s)
      ensures suppressionsById == old(suppressionsById)[s.id := s]
    {
      suppressionsById := suppressionsById[s.id := s];
    }

    method SaveWebhookDelivery(d: Delivery)
      requires Valid()
      modifies `webhookDeliveriesById
      ensures Valid() && View() == old(View()).SaveDelivery(d)
      ensures webhookDeliveriesById == old(webhookDeliveriesById)[d.id := d]
    {
      webhookDeliveriesById := webhookDeliveriesById[d.id := d];
    }

    method FindInboundByHeader(inboxId: Id, header: string) returns (r: Option<Message>)
      ensures r == View().FindInboundByHeader(digest, inboxId, header)
      ensures IsLookedUp(messagesByInboundKey, messagesById, InboundMessageKey(digest, inboxId, header), r)
    {
      var key := InboundMessageKey(digest, inboxId, header);
      if key !in messagesByInboundKey {
        return None;
      }
      var id := messagesByInboundKey[key];
      r := if id in messagesById then Some(messagesById[id]) else None;
    }

    method FindReplyBySubmissionKey(key: string) returns (r: Option<Message>)
      ensures r == View().FindReplyBySubmissionKey(key)
      ensures IsLookedUp(replySubmissionsByKey, messagesById, key, r)
    {
      if key !in replySubmissionsByKey {
        return None;
      }
      var id := replySubmissionsByKey[key];
      r := if id in messagesById then Some(messagesById[id]) else None;
    }

    method FindByMessageId(header: string) returns (r: Option<Thread>)
      ensures View().FoundByHeader(header, r)
      ensures IsThreadOfBearer(messagesById, threadsById, header, r)
    {
      var unread := messagesById.Keys;
      while unread != {}
        invariant unread <= messagesById.Keys
        invariant forall id :: id in messagesById && id !in unread ==> messagesById[id].messageIdHeader != header
        decreases unread
      {
        var id :| id in unread;
        var message := messagesById[id];
        if message.messageIdHeader == header {
          r := if message.threadId in threadsById then Some(threadsById[message.threadId]) else None;
          assert id in View().messages && r == View().ThreadOf(View().messages[id]);
          return;
        }
        unread := unread - {id};
      }
      return None;
    }

    method FindMostRecentBySubject(organizationId: Id, inboxId: Id, contactId: Id, subject: string)
      returns (r: Option<Thread>)
      ensures View().MostRecent(organizationId, inboxId, contactId, subject, r)
      ensures IsLatestOf(threadsById, organizationId, inboxId, contactId, subject, r)
    {
      r := None;
      var unread := threadsById.Keys;
      while unread != {}
        invariant unread <= threadsById.Keys
        invariant r.None? ==>
          forall id :: id in threadsById && id !in unread
            ==> !View().SubjectMatch(threadsById[id], organizationId, inboxId, contactId, subject)
        invariant r.Some? ==>
          && (exists id :: id in threadsById && threadsById[id] == r.value)
          && View().SubjectMatch(r.value, organizationId, inboxId, contactId, subject)
          && forall id :: id in threadsById && id !in unread
               && View().SubjectMatch(threadsById[id], organizationId, inboxId, contactId, subject)
               ==> threadsById[id].lastActivityAt <= r.value.lastActivityAt
        decreases unread
      {
        var id :| id in unread;
        unread := unread - {id};
        var thread := threadsById[id];
        if && thread.organizationId == organizationId && thread.inboxId == inboxId
           && thread.contactId == contactId && thread.subjectNormalized == subject
        {
          if r.None? || thread.lastActivityAt > r.value.lastActivityAt {
            r := Some(thread);
          }
        }
      }
    }

    method IsSuppressed(organizationId: Id, email: string) returns (found: bool)
      ensures found <==> View().Suppressed(organizationId, email)
      ensures found <==> exists id :: id in suppressionsById && suppressionsById[id].organizationId == organizationId
                                      && suppressionsById[id].emailAddress == email
    {
      var unread := suppressionsById.Keys;
      while unread != {}
        invariant unread <= suppressionsById.Keys
        invariant forall id :: id in suppressionsById && id !in unread ==>
          !(suppressionsById[id].organizationId == organizationId && suppressionsById[id].emailAddress == email)
        decreases unread
      {
        var id :| id in unread;
        if suppressionsById[id].organizationId == organizationId && suppressionsById[id].emailAddress == email {
          return true;
        }
        unread := unread - {id};
      }
      return false;
    }

    method ListByThreadId(threadId: Id, limit: int) returns (out: seq<Message>)
      ensures var ids := View().ThreadList(threadId);
              && |out| == (if 0 < limit < |ids| then limit else |ids|)
              && forall i :: 0 <= i < |out| ==>
                   out[i] == if ids[i] in messagesById then messagesById[ids[i]] else NO_MESSAGE
    {
      var ids := if threadId in messagesByThreadId then messagesByThreadId[threadId] else [];
      if limit > 0 && |ids| > limit {
        ids := ids[..limit];
      }
      out := [];
      for n := 0 to |ids|
        invariant |out| == n
        invariant forall i :: 0 <= i < n ==>
                    out[i] == if ids[i] in messagesById then messagesById[ids[i]] else NO_MESSAGE
      {
        out := out + [if ids[n] in messagesById then messagesById[ids[n]] else NO_MESSAGE];
      }
    }

    method ListInboundReceipts(limit: int) returns (list: seq<Receipt>)
      requires Valid()
      ensures IsRecentList(ReceiptRank, View().receipts.Values, limit, list)
      ensures forall i, j :: 0 <= i < j < |list| ==>
                IsNewer(list[i].receivedAt, list[i].rawKey, list[j].receivedAt, list[j].rawKey)
      ensures forall r, i :: r in inboundReceiptsByKey.Values && r !in list && 0 <= i < |list| ==>
                IsNewer(list[i].receivedAt, list[i].rawKey, r.receivedAt, r.rawKey)
    {
      var out := Records(inboundReceiptsByKey);
      list := Recent(ReceiptRank, inboundReceiptsByKey.Values, out, limit);
    }

    method ListSuppressions(limit: int) returns (list: seq<Suppression>)
      requires Valid()
      ensures IsRecentList(SuppressionRank, View().suppressions.Values, limit, list)
      ensures forall i, j :: 0 <= i < j < |list| ==>
                IsNewer(list[i].updatedAt, list[i].id, list[j].updatedAt, list[j].id)
      ensures forall x, i :: x in suppressionsById.Values && x !in list && 0 <= i < |list| ==>
                IsNewer(list[i].updatedAt, list[i].id, x.updatedAt, x.id)
    {
      var out := Records(suppressionsById);
      list := Recent(SuppressionRank, suppressionsById.Values, out, limit);
    }

    method ListWebhookDeliveries(limit: int) returns (list: seq<Delivery>)
      requires Valid()
      ensures IsRecentList(DeliveryRank, View().deliveries.Values, limit, list)
      ensures forall i, j :: 0 <= i < j < |list| ==>
                IsNewer(list[i].updatedAt, list[i].id, list[j].updatedAt, list[j].id)
      ensures forall x, i :: x in webhookDeliveriesById.Values && x !in list && 0 <= i < |list| ==>
                IsNewer(list[i].updatedAt, list[i].id, x.updatedAt, x.id)
    {
      var out := Records(webhookDeliveriesById);
      list := Recent(DeliveryRank, webhookDeliveriesById.Values, out, limit);
    }
  }

  /** The six guarded assignments of Save. */
  method Refill(t: Thread, existing: Thread) returns (saved: Thread)
    ensures saved == Refilled(t, existing)
    ensures IsFilledFrom(t, existing, saved)
  {
    saved := t;
    if saved.organizationId == "" { saved := saved.(organizationId := existing.organizationId); }
    if saved.agentId == "" { saved := saved.(agentId := existing.agentId); }
    if saved.inboxId == "" { saved := saved.(inboxId := existing.inboxId); }
    if saved.contactId == "" { saved := saved.(contactId := existing.contactId); }
    if saved.subjectNormalized == "" { saved := saved.(subjectNormalized := existing.subjectNormalized); }
    if saved.state.Unset? { saved := saved.(state := existing.state); }
  }

  /** The loop that copies a table into a slice, in no fixed order. */
  method Records<K(==), V(==)>(table: map<K, V>) returns (out: seq<V>)
    requires forall k, k' :: k in table && k' in table && table[k] == table[k'] ==> k == k'
    ensures |out| == |table.Values|
    ensures forall i, j :: 0 <= i < j < |out| ==> out[i] != out[j]
    ensures forall x :: x in out <==> x in table.Values
  {
    out := [];
    var unread := table.Keys;
    ghost var copied: set<V> := {};
    while unread != {}
      invariant unread <= table.Keys
      invariant forall i, j :: 0 <= i < j < |out| ==> out[i] != out[j]
      invariant forall x :: x in out <==> exists k :: k in table && k !in unread && table[k] == x
      invariant forall x :: x in out <==> x in copied
      invariant |copied| == |out|
      decreases unread
    {
      var k :| k in unread;
      unread := unread - {k};
      assert table[k] !in out;
      copied := copied + {table[k]};
      out := out + [table[k]];
    }
    assert copied == table.Values;
  }

  /** Ids are unique in a keyed table, so the recency list of the deliveries is unique too. */
  lemma DeliveryListUnique(db: Db, limit: int, a: seq<Delivery>, b: seq<Delivery>)
    requires db.Keyed()
    requires IsRecentList(DeliveryRank, db.deliveries.Values, limit, a)
    requires IsRecentList(DeliveryRank, db.deliveries.Values, limit, b)
    ensures a == b
  {
    RecentListUnique(DeliveryRank, db.deliveries.Values, limit, a, b);
  }
}
