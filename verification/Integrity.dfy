/** Healthy tables: what holds in every state of every interleaving, and why each store call keeps it. */
module Integrity {
  import opened Domain
  import opened Keys
  import opened Tables
  import opened Machine

  // ---------------------------------------------------------------- healthy tables

  /** No message without its thread and its contact. */
  ghost predicate MessageRefs(messages: map<Id, Message>, threads: set<Id>, contacts: set<Id>) {
    && (forall id :: id in messages ==> messages[id].threadId in threads)
    && (forall id :: id in messages ==> messages[id].contactId in contacts)
  }

  ghost predicate ThreadRefs(threads: map<Id, Thread>, contacts: set<Id>) {
    forall id :: id in threads ==> threads[id].contactId in contacts
  }

  ghost predicate EmailRefs(byEmail: map<string, Contact>, contacts: set<Id>) {
    forall e :: e in byEmail ==> byEmail[e].id in contacts
  }

  ghost predicate SubmissionRefs(submissions: map<string, Id>, messages: set<Id>) {
    forall k :: k in submissions ==> submissions[k] in messages
  }

  ghost predicate ReceiptRefs(receipts: map<string, Receipt>, raw: set<string>) {
    forall k :: k in receipts ==> receipts[k].rawKey in raw
  }

  predicate Indexable(m: Message) {
    m.inboxId != "" && m.messageIdHeader != ""
  }

  function KeyOf(digest: string -> string, m: Message): string {
    InboundMessageKey(digest, m.inboxId, m.messageIdHeader)
  }

  /** The inbound-key index holds the key of every message that has one, and only keys of its messages. */
  ghost predicate InboundIndex(digest: string -> string, messages: map<Id, Message>, keys: map<string, Id>) {
    && (forall id :: id in messages && Indexable(messages[id]) ==> KeyOf(digest, messages[id]) in keys)
    && (forall k :: k in keys ==>
          keys[k] in messages && Indexable(messages[keys[k]]) && KeyOf(digest, messages[keys[k]]) == k)
  }

  /** A nonempty last-message pointer names a message of the thread, in the pointer's direction. */
  ghost predicate PointersOf(t: Thread, messages: map<Id, Message>) {
    && (t.lastInboundId != "" ==>
          && t.lastInboundId in messages && messages[t.lastInboundId].threadId == t.id
          && messages[t.lastInboundId].direction.Inbound?)
    && (t.lastOutboundId != "" ==>
          && t.lastOutboundId in messages && messages[t.lastOutboundId].threadId == t.id
          && messages[t.lastOutboundId].direction.Outbound?)
  }

  ghost predicate Pointers(threads: map<Id, Thread>, messages: map<Id, Message>) {
    forall id :: id in threads ==> PointersOf(threads[id], messages)
  }

  predicate NoRepeats(ids: seq<Id>) {
    forall i, j :: 0 <= i < j < |ids| ==> ids[i] != ids[j]
  }

  /** The thread lists hold each message exactly once, under its own thread. */
  ghost predicate Lists(lists: map<Id, seq<Id>>, messages: map<Id, Message>) {
    && (forall t :: t in lists ==> NoRepeats(lists[t]))
    && (forall t, id :: t in lists && id in lists[t] ==> id in messages && messages[id].threadId == t)
    && (forall id :: id in messages ==> messages[id].threadId in lists && id in lists[messages[id].threadId])
  }

  /** The copy filed under a provider id is the message record itself. */
  ghost predicate Copies(byProvider: map<string, Message>, messages: map<Id, Message>) {
    forall p :: p in byProvider ==>
      && byProvider[p].providerMessageId == p && p != ""
      && byProvider[p].id in messages && messages[byProvider[p].id] == byProvider[p]
  }

  /** Only outbound messages are queued and sent, and only sent ones bear a provider id. */
  ghost predicate Sendable(m: Message) {
    && (m.direction.Inbound? <==> m.deliveryState.NoState?)
    && (m.deliveryState.NoState? || m.deliveryState.Queued? ==> m.providerMessageId == "")
  }

  ghost predicate States(messages: map<Id, Message>) {
    forall id :: id in messages ==> Sendable(messages[id])
  }

  ghost predicate Issued(db: Db, issued: set<Id>) {
    && "" !in issued
    && db.contacts.Keys <= issued && db.threads.Keys <= issued && db.messages.Keys <= issued
    && db.suppressions.Keys <= issued && db.deliveries.Keys <= issued
  }

  /** No dangling reference anywhere. */
  ghost predicate References(db: Db) {
    && MessageRefs(db.messages, db.threads.Keys, db.contacts.Keys)
    && ThreadRefs(db.threads, db.contacts.Keys)
    && EmailRefs(db.contactsByEmail, db.contacts.Keys)
    && SubmissionRefs(db.submissions, db.messages.Keys)
    && ReceiptRefs(db.receipts, db.raw.Keys)
  }

  ghost predicate Healthy(env: Env, db: Db, issued: set<Id>) {
    && db.Keyed()
    && References(db)
    && InboundIndex(env.digest, db.messages, db.inboundKeys)
    && Pointers(db.threads, db.messages)
    && Lists(db.threadLists, db.messages)
    && Copies(db.byProvider, db.messages)
    && States(db.messages)
    && Issued(db, issued)
  }

  // ---------------------------------------------------------------- how tables may change

  function Progress(s: DeliveryState): int {
    match s
    case NoState => 3
    case Queued => 0
    case Sent => 1
    case _ => 2
  }

  /** A message only moves on: queued, sent, confirmed; its sending is never rewritten; the rest never changes. */
  ghost predicate Evolves(m: Message, n: Message) {
    && n == m.(deliveryState := n.deliveryState, providerMessageId := n.providerMessageId, sentAt := n.sentAt,
               deliveredAt := n.deliveredAt, bouncedAt := n.bouncedAt)
    && Progress(m.deliveryState) <= Progress(n.deliveryState)
    && (m.deliveryState.NoState? <==> n.deliveryState.NoState?)
    && (!m.deliveryState.Queued? ==> n.providerMessageId == m.providerMessageId && n.sentAt == m.sentAt)
  }

  ghost predicate MessagesGrow(old': map<Id, Message>, new': map<Id, Message>) {
    forall id :: id in old' ==> id in new' && Evolves(old'[id], new'[id])
  }

  ghost predicate SuppressionsGrow(old': map<Id, Suppression>, new': map<Id, Suppression>) {
    forall id :: id in old' ==> id in new' && new'[id] == old'[id]
  }

  ghost predicate Grows(db: Db, db': Db) {
    && db.raw.Keys <= db'.raw.Keys && db.receipts.Keys <= db'.receipts.Keys
    && db.contacts.Keys <= db'.contacts.Keys && db.threads.Keys <= db'.threads.Keys
    && db.submissions.Keys <= db'.submissions.Keys
    && MessagesGrow(db.messages, db'.messages)
    && SuppressionsGrow(db.suppressions, db'.suppressions)
    && db'.organizations == db.organizations && db'.agents == db.agents && db'.inboxes == db.inboxes
  }

  lemma MessagesGrowReflexive(ms: map<Id, Message>)
    ensures MessagesGrow(ms, ms)
  {
  }

  lemma SuppressionsGrowReflexive(ss: map<Id, Suppression>)
    ensures SuppressionsGrow(ss, ss)
  {
  }

  // ---------------------------------------------------------------- the effect on each predicate

  lemma MoreThreadsAndContacts(ms: map<Id, Message>, ts: set<Id>, cs: set<Id>, ts': set<Id>, cs': set<Id>)
    requires MessageRefs(ms, ts, cs) && ts <= ts' && cs <= cs'
    ensures MessageRefs(ms, ts', cs')
  {
  }

  lemma PointersFollow(threads: map<Id, Thread>, ms: map<Id, Message>, ms': map<Id, Message>)
    requires Pointers(threads, ms) && MessagesGrow(ms, ms')
    ensures Pointers(threads, ms')
  {
    forall id | id in threads ensures PointersOf(threads[id], ms') {
      assert PointersOf(threads[id], ms);
    }
  }

  /** m is new, or a further version of the stored message. */
  ghost predicate Writable(ms: map<Id, Message>, m: Message) {
    && Sendable(m)
    && (m.id in ms ==> Evolves(ms[m.id], m) && (ms[m.id].providerMessageId in {"", m.providerMessageId}))
  }

  lemma WriteGrows(ms: map<Id, Message>, m: Message)
    requires Writable(ms, m)
    ensures MessagesGrow(ms, ms[m.id := m])
  {
  }

  lemma IndexWritten(digest: string -> string, ms: map<Id, Message>, keys: map<string, Id>, m: Message)
    requires MessagesKeyed(ms) && InboundIndex(digest, ms, keys) && Writable(ms, m)
    ensures InboundIndex(digest, ms[m.id := m], if Indexable(m) then keys[KeyOf(digest, m) := m.id] else keys)
  {
  }

  lemma CopiesWritten(byProvider: map<string, Message>, ms: map<Id, Message>, m: Message)
    requires Copies(byProvider, ms) && Writable(ms, m)
    ensures Copies(if m.providerMessageId != "" then byProvider[m.providerMessageId := m] else byProvider,
                   ms[m.id := m])
  {
  }

  lemma ListsExtended(lists: map<Id, seq<Id>>, ms: map<Id, Message>, m: Message)
    requires Lists(lists, ms) && m.id !in ms
    ensures var list := if m.threadId in lists then lists[m.threadId] else [];
            Lists(lists[m.threadId := list + [m.id]], ms[m.id := m])
  {
    var list := if m.threadId in lists then lists[m.threadId] else [];
    var lists' := lists[m.threadId := list + [m.id]];
    assert m.id !in list;
    assert forall id :: id in ms && ms[id].threadId == m.threadId ==> id in lists'[m.threadId];
    assert m.id == (list + [m.id])[|list|];
  }

  lemma ListsRewritten(lists: map<Id, seq<Id>>, ms: map<Id, Message>, m: Message)
    requires Lists(lists, ms) && m.id in ms && ms[m.id].threadId == m.threadId
    ensures Lists(lists, ms[m.id := m])
  {
  }

  lemma MessageAdded(ms: map<Id, Message>, ts: set<Id>, cs: set<Id>, m: Message)
    requires MessageRefs(ms, ts, cs) && m.threadId in ts && m.contactId in cs
    requires States(ms) && MessagesKeyed(ms) && Sendable(m)
    ensures MessageRefs(ms[m.id := m], ts, cs) && States(ms[m.id := m]) && MessagesKeyed(ms[m.id := m])
  {
  }

  lemma MoreMessages(submissions: map<string, Id>, ms: set<Id>, ms': set<Id>)
    requires SubmissionRefs(submissions, ms) && ms <= ms'
    ensures SubmissionRefs(submissions, ms')
  {
  }

  // ---------------------------------------------------------------- the effect of each store call

  lemma ContactFiled(threads: map<Id, Thread>, byEmail: map<string, Contact>, cs: map<Id, Contact>, c: Contact)
    requires ThreadRefs(threads, cs.Keys) && EmailRefs(byEmail, cs.Keys) && ContactsKeyed(cs)
    ensures ThreadRefs(threads, cs[c.id := c].Keys) && ContactsKeyed(cs[c.id := c])
    ensures EmailRefs(byEmail[c.emailAddress := c], cs[c.id := c].Keys)
  {
  }

  lemma UpsertKeeps(env: Env, db: Db, issued: set<Id>, c: Contact)
    requires Healthy(env, db, issued) && c.id in issued
    ensures Healthy(env, db.UpsertContact(c), issued) && Grows(db, db.UpsertContact(c))
  {
    hide MessageRefs, ThreadRefs, EmailRefs, SubmissionRefs, ReceiptRefs, InboundIndex, Pointers, Lists, Copies,
         States, MessagesGrow, SuppressionsGrow, ContactsKeyed, ThreadsKeyed, MessagesKeyed, ReceiptsKeyed,
         SuppressionsKeyed, DeliveriesKeyed, Sendable, Evolves, PointersOf;
    MoreThreadsAndContacts(db.messages, db.threads.Keys, db.contacts.Keys, db.threads.Keys,
                           db.contacts[c.id := c].Keys);
    ContactFiled(db.threads, db.contactsByEmail, db.contacts, c);
    MessagesGrowReflexive(db.messages);
    SuppressionsGrowReflexive(db.suppressions);
  }

  /** A thread may be saved when it has a contact or is already stored, and points nowhere wrong. */
  ghost predicate Filable(db: Db, issued: set<Id>, t: Thread) {
    && t.id in issued
    && (t.contactId in db.contacts || (t.contactId == "" && t.id in db.threads))
    && PointersOf(t, db.messages)
  }

  lemma MergedIsFilable(db: Db, issued: set<Id>, t: Thread)
    requires Filable(db, issued, t) && Issued(db, issued) && ThreadRefs(db.threads, db.contacts.Keys)
    ensures db.Merged(t).contactId in db.contacts && db.Merged(t).id == t.id
    ensures PointersOf(db.Merged(t), db.messages)
  {
    assert "" !in db.contacts.Keys;
  }

  lemma ThreadFiled(threads: map<Id, Thread>, cs: set<Id>, ms: map<Id, Message>, t: Thread)
    requires ThreadRefs(threads, cs) && Pointers(threads, ms) && ThreadsKeyed(threads)
    requires t.contactId in cs && PointersOf(t, ms)
    ensures ThreadRefs(threads[t.id := t], cs) && Pointers(threads[t.id := t], ms)
    ensures ThreadsKeyed(threads[t.id := t])
  {
  }

  lemma SaveThreadKeeps(env: Env, db: Db, issued: set<Id>, t: Thread)
    requires Healthy(env, db, issued) && Filable(db, issued, t)
    ensures Healthy(env, db.SaveThread(t), issued) && Grows(db, db.SaveThread(t))
    ensures Filable(db.SaveThread(t), issued, db.Merged(t)) && db.Merged(t).id == t.id
    ensures db.Merged(t).contactId in db.contacts && t.id in db.SaveThread(t).threads
  {
    hide MessageRefs, ThreadRefs, EmailRefs, SubmissionRefs, ReceiptRefs, InboundIndex, Pointers, Lists, Copies,
         States, MessagesGrow, SuppressionsGrow, ContactsKeyed, ThreadsKeyed, MessagesKeyed, ReceiptsKeyed,
         SuppressionsKeyed, DeliveriesKeyed, Sendable, Evolves, PointersOf;
    hide Db.Merged;
    MergedIsFilable(db, issued, t);
    var ts' := db.threads[t.id := db.Merged(t)];
    ThreadFiled(db.threads, db.contacts.Keys, db.messages, db.Merged(t));
    MoreThreadsAndContacts(db.messages, db.threads.Keys, db.contacts.Keys, ts'.Keys, db.contacts.Keys);
    MessagesGrowReflexive(db.messages);
    SuppressionsGrowReflexive(db.suppressions);
  }

  /** What Create and SaveMessage have in common. */
  lemma WrittenKeeps(env: Env, db: Db, m: Message)
    requires MessagesKeyed(db.messages) && States(db.messages)
    requires MessageRefs(db.messages, db.threads.Keys, db.contacts.Keys)
    requires InboundIndex(env.digest, db.messages, db.inboundKeys)
    requires Copies(db.byProvider, db.messages) && Pointers(db.threads, db.messages)
    requires Writable(db.messages, m) && m.threadId in db.threads && m.contactId in db.contacts
    ensures var db' := db.SaveMessage(env.digest, m);
            && MessagesKeyed(db'.messages) && States(db'.messages)
            && MessageRefs(db'.messages, db'.threads.Keys, db'.contacts.Keys)
            && InboundIndex(env.digest, db'.messages, db'.inboundKeys)
            && Copies(db'.byProvider, db'.messages) && Pointers(db'.threads, db'.messages)
            && MessagesGrow(db.messages, db'.messages)
  {
    hide MessageRefs, ThreadRefs, EmailRefs, SubmissionRefs, ReceiptRefs, InboundIndex, Pointers, Lists, Copies,
         States, MessagesGrow, SuppressionsGrow, ContactsKeyed, ThreadsKeyed, MessagesKeyed, ReceiptsKeyed,
         SuppressionsKeyed, DeliveriesKeyed, Sendable, Evolves, PointersOf;
    WriteGrows(db.messages, m);
    MessageAdded(db.messages, db.threads.Keys, db.contacts.Keys, m);
    IndexWritten(env.digest, db.messages, db.inboundKeys, m);
    CopiesWritten(db.byProvider, db.messages, m);
    PointersFollow(db.threads, db.messages, db.messages[m.id := m]);
  }

  lemma FreshIsWritable(db: Db, issued: set<Id>, m: Message)
    requires Issued(db, issued) && m.id !in issued && m.threadId in db.threads && Sendable(m)
    ensures m.id !in db.messages && m.threadId != "" && Writable(db.messages, m)
  {
    assert m.id !in db.messages.Keys && m.threadId in db.threads.Keys;
  }

  lemma CreateKeeps(env: Env, db: Db, issued: set<Id>, m: Message)
    requires Healthy(env, db, issued)
    requires m.id !in issued && m.id != ""
    requires m.threadId in db.threads && m.contactId in db.contacts
    requires Sendable(m) && m.providerMessageId == ""
    ensures Healthy(env, db.CreateMessage(env.digest, m), issued + {m.id})
    ensures Grows(db, db.CreateMessage(env.digest, m))
  {
    hide MessageRefs, ThreadRefs, EmailRefs, SubmissionRefs, ReceiptRefs, InboundIndex, Pointers, Lists, Copies,
         States, MessagesGrow, SuppressionsGrow, ContactsKeyed, ThreadsKeyed, MessagesKeyed, ReceiptsKeyed,
         SuppressionsKeyed, DeliveriesKeyed, Sendable, Evolves, PointersOf;
    hide Writable;
    FreshIsWritable(db, issued, m);
    ListsExtended(db.threadLists, db.messages, m);
    WrittenKeeps(env, db, m);
    MoreMessages(db.submissions, db.messages.Keys, db.messages[m.id := m].Keys);
    SuppressionsGrowReflexive(db.suppressions);
  }

  lemma RewrittenRefs(db: Db, m: Message)
    requires MessageRefs(db.messages, db.threads.Keys, db.contacts.Keys)
    requires m.id in db.messages && Writable(db.messages, m)
    ensures m.threadId == db.messages[m.id].threadId && m.threadId in db.threads && m.contactId in db.contacts
    ensures db.messages[m.id := m].Keys == db.messages.Keys
  {
  }

  /** A stored message may be overwritten by a further version of itself. */
  lemma SaveMessageKeeps(env: Env, db: Db, issued: set<Id>, m: Message)
    requires Healthy(env, db, issued)
    requires m.id in db.messages && Writable(db.messages, m)
    ensures Healthy(env, db.SaveMessage(env.digest, m), issued)
    ensures Grows(db, db.SaveMessage(env.digest, m))
  {
    hide MessageRefs, ThreadRefs, EmailRefs, SubmissionRefs, ReceiptRefs, InboundIndex, Pointers, Lists, Copies,
         States, MessagesGrow, SuppressionsGrow, ContactsKeyed, ThreadsKeyed, MessagesKeyed, ReceiptsKeyed,
         SuppressionsKeyed, DeliveriesKeyed, Sendable, Evolves, PointersOf;
    hide Writable;
    RewrittenRefs(db, m);
    ListsRewritten(db.threadLists, db.messages, m);
    WrittenKeeps(env, db, m);
    SuppressionsGrowReflexive(db.suppressions);
  }

  /** Issuing more ids disturbs nothing. */
  lemma IssueKeeps(env: Env, db: Db, issued: set<Id>, id: Id)
    requires Healthy(env, db, issued) && id != ""
    ensures Healthy(env, db, issued + {id})
  {
    hide MessageRefs, ThreadRefs, EmailRefs, SubmissionRefs, ReceiptRefs, InboundIndex, Pointers, Lists, Copies,
         States, MessagesGrow, SuppressionsGrow, ContactsKeyed, ThreadsKeyed, MessagesKeyed, ReceiptsKeyed,
         SuppressionsKeyed, DeliveriesKeyed, Sendable, Evolves, PointersOf;
  }

  lemma MoreRaw(receipts: map<string, Receipt>, raw: set<string>, raw': set<string>)
    requires ReceiptRefs(receipts, raw) && raw <= raw'
    ensures ReceiptRefs(receipts, raw')
  {
  }

  lemma PutRawKeeps(env: Env, db: Db, issued: set<Id>, key: string, data: string)
    requires Healthy(env, db, issued)
    ensures Healthy(env, db.PutRaw(key, data), issued) && Grows(db, db.PutRaw(key, data))
  {
    hide MessageRefs, ThreadRefs, EmailRefs, SubmissionRefs, ReceiptRefs, InboundIndex, Pointers, Lists, Copies,
         States, MessagesGrow, SuppressionsGrow, ContactsKeyed, ThreadsKeyed, MessagesKeyed, ReceiptsKeyed,
         SuppressionsKeyed, DeliveriesKeyed, Sendable, Evolves, PointersOf;
    MoreRaw(db.receipts, db.raw.Keys, db.raw[key := data].Keys);
    MessagesGrowReflexive(db.messages);
    SuppressionsGrowReflexive(db.suppressions);
  }

  lemma ReceiptFiled(receipts: map<string, Receipt>, raw: set<string>, r: Receipt)
    requires ReceiptRefs(receipts, raw) && ReceiptsKeyed(receipts) && r.rawKey in raw
    ensures ReceiptRefs(receipts[r.rawKey := r], raw) && ReceiptsKeyed(receipts[r.rawKey := r])
  {
  }

  lemma SaveReceiptKeeps(env: Env, db: Db, issued: set<Id>, r: Receipt)
    requires Healthy(env, db, issued) && r.rawKey in db.raw
    ensures Healthy(env, db.SaveReceipt(r), issued) && Grows(db, db.SaveReceipt(r))
  {
    hide MessageRefs, ThreadRefs, EmailRefs, SubmissionRefs, ReceiptRefs, InboundIndex, Pointers, Lists, Copies,
         States, MessagesGrow, SuppressionsGrow, ContactsKeyed, ThreadsKeyed, MessagesKeyed, ReceiptsKeyed,
         SuppressionsKeyed, DeliveriesKeyed, Sendable, Evolves, PointersOf;
    ReceiptFiled(db.receipts, db.raw.Keys, r);
    MessagesGrowReflexive(db.messages);
    SuppressionsGrowReflexive(db.suppressions);
  }

  lemma SubmissionFiled(submissions: map<string, Id>, ms: set<Id>, key: string, id: Id)
    requires SubmissionRefs(submissions, ms) && id in ms
    ensures SubmissionRefs(submissions[key := id], ms)
  {
  }

  lemma SaveSubmissionKeeps(env: Env, db: Db, issued: set<Id>, key: string, messageId: Id)
    requires Healthy(env, db, issued) && messageId in db.messages
    ensures Healthy(env, db.SaveSubmission(key, messageId), issued) && Grows(db, db.SaveSubmission(key, messageId))
  {
    hide MessageRefs, ThreadRefs, EmailRefs, SubmissionRefs, ReceiptRefs, InboundIndex, Pointers, Lists, Copies,
         States, MessagesGrow, SuppressionsGrow, ContactsKeyed, ThreadsKeyed, MessagesKeyed, ReceiptsKeyed,
         SuppressionsKeyed, DeliveriesKeyed, Sendable, Evolves, PointersOf;
    SubmissionFiled(db.submissions, db.messages.Keys, key, messageId);
    MessagesGrowReflexive(db.messages);
    SuppressionsGrowReflexive(db.suppressions);
  }

  lemma SuppressionFiled(ss: map<Id, Suppression>, s: Suppression)
    requires SuppressionsKeyed(ss) && s.id !in ss
    ensures SuppressionsGrow(ss, ss[s.id := s]) && SuppressionsKeyed(ss[s.id := s])
  {
  }

  lemma SaveSuppressionKeeps(env: Env, db: Db, issued: set<Id>, s: Suppression)
    requires Healthy(env, db, issued) && s.id !in issued && s.id != ""
    ensures Healthy(env, db.SaveSuppression(s), issued + {s.id}) && Grows(db, db.SaveSuppression(s))
  {
    hide MessageRefs, ThreadRefs, EmailRefs, SubmissionRefs, ReceiptRefs, InboundIndex, Pointers, Lists, Copies,
         States, MessagesGrow, SuppressionsGrow, ContactsKeyed, ThreadsKeyed, MessagesKeyed, ReceiptsKeyed,
         SuppressionsKeyed, DeliveriesKeyed, Sendable, Evolves, PointersOf;
    assert s.id !in db.suppressions.Keys;
    SuppressionFiled(db.suppressions, s);
    MessagesGrowReflexive(db.messages);
  }

  lemma DeliveryFiled(ds: map<Id, Delivery>, d: Delivery)
    requires DeliveriesKeyed(ds)
    ensures DeliveriesKeyed(ds[d.id := d])
  {
  }

  lemma SaveDeliveryKeeps(env: Env, db: Db, issued: set<Id>, d: Delivery)
    requires Healthy(env, db, issued) && d.id in issued
    ensures Healthy(env, db.SaveDelivery(d), issued) && Grows(db, db.SaveDelivery(d))
  {
    hide MessageRefs, ThreadRefs, EmailRefs, SubmissionRefs, ReceiptRefs, InboundIndex, Pointers, Lists, Copies,
         States, MessagesGrow, SuppressionsGrow, ContactsKeyed, ThreadsKeyed, MessagesKeyed, ReceiptsKeyed,
         SuppressionsKeyed, DeliveriesKeyed, Sendable, Evolves, PointersOf;
    DeliveryFiled(db.deliveries, d);
    MessagesGrowReflexive(db.messages);
    SuppressionsGrowReflexive(db.suppressions);
  }
}
