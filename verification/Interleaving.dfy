/** Every interleaving of every workflow keeps the tables healthy. */
module Interleaving {
  import opened Domain
  import opened Tables
  import opened Threading
  import opened Attempts
  import opened Assembler
  import opened Machine
  import opened Integrity

  // ---------------------------------------------------------------- what a process may rely on

  /** A resolved thread: stored or brand new, belonging to a stored contact or to the one about to be stored. */
  ghost predicate Joinable(db: Db, issued: set<Id>, w: Work, t: Thread) {
    && t.id in issued
    && (t.contactId == w.contact.id || t.contactId in db.contacts)
    && PointersOf(t, db.messages)
  }

  ghost predicate Stored(db: Db, issued: set<Id>, t: Thread) {
    && Filable(db, issued, t) && t.id in db.threads && t.contactId in db.contacts
  }

  ghost predicate Usable(db: Db, issued: set<Id>, x: Context) {
    && Stored(db, issued, x.thread) && x.contact.id in db.contacts
  }

  /** A queued message nobody else will write until it is sent. */
  ghost predicate Holds(db: Db, m: Message) {
    && m.id in db.messages && db.messages[m.id] == m
    && m.deliveryState.Queued? && m.direction.Outbound? && m.providerMessageId == ""
  }

  ghost predicate HandleOk(db: Db, issued: set<Id>, pc: HandlePc) {
    match pc
    case SaveReceipt(r) => r.rawKey in db.raw
    case FindLink(w, _) => w.contact.id in issued
    case FindSubject(w) => w.contact.id in issued
    case FindDuplicate(w, t) => w.contact.id in issued && Joinable(db, issued, w, t)
    case UpsertContact(w, t) => w.contact.id in issued && Joinable(db, issued, w, t)
    case SaveThread(w, t) => w.contact.id in db.contacts && Filable(db, issued, t)
    case CreateInbound(w, t) => w.contact.id in db.contacts && Stored(db, issued, t)
    case TouchThread(_, t, m) => Stored(db, issued, t) && Received(db, t.id, m.id)
    case SaveDelivery(_, _, _, d) => d.id in issued
    case _ => true
  }

  ghost predicate Received(db: Db, threadId: Id, id: Id) {
    id in db.messages && db.messages[id].threadId == threadId && db.messages[id].direction.Inbound?
  }

  ghost predicate ReplyOk(db: Db, issued: set<Id>, pc: ReplyPc) {
    match pc
    case LoadContact(_, _, _, _, t) => Stored(db, issued, t)
    case LoadTarget(_, _, _, _, t, contact) => Stored(db, issued, t) && contact.id in db.contacts
    case CheckSuppression(x) => Usable(db, issued, x)
    case PutReply(x, _, _) => Usable(db, issued, x)
    case CreateReply(x, _, _) => Usable(db, issued, x)
    case SaveReplyThread(x, _, m) => Usable(db, issued, x) && Holds(db, m) && m.threadId == x.thread.id
    case Send(_, _, m) => Holds(db, m)
    case RecordSent(_, _, m, _) => Holds(db, m)
    case SaveSubmission(_, _, m, _) => m.id in db.messages
    case _ => true
  }

  /** A copy of a sent message, perhaps out of date in its delivery state by now. */
  ghost predicate CopyOf(db: Db, m: Message) {
    && m.id in db.messages && Evolves(m, db.messages[m.id]) && m.providerMessageId != "" && Sendable(m)
  }

  ghost predicate UpdateOk(db: Db, issued: set<Id>, pc: UpdatePc) {
    match pc
    case SaveStatus(_, m) => CopyOf(db, m)
    case SaveEscalated(id) => id in db.threads
    case _ => true
  }

  ghost predicate LocalOk(db: Db, issued: set<Id>, pc: Pc) {
    match pc
    case Handling(h) => HandleOk(db, issued, h)
    case Replying(r) => ReplyOk(db, issued, r)
    case Updating(u) => UpdateOk(db, issued, u)
    case Done(_) => true
  }

  /** The queued message a process is about to send, if any. */
  function Owned(pc: Pc): Option<Id> {
    match pc
    case Replying(SaveReplyThread(_, _, m)) => Some(m.id)
    case Replying(Send(_, _, m)) => Some(m.id)
    case Replying(RecordSent(_, _, m, _)) => Some(m.id)
    case _ => None
  }

  ghost predicate LocalsOk(db: Db, issued: set<Id>, procs: seq<Pc>) {
    forall i :: 0 <= i < |procs| ==> LocalOk(db, issued, procs[i])
  }

  predicate Exclusive(procs: seq<Pc>) {
    forall i, j :: 0 <= i < |procs| && 0 <= j < |procs| && i != j && Owned(procs[i]).Some? ==>
      Owned(procs[i]) != Owned(procs[j])
  }

  ghost predicate Sound(env: Env, s: State) {
    && Healthy(env, s.db, s.issued)
    && LocalsOk(s.db, s.issued, s.procs)
    && Exclusive(s.procs)
  }

  // ---------------------------------------------------------------- stability

  lemma EvolvesTransitive(a: Message, b: Message, c: Message)
    requires Evolves(a, b) && Evolves(b, c)
    ensures Evolves(a, c)
  {
  }

  lemma PointersStable(t: Thread, ms: map<Id, Message>, ms': map<Id, Message>)
    requires PointersOf(t, ms) && MessagesGrow(ms, ms')
    ensures PointersOf(t, ms')
  {
  }

  lemma FilableStable(db: Db, issued: set<Id>, db': Db, issued': set<Id>, t: Thread)
    requires Grows(db, db') && issued <= issued' && Filable(db, issued, t)
    ensures Filable(db', issued', t)
  {
    hide PointersOf, MessagesGrow, SuppressionsGrow;
    PointersStable(t, db.messages, db'.messages);
    assert db.contacts.Keys <= db'.contacts.Keys && db.threads.Keys <= db'.threads.Keys;
  }

  lemma StoredStable(db: Db, issued: set<Id>, db': Db, issued': set<Id>, t: Thread)
    requires Grows(db, db') && issued <= issued' && Stored(db, issued, t)
    ensures Stored(db', issued', t)
  {
    hide MessagesGrow, SuppressionsGrow, Filable;
    FilableStable(db, issued, db', issued', t);
    assert db.contacts.Keys <= db'.contacts.Keys && db.threads.Keys <= db'.threads.Keys;
  }

  lemma JoinableStable(db: Db, issued: set<Id>, db': Db, issued': set<Id>, w: Work, t: Thread)
    requires Grows(db, db') && issued <= issued' && Joinable(db, issued, w, t)
    ensures Joinable(db', issued', w, t)
  {
    hide PointersOf, MessagesGrow, SuppressionsGrow;
    PointersStable(t, db.messages, db'.messages);
    assert db.contacts.Keys <= db'.contacts.Keys;
  }

  lemma MessageStable(db: Db, db': Db, id: Id)
    requires Grows(db, db') && id in db.messages
    ensures id in db'.messages && Evolves(db.messages[id], db'.messages[id])
    ensures db'.messages[id].threadId == db.messages[id].threadId
    ensures db'.messages[id].direction == db.messages[id].direction
  {
    hide SuppressionsGrow;
  }

  lemma HandleStable(db: Db, issued: set<Id>, db': Db, issued': set<Id>, pc: HandlePc)
    requires HandleOk(db, issued, pc) && Grows(db, db') && issued <= issued'
    ensures HandleOk(db', issued', pc)
  {
    hide PointersOf, MessagesGrow, SuppressionsGrow, Evolves, Filable, Stored, Joinable;
    assert db.contacts.Keys <= db'.contacts.Keys && db.raw.Keys <= db'.raw.Keys;
    match pc {
      case FindDuplicate(w, t) => JoinableStable(db, issued, db', issued', w, t);
      case UpsertContact(w, t) => JoinableStable(db, issued, db', issued', w, t);
      case SaveThread(_, t) => FilableStable(db, issued, db', issued', t);
      case CreateInbound(_, t) => StoredStable(db, issued, db', issued', t);
      case TouchThread(_, t, m) =>
        StoredStable(db, issued, db', issued', t);
        MessageStable(db, db', m.id);
      case _ =>
    }
  }

  lemma HoldsStable(db: Db, db': Db, m: Message)
    requires Holds(db, m) && Grows(db, db')
    requires m.id in db'.messages ==> db'.messages[m.id] == db.messages[m.id]
    ensures Holds(db', m)
  {
    hide Grows, Evolves;
    MessageStable(db, db', m.id);
  }

  lemma UsableStable(db: Db, issued: set<Id>, db': Db, issued': set<Id>, x: Context)
    requires Usable(db, issued, x) && Grows(db, db') && issued <= issued'
    ensures Usable(db', issued', x)
  {
    hide MessagesGrow, SuppressionsGrow, Stored;
    StoredStable(db, issued, db', issued', x.thread);
    assert db.contacts.Keys <= db'.contacts.Keys;
  }

  /** A step of somebody else leaves the owned message alone. */
  ghost predicate Unwritten(db: Db, db': Db, owned: Option<Id>) {
    owned.Some? && owned.value in db.messages && owned.value in db'.messages ==>
      db'.messages[owned.value] == db.messages[owned.value]
  }

  lemma ReplyStable(db: Db, issued: set<Id>, db': Db, issued': set<Id>, pc: ReplyPc)
    requires ReplyOk(db, issued, pc) && Grows(db, db') && issued <= issued'
    requires Unwritten(db, db', Owned(Replying(pc)))
    ensures ReplyOk(db', issued', pc)
  {
    hide MessagesGrow, SuppressionsGrow, Stored, Usable;
    assert db.contacts.Keys <= db'.contacts.Keys;
    match pc {
      case LoadContact(_, _, _, _, t) => StoredStable(db, issued, db', issued', t);
      case LoadTarget(_, _, _, _, t, _) => StoredStable(db, issued, db', issued', t);
      case CheckSuppression(x) => UsableStable(db, issued, db', issued', x);
      case PutReply(x, _, _) => UsableStable(db, issued, db', issued', x);
      case CreateReply(x, _, _) => UsableStable(db, issued, db', issued', x);
      case SaveReplyThread(x, _, m) =>
        UsableStable(db, issued, db', issued', x);
        HoldsStable(db, db', m);
      case Send(_, _, m) => HoldsStable(db, db', m);
      case RecordSent(_, _, m, _) => HoldsStable(db, db', m);
      case SaveSubmission(_, _, m, _) => MessageStable(db, db', m.id);
      case _ =>
    }
  }

  lemma UpdateStable(db: Db, issued: set<Id>, db': Db, issued': set<Id>, pc: UpdatePc)
    requires UpdateOk(db, issued, pc) && Grows(db, db') && issued <= issued'
    ensures UpdateOk(db', issued', pc)
  {
    hide MessagesGrow, SuppressionsGrow, Evolves;
    assert db.threads.Keys <= db'.threads.Keys;
    if pc.SaveStatus? {
      MessageStable(db, db', pc.found.id);
      EvolvesTransitive(pc.found, db.messages[pc.found.id], db'.messages[pc.found.id]);
    }
  }

  /** What a process relies on survives every step of the others. */
  lemma LocalStable(db: Db, issued: set<Id>, db': Db, issued': set<Id>, pc: Pc)
    requires LocalOk(db, issued, pc) && Grows(db, db') && issued <= issued'
    requires Unwritten(db, db', Owned(pc))
    ensures LocalOk(db', issued', pc)
  {
    hide Grows, HandleOk, ReplyOk, UpdateOk;
    match pc {
      case Handling(h) => HandleStable(db, issued, db', issued', h);
      case Replying(r) => ReplyStable(db, issued, db', issued', r);
      case Updating(u) => UpdateStable(db, issued, db', issued', u);
      case Done(_) =>
    }
  }

  // ---------------------------------------------------------------- reading

  lemma StoredThread(env: Env, db: Db, issued: set<Id>, id: Id)
    requires Healthy(env, db, issued) && id in db.threads
    ensures Stored(db, issued, db.threads[id]) && db.threads[id].id == id
  {
    hide MessageRefs, EmailRefs, SubmissionRefs, ReceiptRefs, InboundIndex, Lists, Copies, States, PointersOf;
    assert id in db.threads.Keys;
  }

  lemma ScannedThread(env: Env, db: Db, issued: set<Id>, header: string, found: Option<Thread>)
    requires Healthy(env, db, issued) && db.FoundByHeader(header, found) && found.Some?
    ensures Stored(db, issued, found.value)
  {
    hide Healthy, Stored;
    var id :| id in db.messages && db.messages[id].messageIdHeader == header && found == db.ThreadOf(db.messages[id]);
    StoredThread(env, db, issued, db.messages[id].threadId);
  }

  lemma MatchedThread(env: Env, db: Db, issued: set<Id>, input: ThreadInput, found: Option<Thread>)
    requires Healthy(env, db, issued) && RecentMatch(db, input, found) && found.Some?
    ensures Stored(db, issued, found.value)
  {
    hide Healthy, Stored;
    var id :| id in db.threads && db.threads[id] == found.value;
    StoredThread(env, db, issued, id);
  }

  lemma ContactKnown(env: Env, db: Db, issued: set<Id>, r: Receipt, parsed: ParsedMessage, freshId: Id)
    requires Healthy(env, db, issued)
    ensures var c := ResolvedContact(db, r, parsed, freshId);
            c.id in issued || c.id == freshId
  {
    hide MessageRefs, ThreadRefs, SubmissionRefs, ReceiptRefs, InboundIndex, Lists, Copies, States, Pointers;
    if parsed.from.email in db.contactsByEmail {
      assert db.contactsByEmail[parsed.from.email].id in db.contacts.Keys;
    }
  }

  lemma ContactStored(env: Env, db: Db, issued: set<Id>, id: Id)
    requires Healthy(env, db, issued) && id in db.contacts
    ensures db.contacts[id].id == id
  {
    hide References, InboundIndex, Lists, Copies, States, Pointers, Issued;
  }

  lemma MessageStored(env: Env, db: Db, issued: set<Id>, id: Id)
    requires Healthy(env, db, issued) && id in db.messages
    ensures db.messages[id].id == id && Sendable(db.messages[id])
    ensures db.messages[id].threadId in db.threads && db.messages[id].contactId in db.contacts
  {
    hide ThreadRefs, EmailRefs, SubmissionRefs, ReceiptRefs, InboundIndex, Lists, Copies, Pointers, Issued;
  }

  lemma ProviderCopyStored(env: Env, db: Db, issued: set<Id>, p: string)
    requires Healthy(env, db, issued) && p in db.byProvider
    ensures CopyOf(db, db.byProvider[p]) && db.byProvider[p].providerMessageId == p
  {
    hide References, InboundIndex, Lists, Pointers, Issued;
  }

  lemma StoredIsJoinable(db: Db, issued: set<Id>, issued': set<Id>, w: Work, t: Thread)
    requires Stored(db, issued, t) && issued <= issued'
    ensures Joinable(db, issued', w, t)
  {
  }

  lemma FreshThreadHasPointers(input: ThreadInput, id: Id, ms: map<Id, Message>)
    ensures PointersOf(FreshThread(input, id), ms)
  {
  }

  // ---------------------------------------------------------------- one step

  /** The step of one process, run to a healthy state, with the others' ground intact. */
  ghost predicate Kept(env: Env, db: Db, issued: set<Id>, pc: Pc, c: Choice) {
    var moved, issued' := Next(env, db, pc, c), IssuedAfter(issued, pc, c);
    && Healthy(env, moved.db, issued')
    && Grows(db, moved.db)
    && LocalOk(moved.db, issued', moved.pc)
  }

  predicate HandleReads(pc: HandlePc) {
    !(pc.PutRaw? || pc.SaveReceipt? || pc.UpsertContact? || pc.SaveThread? || pc.CreateInbound? || pc.TouchThread?
      || pc.SaveDelivery?)
  }

  lemma HandleReadKeeps(env: Env, db: Db, issued: set<Id>, pc: HandlePc, c: Choice)
    requires Healthy(env, db, issued) && HandleOk(db, issued, pc) && HandleReads(pc)
    requires Possible(db, Handling(pc), c) && FreshFor(issued, Handling(pc), c)
    ensures NextHandling(env, db, pc, c).db == db
    ensures LocalOk(db, IssuedAfter(issued, Handling(pc), c), NextHandling(env, db, pc, c).pc)
  {
    hide Healthy, Stored, PointersOf, ResolvedContact;
    match pc {
      case FindContact(r, parsed) => ContactKnown(env, db, issued, r, parsed, c.id);
      case FindLink(w, k) =>
        if k < |LinkIds(w.parsed)| && c.found.Some? {
          ScannedThread(env, db, issued, LinkIds(w.parsed)[k], c.found);
          StoredIsJoinable(db, issued, issued, w, c.found.value);
        }
      case FindSubject(w) =>
        if w.parsed.subjectNormalized != "" && c.found.Some? {
          MatchedThread(env, db, issued, ThreadInputOf(w), c.found);
          StoredIsJoinable(db, issued, issued + {c.id}, w, c.found.value);
        }
        FreshThreadHasPointers(ThreadInputOf(w), c.id, db.messages);
      case _ =>
    }
  }

  lemma UpsertMakesFilable(env: Env, db: Db, issued: set<Id>, w: Work, t: Thread)
    requires Joinable(db, issued, w, t)
    ensures Filable(db.UpsertContact(w.contact), issued, t)
  {
  }

  lemma TouchedFilable(db: Db, issued: set<Id>, t: Thread, id: Id, at: Time)
    requires Stored(db, issued, t) && Received(db, t.id, id)
    ensures Filable(db, issued, Touched(t, id, at))
  {
  }

  lemma HandleWriteKeeps(env: Env, db: Db, issued: set<Id>, pc: HandlePc, c: Choice)
    requires Healthy(env, db, issued) && HandleOk(db, issued, pc) && !HandleReads(pc)
    requires FreshFor(issued, Handling(pc), c)
    ensures Kept(env, db, issued, Handling(pc), c)
  {
    hide Healthy, Grows, Filable, PointersOf, Joinable, Sendable, Db.Merged;
    match pc {
      case PutRaw(r, data) => PutRawKeeps(env, db, issued, r.rawKey, data);
      case SaveReceipt(r) => SaveReceiptKeeps(env, db, issued, r);
      case UpsertContact(w, t) =>
        UpsertKeeps(env, db, issued, w.contact);
        UpsertMakesFilable(env, db, issued, w, t);
      case SaveThread(w, t) => SaveThreadKeeps(env, db, issued, t);
      case CreateInbound(w, t) => CreateInboundKeeps(env, db, issued, w, t, c);
      case TouchThread(w, t, m) =>
        TouchedFilable(db, issued, t, m.id, w.receipt.receivedAt);
        SaveThreadKeeps(env, db, issued, Touched(t, m.id, w.receipt.receivedAt));
      case SaveDelivery(_, _, _, d) => SaveDeliveryKeeps(env, db, issued, d);
      case _ =>
    }
  }

  lemma CreateInboundKeeps(env: Env, db: Db, issued: set<Id>, w: Work, t: Thread, c: Choice)
    requires Healthy(env, db, issued) && HandleOk(db, issued, CreateInbound(w, t))
    requires c.id != "" && c.id !in issued
    ensures Kept(env, db, issued, Handling(CreateInbound(w, t)), c)
  {
    hide Healthy, Stored;
    var m := InboundMessage(w, t, c.id);
    assert t.id in db.threads by {
      StoredIn(db, issued, t);
    }
    CreateKeeps(env, db, issued, m);
    StoredStable(db, issued, db.CreateMessage(env.digest, m), issued + {c.id}, t);
  }

  lemma StoredIn(db: Db, issued: set<Id>, t: Thread)
    requires Stored(db, issued, t)
    ensures t.id in db.threads && t.contactId in db.contacts && t.id in issued
  {
  }

  lemma ReplyReadKeeps(env: Env, db: Db, issued: set<Id>, pc: ReplyPc, c: Choice)
    requires Healthy(env, db, issued) && ReplyOk(db, issued, pc)
    requires !(pc.PutReply? || pc.CreateReply? || pc.SaveReplyThread? || pc.RecordSent? || pc.SaveSubmission?)
    ensures NextReplying(env, db, pc, c).db == db
    ensures LocalOk(db, issued, NextReplying(env, db, pc, c).pc)
  {
    hide Healthy, Stored, Holds, AssembleReply;
    match pc {
      case LoadThread(input, o, a, i) =>
        if input.threadId in db.threads {
          StoredThread(env, db, issued, input.threadId);
        }
      case LoadContact(input, o, a, i, t) =>
        if OrDefault(input.contactId, t.contactId) in db.contacts {
          ContactStored(env, db, issued, OrDefault(input.contactId, t.contactId));
        }
      case _ =>
    }
  }

  lemma ReplyWriteKeeps(env: Env, db: Db, issued: set<Id>, pc: ReplyPc, c: Choice)
    requires Healthy(env, db, issued) && ReplyOk(db, issued, pc)
    requires pc.PutReply? || pc.CreateReply? || pc.SaveReplyThread? || pc.RecordSent? || pc.SaveSubmission?
    requires FreshFor(issued, Replying(pc), c)
    ensures Kept(env, db, issued, Replying(pc), c)
  {
    hide Healthy, Grows, Stored, Db.Merged;
    match pc {
      case PutReply(x, reply, _) =>
        PutRawKeeps(env, db, issued, x.input.objectKey, reply.rawMime);
        UsableStable(db, issued, db.PutRaw(x.input.objectKey, reply.rawMime), issued, x);
      case CreateReply(x, reply, at) => CreateReplyKeeps(env, db, issued, x, reply, at, c);
      case SaveReplyThread(x, _, m) =>
        RepliedFilable(db, issued, x.thread, m);
        SaveThreadKeeps(env, db, issued, RepliedThread(x.thread, m.id, m.createdAt));
        HoldsStable(db, db.SaveThread(RepliedThread(x.thread, m.id, m.createdAt)), m);
      case RecordSent(_, _, m, r) =>
        MessageStored(env, db, issued, m.id);
        SaveMessageKeeps(env, db, issued, SentMessage(m, r));
      case SaveSubmission(x, _, m, _) => SaveSubmissionKeeps(env, db, issued, ReplyKey(env, x.input), m.id);
      case _ =>
    }
  }

  lemma RepliedFilable(db: Db, issued: set<Id>, t: Thread, m: Message)
    requires Stored(db, issued, t) && Holds(db, m) && m.threadId == t.id
    ensures Filable(db, issued, RepliedThread(t, m.id, m.createdAt))
  {
  }

  lemma CreateReplyKeeps(env: Env, db: Db, issued: set<Id>, x: Context, reply: Reply, at: Time, c: Choice)
    requires Healthy(env, db, issued) && Usable(db, issued, x)
    requires c.id != "" && c.id !in issued
    ensures Kept(env, db, issued, Replying(CreateReply(x, reply, at)), c)
  {
    hide Healthy, Stored, Grows;
    var m := OutboundMessage(x, reply, at, c.id);
    StoredIn(db, issued, x.thread);
    CreateKeeps(env, db, issued, m);
    UsableStable(db, issued, db.CreateMessage(env.digest, m), issued + {c.id}, x);
  }

  lemma ConfirmedWritable(db: Db, m: Message, status: CallbackStatus, at: Time)
    requires CopyOf(db, m) && Sendable(db.messages[m.id])
    ensures Writable(db.messages, ConfirmedMessage(m, status, at))
  {
  }

  lemma UpdateKeeps(env: Env, db: Db, issued: set<Id>, pc: UpdatePc, c: Choice)
    requires Healthy(env, db, issued) && UpdateOk(db, issued, pc)
    requires FreshFor(issued, Updating(pc), c)
    ensures Kept(env, db, issued, Updating(pc), c)
  {
    hide Healthy, Grows, Evolves, Sendable, Writable, Db.Merged;
    match pc {
      case FindProviderMessage(cb) =>
        if cb.providerMessageId in db.byProvider {
          ProviderCopyStored(env, db, issued, cb.providerMessageId);
        }
        NothingGrows(db);
      case SaveStatus(cb, m) =>
        MessageStored(env, db, issued, m.id);
        ConfirmedWritable(db, m, cb.status, cb.occurredAt);
        SaveMessageKeeps(env, db, issued, ConfirmedMessage(m, cb.status, cb.occurredAt));
      case SaveSuppression(cb, m) => SaveSuppressionKeeps(env, db, issued, SuppressionOf(cb, m, c.id));
      case LoadEscalated(id) => NothingGrows(db);
      case SaveEscalated(id) =>
        StoredThread(env, db, issued, id);
        StoredIn(db, issued, db.threads[id]);
        SaveThreadKeeps(env, db, issued, SparseThread(id, c.now));
    }
  }

  // ---------------------------------------------------------------- which steps write what

  predicate WritesMessage(pc: Pc) {
    match pc
    case Handling(h) => h.CreateInbound?
    case Replying(r) => r.CreateReply? || r.RecordSent?
    case Updating(u) => u.SaveStatus?
    case Done(_) => false
  }

  ghost predicate SameMessages(db: Db, db': Db) {
    && db'.messages == db.messages && db'.byProvider == db.byProvider
    && db'.inboundKeys == db.inboundKeys && db'.threadLists == db.threadLists
  }

  ghost predicate SameContacts(db: Db, db': Db) {
    db'.contacts == db.contacts && db'.contactsByEmail == db.contactsByEmail
  }

  lemma HandlingFramed(env: Env, db: Db, pc: HandlePc, c: Choice)
    ensures var db' := NextHandling(env, db, pc, c).db;
            && db'.suppressions == db.suppressions && db'.submissions == db.submissions
            && (!pc.CreateInbound? ==> SameMessages(db, db'))
            && (!pc.UpsertContact? ==> SameContacts(db, db'))
  {
    hide Db.Merged, Db.FindInboundByHeader, ResolvedContact, BySubject, InboundMessage, Touched, Recorded, LinkIds;
    if HandleReads(pc) {
      HandleReadsOnly(env, db, pc, c);
    } else {
      match pc {
        case PutRaw(_, _) =>
        case SaveReceipt(_) =>
        case UpsertContact(_, _) =>
        case SaveThread(_, _) =>
        case CreateInbound(_, _) =>
        case TouchThread(_, _, _) =>
        case SaveDelivery(_, _, _, _) =>
      }
    }
  }

  lemma HandleReadsOnly(env: Env, db: Db, pc: HandlePc, c: Choice)
    requires HandleReads(pc)
    ensures NextHandling(env, db, pc, c).db == db
  {
    hide Db.FindInboundByHeader, ResolvedContact, BySubject, Recorded, LinkIds;
  }

  lemma ReplyingFramed(env: Env, db: Db, pc: ReplyPc, c: Choice)
    ensures var db' := NextReplying(env, db, pc, c).db;
            && db'.suppressions == db.suppressions && SameContacts(db, db')
            && (!pc.SaveSubmission? ==> db'.submissions == db.submissions)
            && (!pc.CreateReply? && !pc.RecordSent? ==> SameMessages(db, db'))
  {
    hide AssembleReply, AfterCheck, AfterSubmissionLookup, ReplyKey, OutboundMessage, SentMessage, RepliedThread,
         Db.Merged, Db.Suppressed, Db.FindReplyBySubmissionKey;
    match pc {
      case PutReply(_, _, _) =>
      case CreateReply(_, _, _) =>
      case SaveReplyThread(_, _, _) =>
      case RecordSent(_, _, _, _) =>
      case SaveSubmission(_, _, _, _) =>
      case _ => assert NextReplying(env, db, pc, c).db == db;
    }
  }

  lemma UpdatingFramed(env: Env, db: Db, pc: UpdatePc, c: Choice)
    ensures var db' := NextUpdating(env, db, pc, c).db;
            && db'.submissions == db.submissions && SameContacts(db, db')
            && (!pc.SaveSuppression? ==> db'.suppressions == db.suppressions)
            && (!pc.SaveStatus? ==> SameMessages(db, db'))
  {
  }

  /** Only four steps touch the messages or an index of them, and one each the other shared tables. */
  lemma StepFramed(env: Env, db: Db, pc: Pc, c: Choice)
    ensures var db' := Next(env, db, pc, c).db;
            && (!WritesMessage(pc) ==> SameMessages(db, db'))
            && (!(pc.Updating? && pc.update.SaveSuppression?) ==> db'.suppressions == db.suppressions)
            && (!(pc.Replying? && pc.reply.SaveSubmission?) ==> db'.submissions == db.submissions)
            && (!(pc.Handling? && pc.handle.UpsertContact?) ==> SameContacts(db, db'))
  {
    hide NextHandling, NextReplying, NextUpdating;
    match pc {
      case Handling(h) => HandlingFramed(env, db, h, c);
      case Replying(r) => ReplyingFramed(env, db, r, c);
      case Updating(u) => UpdatingFramed(env, db, u, c);
      case Done(_) =>
    }
  }

  /** The id a message-writing step writes under. */
  function WrittenId(pc: Pc, c: Choice): Id
    requires WritesMessage(pc)
  {
    match pc
    case Replying(RecordSent(_, _, m, _)) => m.id
    case Updating(SaveStatus(_, m)) => m.id
    case _ => c.id
  }

  ghost predicate OnlyWrites(db: Db, db': Db, id: Id) {
    forall other :: other in db.messages && other != id ==>
      other in db'.messages && db'.messages[other] == db.messages[other]
  }

  lemma WritesOnlyThere(env: Env, db: Db, pc: Pc, c: Choice)
    requires WritesMessage(pc)
    ensures OnlyWrites(db, Next(env, db, pc, c).db, WrittenId(pc, c))
  {
    hide NextHandling, NextReplying, NextUpdating;
    match pc {
      case Handling(h) => HandlingWritesThere(env, db, h, c);
      case Replying(r) => ReplyingWritesThere(env, db, r, c);
      case Updating(u) => UpdatingWritesThere(env, db, u, c);
    }
  }

  lemma HandlingWritesThere(env: Env, db: Db, pc: HandlePc, c: Choice)
    requires pc.CreateInbound?
    ensures OnlyWrites(db, NextHandling(env, db, pc, c).db, c.id)
  {
  }

  lemma ReplyingWritesThere(env: Env, db: Db, pc: ReplyPc, c: Choice)
    requires pc.CreateReply? || pc.RecordSent?
    ensures OnlyWrites(db, NextReplying(env, db, pc, c).db, if pc.CreateReply? then c.id else pc.queued.id)
  {
  }

  lemma UpdatingWritesThere(env: Env, db: Db, pc: UpdatePc, c: Choice)
    requires pc.SaveStatus?
    ensures OnlyWrites(db, NextUpdating(env, db, pc, c).db, pc.found.id)
  {
  }

  lemma HandlingKeptKind(env: Env, db: Db, pc: HandlePc, c: Choice)
    ensures NextHandling(env, db, pc, c).pc.Handling? || NextHandling(env, db, pc, c).pc.Done?
  {
  }

  lemma ReplyingKeptKind(env: Env, db: Db, pc: ReplyPc, c: Choice)
    ensures NextReplying(env, db, pc, c).pc.Replying? || NextReplying(env, db, pc, c).pc.Done?
  {
    hide AssembleReply;
  }

  lemma UpdatingKeptKind(env: Env, db: Db, pc: UpdatePc, c: Choice)
    ensures NextUpdating(env, db, pc, c).pc.Updating? || NextUpdating(env, db, pc, c).pc.Done?
  {
  }

  /** A process stays in its own workflow until it is done. */
  lemma KindsKept(env: Env, db: Db, pc: Pc, c: Choice)
    ensures var next := Next(env, db, pc, c).pc;
            || next.Done?
            || (pc.Handling? && next.Handling?) || (pc.Replying? && next.Replying?) || (pc.Updating? && next.Updating?)
  {
    hide NextHandling, NextReplying, NextUpdating;
    match pc {
      case Handling(h) => HandlingKeptKind(env, db, h, c);
      case Replying(r) => ReplyingKeptKind(env, db, r, c);
      case Updating(u) => UpdatingKeptKind(env, db, u, c);
      case Done(_) =>
    }
  }

  lemma NothingGrows(db: Db)
    ensures Grows(db, db)
  {
    hide MessagesGrow, SuppressionsGrow;
    MessagesGrowReflexive(db.messages);
    SuppressionsGrowReflexive(db.suppressions);
  }

  /** Every step of every workflow keeps the tables healthy and only adds to them. */
  lemma StepKeeps(env: Env, db: Db, issued: set<Id>, pc: Pc, c: Choice)
    requires Healthy(env, db, issued) && LocalOk(db, issued, pc)
    requires Possible(db, pc, c) && FreshFor(issued, pc, c)
    ensures Kept(env, db, issued, pc, c)
  {
    hide Healthy, Grows, HandleOk, ReplyOk, UpdateOk, NextHandling, NextReplying, NextUpdating, Possible;
    NothingGrows(db);
    if Generates(pc) {
      IssueKeeps(env, db, issued, c.id);
    }
    match pc {
      case Handling(h) =>
        if HandleReads(h) {
          HandleReadKeeps(env, db, issued, h, c);
        } else {
          HandleWriteKeeps(env, db, issued, h, c);
        }
      case Replying(r) =>
        if r.PutReply? || r.CreateReply? || r.SaveReplyThread? || r.RecordSent? || r.SaveSubmission? {
          ReplyWriteKeeps(env, db, issued, r, c);
        } else {
          ReplyReadKeeps(env, db, issued, r, c);
        }
      case Updating(u) => UpdateKeeps(env, db, issued, u, c);
      case Done(_) =>
    }
  }
}
