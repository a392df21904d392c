/** Sequential runs: a message that answers a stored message joins its thread. */
module Conversations {
  import opened Domain
  import opened Tables
  import opened Threading
  import opened Assembler
  import opened Machine
  import opened Integrity
  import opened Interleaving
  import opened Runs
  import opened Deduplication

  // ---------------------------------------------------------------- hypotheses

  /**
   Message-IDs are globally unique: mail read under an id that is already stored is the stored message, back
   for the same inbox. Replies name a target of the thread they reply to.
   */
  ghost predicate WellAddressed(env: Env, r: Run) {
    forall i :: 0 <= i < |r.labels| && i < |r.states| && r.labels[i].Act? && r.labels[i].pid < |r.states[i].procs| ==>
      Addressed(env, r.states[i].db, r.states[i].procs[r.labels[i].pid])
  }

  ghost predicate Addressed(env: Env, db: Db, pc: Pc) {
    match pc
    case Handling(ReadRaw(r)) =>
      r.rawKey in db.raw && env.parse(db.raw[r.rawKey]).Some? ==>
        SameInbox(db.messages, r.inboxId, env.parse(db.raw[r.rawKey]).value.messageIdHeader)
    case Replying(LoadTarget(input, _, _, _, t, _)) =>
      input.targetId in db.messages ==> db.messages[input.targetId].threadId == t.id
    case _ => true
  }

  ghost predicate SameInbox(ms: map<Id, Message>, inboxId: Id, header: string) {
    header != "" ==> forall id :: id in ms && ms[id].messageIdHeader == header ==> ms[id].inboxId == inboxId != ""
  }

  // ---------------------------------------------------------------- the invariant

  predicate Twins(m: Message, n: Message) {
    m.messageIdHeader != "" && m.messageIdHeader == n.messageIdHeader
  }

  ghost predicate GloballyUnique(ms: map<Id, Message>) {
    forall a, b :: a in ms && b in ms && Twins(ms[a], ms[b]) ==> a == b
  }

  /** Every message bearing this id is in the thread; of an empty id nothing is claimed. */
  ghost predicate AllIn(ms: map<Id, Message>, header: string, threadId: Id) {
    header != "" ==> forall id :: id in ms && ms[id].messageIdHeader == header ==> ms[id].threadId == threadId
  }

  ghost predicate NoneBears(ms: map<Id, Message>, header: string) {
    header != "" ==> Unused(ms, header)
  }

  /** created lists the messages in order, and each one that answers an earlier one is in its thread. */
  ghost predicate Connected(ms: map<Id, Message>, created: seq<Id>) {
    && (forall i :: 0 <= i < |created| ==> created[i] in ms)
    && (forall id :: id in ms ==> id in created)
    && (forall i, j :: 0 <= i < j < |created| && Answers(ms[created[j]], ms[created[i]]) ==>
          ms[created[j]].threadId == ms[created[i]].threadId)
  }

  predicate Answers(m: Message, p: Message) {
    m.inReplyTo != "" && m.inReplyTo == p.messageIdHeader
  }

  ghost predicate JoinsHandle(db: Db, pc: HandlePc) {
    match pc
    case FindContact(r, parsed) => SameInbox(db.messages, r.inboxId, parsed.messageIdHeader)
    case FindLink(w, k) =>
      && SameInbox(db.messages, w.receipt.inboxId, w.parsed.messageIdHeader)
      && (k > 0 ==> NoneBears(db.messages, w.parsed.inReplyTo))
    case FindSubject(w) =>
      && SameInbox(db.messages, w.receipt.inboxId, w.parsed.messageIdHeader)
      && NoneBears(db.messages, w.parsed.inReplyTo)
    case FindDuplicate(w, t) =>
      && SameInbox(db.messages, w.receipt.inboxId, w.parsed.messageIdHeader)
      && AllIn(db.messages, w.parsed.inReplyTo, t.id)
    case UpsertContact(w, t) => Joins(db, w, t)
    case SaveThread(w, t) => Joins(db, w, t)
    case CreateInbound(w, t) => Joins(db, w, t)
    case _ => true
  }

  ghost predicate Joins(db: Db, w: Work, t: Thread) {
    AllIn(db.messages, w.parsed.inReplyTo, t.id) && NoneBears(db.messages, w.parsed.messageIdHeader)
  }

  ghost predicate InThread(db: Db, x: Context) {
    AllIn(db.messages, x.target.messageIdHeader, x.thread.id)
  }

  ghost predicate JoinsReply(db: Db, pc: ReplyPc) {
    match pc
    case CheckSuppression(x) => InThread(db, x)
    case PutReply(x, reply, _) => InThread(db, x) && Composed(db, x, reply)
    case CreateReply(x, reply, _) => InThread(db, x) && Composed(db, x, reply)
    case _ => true
  }

  ghost predicate Composed(db: Db, x: Context, reply: Reply) {
    && Unused(db.messages, reply.metadata.messageIdHeader)
    && reply.metadata.inReplyTo == x.target.messageIdHeader
  }

  ghost predicate Conversing(db: Db, created: seq<Id>, pc: Pc) {
    && GloballyUnique(db.messages)
    && Connected(db.messages, created)
    && (pc.Handling? ==> JoinsHandle(db, pc.handle))
    && (pc.Replying? ==> JoinsReply(db, pc.reply))
  }

  // ---------------------------------------------------------------- the steps

  /** A new message that goes where its parent is, under an unused id, keeps conversations connected. */
  lemma NewKeepsConnected(ms: map<Id, Message>, created: seq<Id>, m: Message)
    requires GloballyUnique(ms) && Connected(ms, created) && m.id !in ms
    requires AllIn(ms, m.inReplyTo, m.threadId) && NoneBears(ms, m.messageIdHeader)
    ensures GloballyUnique(ms[m.id := m]) && Connected(ms[m.id := m], created + [m.id])
  {
    var ms', created' := ms[m.id := m], created + [m.id];
    forall i, j | 0 <= i < j < |created'| && Answers(ms'[created'[j]], ms'[created'[i]])
      ensures ms'[created'[j]].threadId == ms'[created'[i]].threadId
    {
      assert created[i] == created'[i];
      if j < |created| {
        assert created[j] == created'[j];
      }
    }
    assert m.id == created'[|created|];
    forall id | id in ms ensures id in created' {
      var i :| 0 <= i < |created| && created[i] == id;
      assert created'[i] == id;
    }
  }

  /** Rewriting a message with its linkage unchanged changes no conversation. */
  lemma RewriteKeepsConnected(ms: map<Id, Message>, created: seq<Id>, m: Message)
    requires GloballyUnique(ms) && Connected(ms, created) && m.id in ms
    requires ms[m.id].messageIdHeader == m.messageIdHeader && ms[m.id].inReplyTo == m.inReplyTo
    requires ms[m.id].threadId == m.threadId
    ensures GloballyUnique(ms[m.id := m]) && Connected(ms[m.id := m], created)
  {
  }

  /** The first link id found known is In-Reply-To itself, and its only bearer's thread is the one joined. */
  lemma FoundParent(env: Env, db: Db, issued: set<Id>, header: string, found: Option<Thread>)
    requires Healthy(env, db, issued) && GloballyUnique(db.messages)
    requires db.FoundByHeader(header, found) && found.Some? && header != ""
    ensures AllIn(db.messages, header, found.value.id)
  {
    hide Healthy;
    var id :| id in db.messages && db.messages[id].messageIdHeader == header && found == db.ThreadOf(db.messages[id]);
    StoredThread(env, db, issued, db.messages[id].threadId);
  }

  lemma MissedParent(env: Env, db: Db, issued: set<Id>, header: string)
    requires Healthy(env, db, issued) && db.FoundByHeader(header, None)
    ensures Unused(db.messages, header)
  {
    hide Healthy;
    forall id | id in db.messages ensures db.messages[id].threadId in db.threads {
      MessageStored(env, db, issued, id);
    }
  }

  lemma NoneIsAllIn(ms: map<Id, Message>, header: string, threadId: Id)
    requires NoneBears(ms, header)
    ensures AllIn(ms, header, threadId)
  {
  }

  /** Unknown in its own inbox, and in no other by uniqueness: the id is new. */
  lemma NotFoundIsNew(env: Env, db: Db, issued: set<Id>, w: Work)
    requires Healthy(env, db, issued) && SameInbox(db.messages, w.receipt.inboxId, w.parsed.messageIdHeader)
    requires w.parsed.messageIdHeader == ""
          || db.FindInboundByHeader(env.digest, w.receipt.inboxId, w.parsed.messageIdHeader).None?
    ensures NoneBears(db.messages, w.parsed.messageIdHeader)
  {
    hide Healthy, InboundIndex, MessageRefs, Db.FindInboundByHeader;
    HealthyParts(env, db, issued);
    if w.parsed.messageIdHeader != "" {
      NotFoundMeansNone(env, db, w.receipt.inboxId, w.parsed.messageIdHeader);
    }
  }

  lemma LinkFollowed(env: Env, db: Db, issued: set<Id>, w: Work, k: nat, c: Choice)
    requires Healthy(env, db, issued) && GloballyUnique(db.messages)
    requires JoinsHandle(db, FindLink(w, k)) && Possible(db, Handling(FindLink(w, k)), c)
    ensures var next := NextHandling(env, db, FindLink(w, k), c).pc;
            next.Handling? && JoinsHandle(db, next.handle)
  {
    hide Healthy, GloballyUnique, AllIn, SameInbox, Db.FoundByHeader;
    var ids, parent := LinkIds(w.parsed), w.parsed.inReplyTo;
    if parent != "" && k == 0 {
      assert ids[0] == parent;
      if c.found.Some? {
        FoundParent(env, db, issued, parent, c.found);
      } else {
        MissedParent(env, db, issued, parent);
      }
    } else if c.found.Some? {
      NoneIsAllIn(db.messages, parent, c.found.value.id);
    }
  }

  lemma SubjectFollowed(env: Env, db: Db, w: Work, c: Choice)
    requires JoinsHandle(db, FindSubject(w))
    ensures var next := NextHandling(env, db, FindSubject(w), c);
            next.db == db && next.pc.Handling? && JoinsHandle(db, next.pc.handle)
  {
    hide AllIn, NoneBears, SameInbox, BySubject;
    NoneIsAllIn(db.messages, w.parsed.inReplyTo,
                BySubject(env.threshold, ThreadInputOf(w), c.id,
                          if w.parsed.subjectNormalized == "" then None else c.found).thread.id);
  }

  lemma DuplicateChecked(env: Env, db: Db, issued: set<Id>, w: Work, t: Thread, c: Choice)
    requires Healthy(env, db, issued) && JoinsHandle(db, FindDuplicate(w, t))
    ensures var next := NextHandling(env, db, FindDuplicate(w, t), c);
            next.db == db && next.pc.Handling? && JoinsHandle(db, next.pc.handle)
  {
    hide Healthy, AllIn, NoneBears, SameInbox, Db.FindInboundByHeader;
    if NextHandling(env, db, FindDuplicate(w, t), c).pc == Handling(UpsertContact(w, t)) {
      NotFoundIsNew(env, db, issued, w);
    }
  }

  lemma CreatingKeepsConversing(env: Env, db: Db, issued: set<Id>, created: seq<Id>, w: Work, t: Thread, c: Choice)
    requires Healthy(env, db, issued) && FreshFor(issued, Handling(CreateInbound(w, t)), c)
    requires Conversing(db, created, Handling(CreateInbound(w, t)))
    ensures var next := NextHandling(env, db, CreateInbound(w, t), c);
            Conversing(next.db, created + [c.id], next.pc)
  {
    hide Healthy, GloballyUnique, Connected, AllIn, NoneBears, MessageRefs, InboundIndex, ContactsKeyed, MessagesKeyed,
         ThreadsKeyed;
    HealthyParts(env, db, issued);
    assert c.id !in db.messages.Keys;
    NewKeepsConnected(db.messages, created, InboundMessage(w, t, c.id));
  }

  predicate Looks(pc: HandlePc) {
    pc.FindContact? || pc.FindLink? || pc.FindSubject? || pc.FindDuplicate?
  }

  lemma LookingKeepsConversing(env: Env, db: Db, issued: set<Id>, created: seq<Id>, pc: HandlePc, c: Choice)
    requires Healthy(env, db, issued) && Possible(db, Handling(pc), c) && Looks(pc)
    requires Conversing(db, created, Handling(pc))
    ensures Conversing(NextHandling(env, db, pc, c).db, created, NextHandling(env, db, pc, c).pc)
  {
    hide Healthy, GloballyUnique, Connected, AllIn, NoneBears, SameInbox, ResolvedContact, Db.FindInboundByHeader,
         BySubject;
    match pc {
      case FindContact(_, _) => NoParentYet(db.messages);
      case FindLink(w, k) => LinkFollowed(env, db, issued, w, k, c);
      case FindSubject(w) => SubjectFollowed(env, db, w, c);
      case FindDuplicate(w, t) => DuplicateChecked(env, db, issued, w, t, c);
    }
  }

  lemma OtherwiseKeepsConversing(env: Env, db: Db, created: seq<Id>, pc: HandlePc, c: Choice)
    requires !Looks(pc) && !pc.CreateInbound?
    requires Conversing(db, created, Handling(pc)) && Addressed(env, db, Handling(pc))
    ensures Conversing(NextHandling(env, db, pc, c).db, created, NextHandling(env, db, pc, c).pc)
  {
    hide GloballyUnique, Connected, AllIn, NoneBears, SameInbox, Db.PutRaw, Db.SaveReceipt, Db.UpsertContact,
         Db.SaveThread, Db.SaveDelivery;
    HandlingFramed(env, db, pc, c);
  }

  /** Handling mail keeps conversations together. */
  lemma HandlingKeepsConversing(env: Env, db: Db, issued: set<Id>, created: seq<Id>, pc: HandlePc, c: Choice)
    requires Healthy(env, db, issued) && FreshFor(issued, Handling(pc), c) && Possible(db, Handling(pc), c)
    requires Conversing(db, created, Handling(pc)) && Addressed(env, db, Handling(pc))
    ensures var next := NextHandling(env, db, pc, c);
            Conversing(next.db, if pc.CreateInbound? then created + [c.id] else created, next.pc)
  {
    hide Healthy, Conversing, NextHandling, Addressed, Possible;
    if Looks(pc) {
      LookingKeepsConversing(env, db, issued, created, pc, c);
    } else if pc.CreateInbound? {
      CreatingKeepsConversing(env, db, issued, created, pc.work, pc.saved, c);
    } else {
      OtherwiseKeepsConversing(env, db, created, pc, c);
    }
  }

  lemma NoParentYet(ms: map<Id, Message>)
    ensures NoneBears(ms, "")
  {
  }

  lemma TargetFixesThread(ms: map<Id, Message>, id: Id, threadId: Id)
    requires GloballyUnique(ms) && id in ms && ms[id].threadId == threadId
    ensures AllIn(ms, ms[id].messageIdHeader, threadId)
  {
  }

  lemma QueueingKeepsConversing(env: Env, db: Db, issued: set<Id>, created: seq<Id>, pc: ReplyPc, c: Choice)
    requires Healthy(env, db, issued) && FreshFor(issued, Replying(pc), c) && pc.CreateReply?
    requires Conversing(db, created, Replying(pc))
    ensures var next := NextReplying(env, db, pc, c);
            Conversing(next.db, created + [c.id], next.pc)
  {
    hide Healthy, GloballyUnique, Connected, AllIn, Unused, Stored, Usable, AssembleReply, MessageRefs, InboundIndex,
         ContactsKeyed, MessagesKeyed, ThreadsKeyed;
    HealthyParts(env, db, issued);
    var m := OutboundMessage(pc.context, pc.reply, pc.queuedAt, c.id);
    assert c.id !in db.messages.Keys;
    UnusedIsNone(db.messages, m.messageIdHeader);
    NewKeepsConnected(db.messages, created, m);
  }

  lemma ReplyingKeepsConversing(env: Env, db: Db, issued: set<Id>, created: seq<Id>, pc: ReplyPc, c: Choice)
    requires Healthy(env, db, issued) && ReplyOk(db, issued, pc) && FreshFor(issued, Replying(pc), c)
    requires Conversing(db, created, Replying(pc)) && Addressed(env, db, Replying(pc))
    requires FreshHeader(db.messages, Replying(pc), c)
    ensures var next := NextReplying(env, db, pc, c);
            Conversing(next.db, if pc.CreateReply? then created + [c.id] else created, next.pc)
  {
    hide Healthy, GloballyUnique, Connected, AllIn, Unused, Stored, Usable, AssembleReply;
    match pc {
      case LoadTarget(input, _, _, _, t, _) =>
        if input.targetId in db.messages {
          TargetFixesThread(db.messages, input.targetId, t.id);
        }
      case CreateReply(_, _, _) => QueueingKeepsConversing(env, db, issued, created, pc, c);
      case CheckSuppression(x) => ComposedReply(env, x, c);
      case RecordSent(_, _, m, r) => RewriteKeepsConnected(db.messages, created, SentMessage(m, r));
      case _ =>
    }
  }

  lemma ComposedReply(env: Env, x: Context, c: Choice)
    ensures var pc := AfterCheck(env, x, c);
            pc.Replying? ==>
              && pc.reply.PutReply? && pc.reply.context == x
              && pc.reply.reply.metadata.messageIdHeader == c.header
              && pc.reply.reply.metadata.inReplyTo == x.target.messageIdHeader
  {
  }

  lemma UnusedIsNone(ms: map<Id, Message>, header: string)
    requires Unused(ms, header)
    ensures NoneBears(ms, header)
  {
  }

  lemma UpdatingKeepsConversing(env: Env, db: Db, issued: set<Id>, created: seq<Id>, pc: UpdatePc, c: Choice)
    requires UpdateOk(db, issued, pc) && Conversing(db, created, Updating(pc))
    ensures Conversing(NextUpdating(env, db, pc, c).db, created, NextUpdating(env, db, pc, c).pc)
  {
    hide GloballyUnique, Connected;
    UpdatingKeptKind(env, db, pc, c);
    if pc.SaveStatus? {
      var confirmed := ConfirmedMessage(pc.found, pc.callback.status, pc.callback.occurredAt);
      RewriteKeepsConnected(db.messages, created, confirmed);
    }
  }

  lemma StepKeepsConversing(env: Env, db: Db, issued: set<Id>, created: seq<Id>, pc: Pc, c: Choice)
    requires Healthy(env, db, issued) && LocalOk(db, issued, pc) && FreshFor(issued, pc, c) && Possible(db, pc, c)
    requires Conversing(db, created, pc) && Addressed(env, db, pc) && FreshHeader(db.messages, pc, c)
    ensures Conversing(Next(env, db, pc, c).db, if Creates(pc) then created + [c.id] else created,
                       Next(env, db, pc, c).pc)
  {
    hide Healthy, Conversing, FreshHeader, Addressed, Possible, NextHandling, NextReplying, NextUpdating, HandleOk,
         ReplyOk, UpdateOk;
    match pc {
      case Handling(h) => HandlingKeepsConversing(env, db, issued, created, h, c);
      case Replying(r) => ReplyingKeepsConversing(env, db, issued, created, r, c);
      case Updating(u) => UpdatingKeepsConversing(env, db, issued, created, u, c);
      case Done(_) =>
    }
  }

  lemma StartsConversing(db: Db, created: seq<Id>, pc: Pc, start: Pc)
    requires Conversing(db, created, pc) && Starts(start)
    ensures Conversing(db, created, start)
  {
  }

  lemma InitialConversing(s: State)
    requires Initial(s)
    ensures Conversing(s.db, s.created, Current(s))
  {
  }

  /**
   In every sequential run with unique Message-IDs and replies aimed inside their thread, each message that
   answers an earlier stored one has its ThreadID.
   */
  lemma {:induction false} AnswersJoinTheThread(env: Env, r: Run, n: nat)
    requires IsRun(env, r) && IsSequential(r) && GeneratesFreshHeaders(r) && WellAddressed(env, r)
    requires n < |r.states|
    ensures Conversing(r.states[n].db, r.states[n].created, Current(r.states[n]))
    ensures Connected(r.states[n].db.messages, r.states[n].created)
  {
    hide Next, Possible, Sound, Healthy, LocalOk, GloballyUnique, Connected, JoinsHandle, JoinsReply, FreshHeader,
         Addressed;
    if n == 0 {
      InitialConversing(r.states[0]);
    } else {
      var s, l := r.states[n - 1], r.labels[n - 1];
      AnswersJoinTheThread(env, r, n - 1);
      SequentialOneAtATime(env, r, n - 1);
      EveryStateIsSound(env, r, n - 1);
      CurrentIsOk(env, s);
      SequentialLabel(env, s, l);
      match l {
        case Spawn(pc) => StartsConversing(s.db, s.created, Current(s), pc);
        case Act(_, c) => StepKeepsConversing(env, s.db, s.issued, s.created, Current(s), c);
      }
    }
  }

  // ---------------------------------------------------------------- reply chains

  /** Places in the creation order, each of a message that answers the one before. */
  ghost predicate ReplyChain(ms: map<Id, Message>, created: seq<Id>, places: seq<nat>) {
    && (forall k :: 0 <= k < |places| ==> places[k] < |created| && created[places[k]] in ms)
    && (forall k :: 0 <= k < |places| - 1 ==> places[k] < places[k + 1])
    && (forall k :: 0 <= k < |places| - 1 ==> Answers(ms[created[places[k + 1]]], ms[created[places[k]]]))
  }

  /** A whole chain of replies, inbound and outbound in any mixture, stays in one thread. */
  lemma {:induction false} ChainsStayTogether(ms: map<Id, Message>, created: seq<Id>, places: seq<nat>, k: nat)
    requires Connected(ms, created) && ReplyChain(ms, created, places) && k < |places|
    ensures ms[created[places[k]]].threadId == ms[created[places[0]]].threadId
  {
    if k == 0 {
    } else {
      ChainsStayTogether(ms, created, places, k - 1);
      assert places[k - 1] < places[k - 1 + 1];
      assert Answers(ms[created[places[k - 1 + 1]]], ms[created[places[k - 1]]]);
    }
  }
}
