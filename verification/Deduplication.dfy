/** One message per inbox and Message-ID, and redelivery as a no-op. */
module Deduplication {
  import opened Domain
  import opened Keys
  import opened Tables
  import opened Threading
  import opened Machine
  import opened Integrity
  import opened Interleaving
  import opened Runs
  import opened Solo

  // ---------------------------------------------------------------- sequential runs

  /** The process that can still move, if any. */
  function Current(s: State): Pc {
    if s.procs == [] then Done(Failed) else s.procs[|s.procs| - 1]
  }

  predicate OneAtATime(procs: seq<Pc>) {
    forall i :: 0 <= i < |procs| - 1 ==> procs[i].Done?
  }

  lemma {:induction false} SequentialOneAtATime(env: Env, r: Run, n: nat)
    requires IsRun(env, r) && IsSequential(r) && n < |r.states|
    ensures OneAtATime(r.states[n].procs)
  {
    hide Next, Possible;
    if n == 0 {
    } else {
      SequentialOneAtATime(env, r, n - 1);
    }
  }

  /** In a sequential run a label starts a workflow, or moves the active one. */
  lemma SequentialLabel(env: Env, s: State, l: Label)
    requires OneAtATime(s.procs) && Legal(s, l)
    ensures var s' := After(env, s, l);
            match l
            case Spawn(pc) => Current(s') == pc && Starts(pc) && s'.db == s.db
            case Act(_, c) =>
              && s.procs[l.pid] == Current(s)
              && s'.db == Next(env, s.db, Current(s), c).db && Current(s') == Next(env, s.db, Current(s), c).pc
              && Possible(s.db, Current(s), c) && FreshFor(s.issued, Current(s), c)
              && s'.dispatched == s.dispatched + Dispatches(Current(s), c)
              && s'.created == (if Creates(Current(s)) then s.created + [c.id] else s.created)
  {
    hide Next, Possible;
  }

  lemma CurrentIsOk(env: Env, s: State)
    requires Sound(env, s)
    ensures Healthy(env, s.db, s.issued) && LocalOk(s.db, s.issued, Current(s))
  {
    hide Healthy;
  }

  /** The Message-ID generator never repeats an id, and never one that is already stored. */
  ghost predicate GeneratesFreshHeaders(r: Run) {
    forall i :: 0 <= i < |r.labels| && i < |r.states| && r.labels[i].Act? && r.labels[i].pid < |r.states[i].procs| ==>
      FreshHeader(r.states[i].db.messages, r.states[i].procs[r.labels[i].pid], r.labels[i].choice)
  }

  ghost predicate FreshHeader(ms: map<Id, Message>, pc: Pc, c: Choice) {
    pc.Replying? && pc.reply.CheckSuppression? ==> c.header != "" && Unused(ms, c.header)
  }

  ghost predicate Unused(ms: map<Id, Message>, header: string) {
    forall id :: id in ms ==> ms[id].messageIdHeader != header
  }

  // ---------------------------------------------------------------- uniqueness

  predicate SameHeader(m: Message, n: Message) {
    m.inboxId == n.inboxId && m.messageIdHeader == n.messageIdHeader
  }

  ghost predicate UniqueHeaders(ms: map<Id, Message>) {
    forall a, b :: a in ms && b in ms && Indexable(ms[a]) && SameHeader(ms[a], ms[b]) ==> a == b
  }

  ghost predicate NoTwin(ms: map<Id, Message>, inboxId: Id, header: string) {
    inboxId != "" && header != "" ==>
      forall id :: id in ms ==> !(ms[id].inboxId == inboxId && ms[id].messageIdHeader == header)
  }

  /** Inbound messages only, or the outbound ones too. */
  predicate Counts(m: Message, outbound: bool) {
    outbound || m.direction.Inbound?
  }

  /** No two messages that count share an inbox and a Message-ID. */
  ghost predicate UniqueAmong(ms: map<Id, Message>, outbound: bool) {
    forall a, b ::
      a in ms && b in ms && Counts(ms[a], outbound) && Counts(ms[b], outbound) && Indexable(ms[a])
      && SameHeader(ms[a], ms[b]) ==>
        a == b
  }

  // ---------------------------------------------------------------- which interleavings

  /** An inbox and a Message-ID, both nonempty, under which a process is about to create a message. */
  datatype Claim = Claim(inboxId: Id, header: string)

  function Claiming(inboxId: Id, header: string): Option<Claim> {
    if inboxId != "" && header != "" then Some(Claim(inboxId, header)) else None
  }

  /** What a process has found unused and has not yet written. */
  function ClaimOf(pc: Pc, outbound: bool): Option<Claim> {
    match pc
    case Handling(UpsertContact(w, _)) => Claiming(w.receipt.inboxId, w.parsed.messageIdHeader)
    case Handling(SaveThread(w, _)) => Claiming(w.receipt.inboxId, w.parsed.messageIdHeader)
    case Handling(CreateInbound(w, _)) => Claiming(w.receipt.inboxId, w.parsed.messageIdHeader)
    case Replying(PutReply(x, reply, _)) =>
      if outbound then Claiming(x.inbox.id, reply.metadata.messageIdHeader) else None
    case Replying(CreateReply(x, reply, _)) =>
      if outbound then Claiming(x.inbox.id, reply.metadata.messageIdHeader) else None
    case _ => None
  }

  /** No two processes are about to create a message under one inbox and Message-ID. */
  predicate ClaimsApart(procs: seq<Pc>, outbound: bool) {
    forall i, j :: 0 <= i < j < |procs| && ClaimOf(procs[i], outbound).Some? ==>
      ClaimOf(procs[i], outbound) != ClaimOf(procs[j], outbound)
  }

  ghost predicate ClaimsNeverOverlap(r: Run, outbound: bool) {
    forall n :: 0 <= n < |r.states| ==> ClaimsApart(r.states[n].procs, outbound)
  }

  /** Sequential runs are such. */
  lemma SequentialClaimsApart(env: Env, r: Run, outbound: bool)
    requires IsRun(env, r) && IsSequential(r)
    ensures ClaimsNeverOverlap(r, outbound)
  {
    hide IsRun, IsSequential;
    forall n | 0 <= n < |r.states| ensures ClaimsApart(r.states[n].procs, outbound) {
      SequentialOneAtATime(env, r, n);
    }
  }

  /** The generated Message-ID of a reply is borne by no stored message of its inbox. */
  ghost predicate NewInInbox(ms: map<Id, Message>, pc: Pc, c: Choice) {
    pc.Replying? && pc.reply.CheckSuppression? ==> NoTwin(ms, pc.reply.context.inbox.id, c.header)
  }

  ghost predicate RepliesGetNewIds(r: Run) {
    forall i :: 0 <= i < |r.labels| && i < |r.states| && r.labels[i].Act? && r.labels[i].pid < |r.states[i].procs| ==>
      NewInInbox(r.states[i].db.messages, r.states[i].procs[r.labels[i].pid], r.labels[i].choice)
  }

  lemma FreshHeadersAreNew(r: Run)
    requires GeneratesFreshHeaders(r)
    ensures RepliesGetNewIds(r)
  {
  }

  // ---------------------------------------------------------------- the steps

  lemma HealthyParts(env: Env, db: Db, issued: set<Id>)
    requires Healthy(env, db, issued)
    ensures InboundIndex(env.digest, db.messages, db.inboundKeys) && ContactsKeyed(db.contacts)
    ensures MessagesKeyed(db.messages) && ThreadsKeyed(db.threads)
    ensures db.contacts.Keys <= issued && db.messages.Keys <= issued
    ensures MessageRefs(db.messages, db.threads.Keys, db.contacts.Keys)
  {
    hide InboundIndex, ContactsKeyed, MessagesKeyed, MessageRefs, ThreadsKeyed;
  }

  ghost predicate Unborne(ms: map<Id, Message>, claim: Claim, outbound: bool) {
    forall id :: id in ms && Counts(ms[id], outbound) ==> Claim(ms[id].inboxId, ms[id].messageIdHeader) != claim
  }

  ghost predicate UniqueState(s: State, outbound: bool) {
    && UniqueAmong(s.db.messages, outbound)
    && forall p :: 0 <= p < |s.procs| && ClaimOf(s.procs[p], outbound).Some? ==>
         Unborne(s.db.messages, ClaimOf(s.procs[p], outbound).value, outbound)
  }

  /** The duplicate lookup misses nothing: without a hit, no stored message has this inbox and Message-ID. */
  lemma NotFoundMeansNone(env: Env, db: Db, inboxId: Id, header: string)
    requires InboundIndex(env.digest, db.messages, db.inboundKeys)
    requires db.FindInboundByHeader(env.digest, inboxId, header).None?
    ensures NoTwin(db.messages, inboxId, header)
  {
  }

  lemma NoTwinIsUnborne(ms: map<Id, Message>, inboxId: Id, header: string, outbound: bool)
    requires NoTwin(ms, inboxId, header)
    ensures Claiming(inboxId, header).Some? ==> Unborne(ms, Claim(inboxId, header), outbound)
  {
  }

  /** A new message keeps the headers unique exactly when no stored one has its inbox and Message-ID. */
  lemma UniqueExactly(ms: map<Id, Message>, m: Message)
    requires UniqueHeaders(ms) && m.id !in ms
    ensures UniqueHeaders(ms[m.id := m]) <==> NoTwin(ms, m.inboxId, m.messageIdHeader)
  {
    if UniqueHeaders(ms[m.id := m]) && Indexable(m) {
      var ms' := ms[m.id := m];
      forall id | id in ms ensures !SameHeader(ms[id], m) {
        assert ms'[id] == ms[id] && ms'[m.id] == m;
      }
    }
  }

  /** What the step writes to the messages: nothing, one under the process's claim, or a stored one again. */
  ghost predicate Written(ms: map<Id, Message>, ms': map<Id, Message>, claim: Option<Claim>, outbound: bool) {
    || ms' == ms
    || (exists m: Message :: ms' == ms[m.id := m]
          && (if Counts(m, outbound) then claim == Claiming(m.inboxId, m.messageIdHeader) else m.id !in ms))
    || (exists m: Message :: m.id in ms && ms' == ms[m.id := m]
          && SameHeader(m, ms[m.id]) && m.direction == ms[m.id].direction)
  }

  lemma CreatedUnderClaim(ms: map<Id, Message>, m: Message, claim: Option<Claim>, outbound: bool)
    requires if Counts(m, outbound) then claim == Claiming(m.inboxId, m.messageIdHeader) else m.id !in ms
    ensures Written(ms, ms[m.id := m], claim, outbound)
  {
  }

  lemma WrittenAgain(ms: map<Id, Message>, m: Message, claim: Option<Claim>, outbound: bool)
    requires m.id in ms && SameHeader(m, ms[m.id]) && m.direction == ms[m.id].direction
    ensures Written(ms, ms[m.id := m], claim, outbound)
  {
  }

  lemma StepWrites(env: Env, db: Db, issued: set<Id>, pc: Pc, c: Choice, outbound: bool)
    requires Healthy(env, db, issued) && LocalOk(db, issued, pc) && FreshFor(issued, pc, c)
    ensures Written(db.messages, Next(env, db, pc, c).db.messages, ClaimOf(pc, outbound), outbound)
  {
    hide Healthy, Written, Stored, Usable, Sendable, Next;
    if WritesMessage(pc) {
      HealthyParts(env, db, issued);
      MessageStepWrites(env, db, issued, pc, c, outbound);
    } else {
      StepFramed(env, db, pc, c);
      NothingWritten(db.messages, ClaimOf(pc, outbound), outbound);
    }
  }

  lemma NothingWritten(ms: map<Id, Message>, claim: Option<Claim>, outbound: bool)
    ensures Written(ms, ms, claim, outbound)
  {
  }

  lemma MessageStepWrites(env: Env, db: Db, issued: set<Id>, pc: Pc, c: Choice, outbound: bool)
    requires db.messages.Keys <= issued && LocalOk(db, issued, pc) && FreshFor(issued, pc, c) && WritesMessage(pc)
    ensures Written(db.messages, Next(env, db, pc, c).db.messages, ClaimOf(pc, outbound), outbound)
  {
    hide Written, LocalOk, Next, ClaimOf;
    if Creates(pc) {
      CreationIsWritten(env, db, issued, pc, c, outbound);
    } else {
      RewriteIsWritten(env, db, issued, pc, c, outbound);
    }
  }

  lemma CreationIsWritten(env: Env, db: Db, issued: set<Id>, pc: Pc, c: Choice, outbound: bool)
    requires db.messages.Keys <= issued && FreshFor(issued, pc, c) && Creates(pc)
    ensures Written(db.messages, Next(env, db, pc, c).db.messages, ClaimOf(pc, outbound), outbound)
  {
    hide Written, Db.Merged, InboundMessageKey, NextUpdating, Claiming;
    assert c.id !in db.messages.Keys;
    match pc {
      case Handling(CreateInbound(w, t)) =>
        CreatedUnderClaim(db.messages, InboundMessage(w, t, c.id), ClaimOf(pc, outbound), outbound);
      case Replying(CreateReply(x, reply, at)) =>
        CreatedUnderClaim(db.messages, OutboundMessage(x, reply, at, c.id), ClaimOf(pc, outbound), outbound);
    }
  }

  lemma RewriteIsWritten(env: Env, db: Db, issued: set<Id>, pc: Pc, c: Choice, outbound: bool)
    requires LocalOk(db, issued, pc) && WritesMessage(pc) && !Creates(pc)
    ensures Written(db.messages, Next(env, db, pc, c).db.messages, ClaimOf(pc, outbound), outbound)
  {
    hide Written, Stored, Usable, Sendable, Db.Merged, InboundMessageKey, NextHandling, ReplyKey, ClaimOf;
    match pc {
      case Replying(RecordSent(_, _, m, r)) =>
        WrittenAgain(db.messages, SentMessage(m, r), ClaimOf(pc, outbound), outbound);
      case Updating(SaveStatus(cb, m)) =>
        WrittenAgain(db.messages, ConfirmedMessage(m, cb.status, cb.occurredAt), ClaimOf(pc, outbound), outbound);
    }
  }

  lemma WrittenKeepsUnique(ms: map<Id, Message>, ms': map<Id, Message>, claim: Option<Claim>, outbound: bool)
    requires UniqueAmong(ms, outbound) && Written(ms, ms', claim, outbound)
    requires claim.Some? ==> Unborne(ms, claim.value, outbound)
    ensures UniqueAmong(ms', outbound)
  {
  }

  lemma WrittenKeepsUnborne(
      ms: map<Id, Message>, ms': map<Id, Message>, claim: Option<Claim>, other: Claim, outbound: bool)
    requires Written(ms, ms', claim, outbound) && Unborne(ms, other, outbound) && claim != Some(other)
    requires other.inboxId != "" && other.header != ""
    ensures Unborne(ms', other, outbound)
  {
  }

  lemma ClaimsAreNonempty(pc: Pc, outbound: bool)
    requires ClaimOf(pc, outbound).Some?
    ensures ClaimOf(pc, outbound).value.inboxId != "" && ClaimOf(pc, outbound).value.header != ""
  {
  }

  /** A step claims only what it has found unborne, and drops its claim when it writes. */
  lemma ClaimMoves(env: Env, db: Db, issued: set<Id>, pc: Pc, c: Choice, outbound: bool)
    requires Healthy(env, db, issued) && (outbound ==> NewInInbox(db.messages, pc, c))
    requires ClaimOf(pc, outbound).Some? ==> Unborne(db.messages, ClaimOf(pc, outbound).value, outbound)
    ensures var next := ClaimOf(Next(env, db, pc, c).pc, outbound);
            && (next.Some? ==> Unborne(db.messages, next.value, outbound))
            && (WritesMessage(pc) ==> next.None?)
  {
    hide Healthy, Unborne, NextHandling, NextReplying, NextUpdating, NoTwin;
    match pc {
      case Handling(h) => HandleClaims(env, db, issued, h, c, outbound);
      case Replying(r) => ReplyClaims(env, db, r, c, outbound);
      case Updating(u) => UpdatingKeptKind(env, db, u, c);
      case Done(_) =>
    }
  }

  lemma HandleClaims(env: Env, db: Db, issued: set<Id>, pc: HandlePc, c: Choice, outbound: bool)
    requires Healthy(env, db, issued)
    requires ClaimOf(Handling(pc), outbound).Some? ==>
               Unborne(db.messages, ClaimOf(Handling(pc), outbound).value, outbound)
    ensures var next := ClaimOf(NextHandling(env, db, pc, c).pc, outbound);
            && (next.Some? ==> Unborne(db.messages, next.value, outbound))
            && (pc.CreateInbound? ==> next.None?)
  {
    hide Healthy, Unborne, NoTwin, InboundIndex, ResolvedContact, BySubject, MessageRefs, ContactsKeyed, ThreadsKeyed,
         MessagesKeyed, Db.Merged, Db.FindInboundByHeader, Db.CreateMessage, Db.SaveThread, Db.UpsertContact;
    if pc.FindDuplicate? {
      HealthyParts(env, db, issued);
      var inboxId, header := pc.work.receipt.inboxId, pc.work.parsed.messageIdHeader;
      if header != "" && db.FindInboundByHeader(env.digest, inboxId, header).None? {
        NotFoundMeansNone(env, db, inboxId, header);
        NoTwinIsUnborne(db.messages, inboxId, header, outbound);
      }
    }
  }

  lemma ReplyClaims(env: Env, db: Db, pc: ReplyPc, c: Choice, outbound: bool)
    requires outbound ==> NewInInbox(db.messages, Replying(pc), c)
    requires ClaimOf(Replying(pc), outbound).Some? ==>
               Unborne(db.messages, ClaimOf(Replying(pc), outbound).value, outbound)
    ensures var next := ClaimOf(NextReplying(env, db, pc, c).pc, outbound);
            && (next.Some? ==> Unborne(db.messages, next.value, outbound))
            && (pc.CreateReply? || pc.RecordSent? ==> next.None?)
  {
    hide Unborne, NoTwin, ReplyKey, OutboundMessage, Db.CreateMessage, Db.SaveThread, Db.Merged;
    if pc.CheckSuppression? && outbound {
      NoTwinIsUnborne(db.messages, pc.context.inbox.id, c.header, outbound);
    }
  }

  // ---------------------------------------------------------------- whole runs

  lemma InitialUnique(s: State, outbound: bool)
    requires Initial(s)
    ensures UniqueState(s, outbound)
  {
  }

  lemma SpawnKeepsUnique(env: Env, s: State, pc: Pc, outbound: bool)
    requires UniqueState(s, outbound) && Starts(pc)
    ensures UniqueState(After(env, s, Spawn(pc)), outbound)
  {
    hide UniqueAmong, Unborne;
    var s' := After(env, s, Spawn(pc));
    assert forall p :: 0 <= p < |s.procs| ==> s'.procs[p] == s.procs[p];
    assert ClaimOf(s'.procs[|s.procs|], outbound).None?;
  }

  lemma ActKeepsUnique(env: Env, s: State, l: Label, outbound: bool)
    requires UniqueState(s, outbound) && Sound(env, s) && Legal(s, l) && l.Act? && ClaimsApart(s.procs, outbound)
    requires outbound ==> NewInInbox(s.db.messages, s.procs[l.pid], l.choice)
    ensures UniqueState(After(env, s, l), outbound)
  {
    hide Next, Possible, Healthy, LocalOk, UniqueAmong, Unborne, NewInInbox, Written, ClaimOf, FreshFor;
    var s', pc := After(env, s, l), s.procs[l.pid];
    var claim, ms, ms' := ClaimOf(pc, outbound), s.db.messages, s'.db.messages;
    SoundIsHealthy(env, s);
    StepWrites(env, s.db, s.issued, pc, l.choice, outbound);
    WrittenKeepsUnique(ms, ms', claim, outbound);
    ClaimMoves(env, s.db, s.issued, pc, l.choice, outbound);
    forall p | 0 <= p < |s'.procs| && ClaimOf(s'.procs[p], outbound).Some?
      ensures Unborne(ms', ClaimOf(s'.procs[p], outbound).value, outbound)
    {
      if p == l.pid {
        StepFramed(env, s.db, pc, l.choice);
      } else {
        ClaimsAreNonempty(s.procs[p], outbound);
        WrittenKeepsUnborne(ms, ms', claim, ClaimOf(s.procs[p], outbound).value, outbound);
      }
    }
  }

  /**
   In every interleaving in which no two processes are about to create a message under one inbox and
   Message-ID, no two inbound messages share them; and if replies get Message-IDs new to their inbox, no two
   messages whatever do.
   */
  lemma {:induction false} MessagesStayUnique(env: Env, r: Run, n: nat, outbound: bool)
    requires IsRun(env, r) && ClaimsNeverOverlap(r, outbound) && n < |r.states|
    requires outbound ==> RepliesGetNewIds(r)
    ensures UniqueState(r.states[n], outbound)
    ensures UniqueAmong(r.states[n].db.messages, outbound)
  {
    hide UniqueAmong, Unborne, Sound, After, Initial, ClaimsApart, Possible, NewInInbox;
    if n == 0 {
      InitialUnique(r.states[0], outbound);
    } else {
      MessagesStayUnique(env, r, n - 1, outbound);
      EveryStateIsSound(env, r, n - 1);
      match r.labels[n - 1] {
        case Spawn(pc) => SpawnKeepsUnique(env, r.states[n - 1], pc, outbound);
        case Act(_, _) => ActKeepsUnique(env, r.states[n - 1], r.labels[n - 1], outbound);
      }
    }
  }

  /**
   So in every sequential run: inbound messages are unique whatever replies are sent under, and all messages
   are where the generator gives fresh Message-IDs.
   */
  lemma SequentialIsSingle(env: Env, r: Run, n: nat)
    requires IsRun(env, r) && IsSequential(r) && n < |r.states|
    ensures UniqueAmong(r.states[n].db.messages, false)
    ensures RepliesGetNewIds(r) ==> UniqueHeaders(r.states[n].db.messages)
  {
    hide IsRun, IsSequential, RepliesGetNewIds, ClaimsNeverOverlap;
    SequentialClaimsApart(env, r, false);
    MessagesStayUnique(env, r, n, false);
    if RepliesGetNewIds(r) {
      SequentialClaimsApart(env, r, true);
      MessagesStayUnique(env, r, n, true);
    }
  }

  // ---------------------------------------------------------------- the inbound-key index

  /** No stored inbox id and this one extend each other by a colon. */
  ghost predicate InboxesApart(ms: map<Id, Message>, inboxId: Id) {
    forall id :: id in ms ==> Apart(ms[id].inboxId, inboxId)
  }

  /** The stored message bears this Message-ID in this inbox, both being nonempty. */
  ghost predicate Bears(ms: map<Id, Message>, id: Id, inboxId: Id, header: string) {
    id in ms && Indexable(ms[id]) && ms[id].inboxId == inboxId && ms[id].messageIdHeader == header
  }

  /** No other stored message bears the inbox and Message-ID of this one. */
  ghost predicate OnlyBearer(ms: map<Id, Message>, id: Id)
    requires id in ms
  {
    forall k :: Bears(ms, k, ms[id].inboxId, ms[id].messageIdHeader) ==> k == id
  }

  /** So it is for every message where all are unique, and for an inbound one unless a reply took its Message-ID. */
  lemma UniqueIsOnlyBearer(ms: map<Id, Message>, id: Id)
    requires id in ms
    ensures UniqueHeaders(ms) ==> OnlyBearer(ms, id)
    ensures UniqueAmong(ms, false) && ms[id].direction.Inbound?
            && (forall k :: k in ms && ms[k].direction.Outbound? ==> !SameHeader(ms[k], ms[id])) ==>
              OnlyBearer(ms, id)
  {
  }

  /**
   With a collision-free digest and inbox ids that are apart, a lookup finds a message if and only if some
   message bears the pair asked for; what it finds bears it, and is the only bearer if there is just one.
   */
  lemma LookupIsExact(env: Env, db: Db, issued: set<Id>, inboxId: Id, header: string)
    requires Healthy(env, db, issued) && CollisionFree(env.digest) && InboxesApart(db.messages, inboxId)
    ensures var found := db.FindInboundByHeader(env.digest, inboxId, header);
            && (found.Some? <==> exists id :: Bears(db.messages, id, inboxId, header))
            && (found.Some? ==> Bears(db.messages, found.value.id, inboxId, header)
                                && db.messages[found.value.id] == found.value)
            && (forall id :: Bears(db.messages, id, inboxId, header) && OnlyBearer(db.messages, id) ==>
                  found == Some(db.messages[id]))
  {
    hide Healthy, MessageRefs, ContactsKeyed, CollisionFree, Apart, ScopedKey;
    HealthyParts(env, db, issued);
    var key := InboundMessageKey(env.digest, inboxId, header);
    if key in db.inboundKeys {
      var m := db.messages[db.inboundKeys[key]];
      ScopedKeyInjective(env.digest, "inbound", m.inboxId, m.messageIdHeader, inboxId, header);
      assert Bears(db.messages, db.inboundKeys[key], inboxId, header);
    }
  }

  /** Mail is taken for a duplicate exactly when a message with its inbox and Message-ID is stored. */
  lemma DuplicateExactly(env: Env, db: Db, issued: set<Id>, w: Work, t: Thread, c: Choice)
    requires Healthy(env, db, issued)
    requires CollisionFree(env.digest) && InboxesApart(db.messages, w.receipt.inboxId)
    ensures var next := Next(env, db, Handling(FindDuplicate(w, t)), c).pc;
            && next.Handling?
            && (next.handle.LoadDuplicateThread? <==>
                  exists id :: Bears(db.messages, id, w.receipt.inboxId, w.parsed.messageIdHeader))
            && (!next.handle.LoadDuplicateThread? ==> next.handle == UpsertContact(w, t))
  {
    hide Healthy, OnlyBearer, CollisionFree, Apart, InboxesApart, Db.FindInboundByHeader, NextReplying, NextUpdating;
    LookupIsExact(env, db, issued, w.receipt.inboxId, w.parsed.messageIdHeader);
  }

  // ---------------------------------------------------------------- redelivery

  /** The message at hand is one that is already stored, as m. */
  predicate SameMail(m: Message, r: Receipt, parsed: ParsedMessage) {
    Indexable(m) && r.inboxId == m.inboxId && parsed.messageIdHeader == m.messageIdHeader
  }

  ghost predicate SameRaw(env: Env, db: Db, m: Message, r: Receipt) {
    r.rawKey in db.raw && env.parse(db.raw[r.rawKey]).Some? && SameMail(m, r, env.parse(db.raw[r.rawKey]).value)
  }

  /** Where handling the stored message m again can stand. */
  ghost predicate Rehandling(env: Env, db: Db, m: Message, pc: Pc) {
    match pc
    case Handling(LoadReceipt(key)) => key in db.receipts && SameRaw(env, db, m, db.receipts[key])
    case Handling(ReadRaw(r)) => SameRaw(env, db, m, r)
    case Handling(FindContact(r, parsed)) => SameMail(m, r, parsed)
    case Handling(FindLink(w, k)) => SameMail(m, w.receipt, w.parsed) && k <= |LinkIds(w.parsed)|
    case Handling(FindSubject(w)) => SameMail(m, w.receipt, w.parsed)
    case Handling(FindDuplicate(w, _)) => SameMail(m, w.receipt, w.parsed)
    case Handling(LoadDuplicateThread(e)) => e == m
    case Handling(LoadDuplicateContact(e, t)) => e == m && t.id == m.threadId
    case Done(o) =>
      o.Handled? && o.duplicate && o.message == m && o.thread.id == m.threadId && o.contact.id == m.contactId
    case _ => false
  }

  function StepsFrom(env: Env, db: Db, r: Receipt): nat {
    if r.rawKey in db.raw && env.parse(db.raw[r.rawKey]).Some?
    then 7 + |LinkIds(env.parse(db.raw[r.rawKey]).value)| else 0
  }

  /** How many steps are left. */
  function StepsLeft(env: Env, db: Db, pc: Pc): nat {
    match pc
    case Handling(LoadReceipt(key)) => if key in db.receipts then 1 + StepsFrom(env, db, db.receipts[key]) else 0
    case Handling(ReadRaw(r)) => StepsFrom(env, db, r)
    case Handling(FindContact(_, parsed)) => 6 + |LinkIds(parsed)|
    case Handling(FindLink(w, k)) => if k <= |LinkIds(w.parsed)| then 5 + |LinkIds(w.parsed)| - k else 0
    case Handling(FindSubject(_)) => 4
    case Handling(FindDuplicate(_, _)) => 3
    case Handling(LoadDuplicateThread(_)) => 2
    case Handling(LoadDuplicateContact(_, _)) => 1
    case _ => 0
  }

  lemma RehandlingStep(env: Env, db: Db, issued: set<Id>, m: Message, pc: Pc, c: Choice)
    requires Healthy(env, db, issued) && m.id in db.messages && db.messages[m.id] == m
    requires db.FindInboundByHeader(env.digest, m.inboxId, m.messageIdHeader) == Some(m)
    requires Rehandling(env, db, m, pc) && !pc.Done?
    ensures Next(env, db, pc, c).db == db
    ensures Rehandling(env, db, m, Next(env, db, pc, c).pc)
    ensures StepsLeft(env, db, Next(env, db, pc, c).pc) < StepsLeft(env, db, pc)
  {
    hide Healthy, NextReplying, NextUpdating, BySubject, ResolvedContact, Db.FindInboundByHeader, StepsLeft, LinkIds;
    MessageStored(env, db, issued, m.id);
    StoredThread(env, db, issued, m.threadId);
    ContactStored(env, db, issued, m.contactId);
    RehandlingProgress(env, db, m, pc, c);
  }

  lemma RehandlingProgress(env: Env, db: Db, m: Message, pc: Pc, c: Choice)
    requires db.FindInboundByHeader(env.digest, m.inboxId, m.messageIdHeader) == Some(m)
    requires Rehandling(env, db, m, pc) && !pc.Done?
    ensures StepsLeft(env, db, Next(env, db, pc, c).pc) < StepsLeft(env, db, pc)
  {
    hide NextReplying, NextUpdating, BySubject, ResolvedContact, Db.FindInboundByHeader, LinkIds;
  }

  lemma {:induction false} RehandlingAlone(env: Env, issued: set<Id>, m: Message, p: Place, choices: seq<Choice>)
    requires Healthy(env, p.db, issued) && m.id in p.db.messages && p.db.messages[m.id] == m
    requires p.db.FindInboundByHeader(env.digest, m.inboxId, m.messageIdHeader) == Some(m)
    requires Rehandling(env, p.db, m, p.pc)
    ensures Alone(env, p, choices).db == p.db
    ensures Rehandling(env, p.db, m, Alone(env, p, choices).pc)
    ensures |choices| >= StepsLeft(env, p.db, p.pc) ==> Alone(env, p, choices).pc.Done?
    decreases choices
  {
    hide Healthy, Next, PastAfter, Db.FindInboundByHeader;
    if p.pc.Done? {
    } else if choices == [] {
      StepsRemain(env, p.db, m, p.pc);
    } else {
      RehandlingStep(env, p.db, issued, m, p.pc, choices[0]);
      RehandlingAlone(env, issued, m, Stepped(env, p, choices[0]), choices[1..]);
    }
  }

  lemma StepsRemain(env: Env, db: Db, m: Message, pc: Pc)
    requires Rehandling(env, db, m, pc) && !pc.Done?
    ensures StepsLeft(env, db, pc) > 0
  {
  }

  predicate Restarts(pc: Pc) {
    pc.Handling? && (pc.handle.ReadRaw? || pc.handle.LoadReceipt?)
  }

  /** Where mail repeats one message, it repeats every bearer of the same pair. */
  lemma RehandlesEveryBearer(env: Env, db: Db, m: Message, other: Message, pc: Pc)
    requires Rehandling(env, db, m, pc) && Restarts(pc) && SameHeader(m, other)
    ensures Indexable(m) && Rehandling(env, db, other, pc)
  {
  }

  /** The answer is a duplicate of a stored bearer of this pair, with its thread and its contact. */
  ghost predicate AnsweredByBearer(db: Db, inboxId: Id, header: string, o: Outcome) {
    && o.Handled? && o.duplicate
    && Bears(db.messages, o.message.id, inboxId, header) && o.message == db.messages[o.message.id]
    && o.thread.id == o.message.threadId && o.contact.id == o.message.contactId
  }

  /** The answer is this message, in the thread and from the contact it had in the earlier tables. */
  ghost predicate AnsweredAsRecorded(earlier: Db, db: Db, id: Id, o: Outcome)
    requires id in earlier.messages && id in db.messages
  {
    && o.Handled? && o.duplicate && o.message == db.messages[id]
    && o.thread.id == earlier.messages[id].threadId && o.contact.id == earlier.messages[id].contactId
  }

  /**
   Once a message has been recorded, in every interleaving and whatever happened since, handling or
   reprocessing the same mail again writes to no table and ends, within a known number of steps, as a duplicate
   answered with a stored message of its inbox and Message-ID: the recorded one, if no other bears them.
   */
  lemma RedeliveryIsNoOp(
      env: Env, r: Run, i: nat, n: nat, id: Id, pc: Pc, past: Past, choices: seq<Choice>)
    requires IsRun(env, r) && i <= n < |r.states| && CollisionFree(env.digest)
    requires id in r.states[i].db.messages && id in r.states[n].db.messages
    requires InboxesApart(r.states[n].db.messages, r.states[n].db.messages[id].inboxId)
    requires Rehandling(env, r.states[n].db, r.states[n].db.messages[id], pc) && Restarts(pc)
    ensures var db, m := r.states[n].db, r.states[n].db.messages[id];
            var end := Alone(env, Place(db, pc, past), choices);
            && end.db == db
            && (|choices| >= StepsLeft(env, db, pc) ==> end.pc.Done?)
            && (end.pc.Done? ==> AnsweredByBearer(db, m.inboxId, m.messageIdHeader, end.pc.outcome))
            && (end.pc.Done? && OnlyBearer(db.messages, id) ==>
                  AnsweredAsRecorded(r.states[i].db, db, id, end.pc.outcome))
  {
    hide IsRun, Healthy, Sound, Next, Grows, CollisionFree, InboxesApart, Db.FindInboundByHeader, Alone, StepsLeft;
    var s := r.states[n];
    var m := s.db.messages[id];
    EveryStateIsSound(env, r, n);
    RunsGrow(env, r, i, n);
    MessageStable(r.states[i].db, s.db, id);
    RehandlesEveryBearer(env, s.db, m, m, pc);
    assert Bears(s.db.messages, id, m.inboxId, m.messageIdHeader);
    LookupIsExact(env, s.db, s.issued, m.inboxId, m.messageIdHeader);
    var found := s.db.FindInboundByHeader(env.digest, m.inboxId, m.messageIdHeader).value;
    RehandlesEveryBearer(env, s.db, m, found, pc);
    RehandlingAlone(env, s.issued, found, Place(s.db, pc, past), choices);
  }

  /** So whatever handling or reprocessing recorded mail again can end with is that answer, at no change. */
  lemma RedeliveryAnswers(
      env: Env, r: Run, i: nat, n: nat, id: Id, pc: Pc, db': Db, o: Outcome, past: Past, past': Past)
    requires IsRun(env, r) && i <= n < |r.states| && CollisionFree(env.digest)
    requires id in r.states[i].db.messages && id in r.states[n].db.messages
    requires InboxesApart(r.states[n].db.messages, r.states[n].db.messages[id].inboxId)
    requires Rehandling(env, r.states[n].db, r.states[n].db.messages[id], pc) && Restarts(pc)
    requires Reaches(env, Place(r.states[n].db, pc, past), Place(db', Done(o), past'))
    ensures var m := r.states[n].db.messages[id];
            && db' == r.states[n].db && AnsweredByBearer(db', m.inboxId, m.messageIdHeader, o)
            && (OnlyBearer(db'.messages, id) ==> AnsweredAsRecorded(r.states[i].db, db', id, o))
  {
    hide IsRun, CollisionFree, InboxesApart, Rehandling, AllPossible, Alone, StepsLeft, AnsweredByBearer,
         AnsweredAsRecorded, OnlyBearer;
    var from := Place(r.states[n].db, pc, past);
    var choices :| AllPossible(env, from, choices) && Alone(env, from, choices) == Place(db', Done(o), past');
    RedeliveryIsNoOp(env, r, i, n, id, pc, past, choices);
  }
}
