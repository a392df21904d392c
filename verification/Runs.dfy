/** Whole runs: the interleaving theorem, the life of a sent message, and suppression. */
module Runs {
  import opened Domain
  import opened Tables
  import opened Machine
  import opened Integrity
  import opened Interleaving

  // ---------------------------------------------------------------- one label

  /** No step writes a queued message that another process holds. */
  lemma OthersUnwritten(env: Env, db: Db, issued: set<Id>, pc: Pc, c: Choice, m: Message)
    requires Healthy(env, db, issued) && LocalOk(db, issued, pc) && FreshFor(issued, pc, c)
    requires Holds(db, m) && Owned(pc) != Some(m.id)
    ensures Unwritten(db, Next(env, db, pc, c).db, Some(m.id))
  {
    hide Healthy, Next, CopyOf, Usable;
    HeldIsIssued(env, db, issued, m);
    if WritesMessage(pc) {
      WritesOnlyThere(env, db, pc, c);
      if pc.Updating? {
        CopyIsNotHeld(db, pc.update.found, m);
      }
    } else {
      StepFramed(env, db, pc, c);
    }
  }

  lemma HeldIsIssued(env: Env, db: Db, issued: set<Id>, m: Message)
    requires Healthy(env, db, issued) && Holds(db, m)
    ensures m.id in issued
  {
    hide Db.Keyed, References, InboundIndex, Pointers, Lists, Copies, States;
    assert m.id in db.messages.Keys;
  }

  lemma CopyIsNotHeld(db: Db, copy: Message, m: Message)
    requires CopyOf(db, copy) && Holds(db, m)
    ensures copy.id != m.id
  {
  }

  lemma HoldersOwn(db: Db, issued: set<Id>, pc: Pc)
    requires LocalOk(db, issued, pc) && Owned(pc).Some?
    ensures exists m :: Holds(db, m) && m.id == Owned(pc).value
  {
    hide Holds, Usable;
    match pc.reply {
      case SaveReplyThread(_, _, m) => assert Holds(db, m);
      case Send(_, _, m) => assert Holds(db, m);
      case RecordSent(_, _, m, _) => assert Holds(db, m);
    }
  }

  lemma OwnedIsIssued(env: Env, db: Db, issued: set<Id>, pc: Pc)
    requires Healthy(env, db, issued) && LocalOk(db, issued, pc) && Owned(pc).Some?
    ensures Owned(pc).value in issued
  {
    hide LocalOk, References, InboundIndex, Pointers, Lists, Copies, States, Db.Keyed;
    HoldersOwn(db, issued, pc);
    var m :| Holds(db, m) && m.id == Owned(pc).value;
    assert m.id in db.messages.Keys;
  }

  /** A step takes over no queued message but the one it has just created. */
  lemma OwnershipMoves(env: Env, db: Db, pc: Pc, c: Choice)
    ensures var next := Next(env, db, pc, c).pc;
            Owned(next).Some? ==> Owned(next) == Owned(pc) || (Generates(pc) && Owned(next).value == c.id)
  {
  }

  lemma LabelKeeps(env: Env, s: State, l: Label)
    requires Sound(env, s) && Legal(s, l)
    ensures Sound(env, After(env, s, l)) && Grows(s.db, After(env, s, l).db)
    ensures s.issued <= After(env, s, l).issued
  {
    hide Healthy, Grows, LocalOk, Next, Possible;
    var s' := After(env, s, l);
    NothingGrows(s.db);
    match l {
      case Spawn(pc) => SpawnedIsOk(s.db, s.issued, pc);
      case Act(pid, c) =>
        var pc := s.procs[pid];
        StepKeeps(env, s.db, s.issued, pc, c);
        OwnershipMoves(env, s.db, pc, c);
        forall i | 0 <= i < |s.procs| && i != pid
          ensures LocalOk(s'.db, s'.issued, s.procs[i])
          ensures Owned(s.procs[i]).Some? ==> Owned(s.procs[i]) != Owned(s'.procs[pid])
        {
          OtherKeeps(env, s, pid, c, i);
        }
    }
  }

  lemma SpawnedIsOk(db: Db, issued: set<Id>, pc: Pc)
    requires Starts(pc)
    ensures LocalOk(db, issued, pc) && Owned(pc).None?
  {
  }

  lemma OtherKeeps(env: Env, s: State, pid: nat, c: Choice, i: nat)
    requires Sound(env, s) && Legal(s, Act(pid, c)) && i < |s.procs| && i != pid
    ensures var s' := After(env, s, Act(pid, c));
            && LocalOk(s'.db, s'.issued, s.procs[i])
            && (Owned(s.procs[i]).Some? ==> Owned(s.procs[i]) != Owned(s'.procs[pid]))
  {
    hide Healthy, Grows, LocalOk, Next, Possible, Holds;
    var pc, other := s.procs[pid], s.procs[i];
    var moved := Next(env, s.db, pc, c);
    StepKeeps(env, s.db, s.issued, pc, c);
    OwnershipMoves(env, s.db, pc, c);
    if Owned(other).Some? {
      HoldersOwn(s.db, s.issued, other);
      var m :| Holds(s.db, m) && m.id == Owned(other).value;
      OthersUnwritten(env, s.db, s.issued, pc, c, m);
      OwnedIsIssued(env, s.db, s.issued, other);
    }
    LocalStable(s.db, s.issued, moved.db, IssuedAfter(s.issued, pc, c), other);
  }

  lemma InitialSound(env: Env, s: State)
    requires Initial(s)
    ensures Sound(env, s)
  {
  }

  // ---------------------------------------------------------------- whole runs

  /**
   In every state of every interleaving of any number of workflows, no reference dangles, the indexes and
   the thread lists agree with the messages, and each nonempty pointer of a thread is right.
   */
  lemma {:induction false} EveryStateIsSound(env: Env, r: Run, n: nat)
    requires IsRun(env, r) && n < |r.states|
    ensures Sound(env, r.states[n])
    ensures Healthy(env, r.states[n].db, r.states[n].issued)
  {
    hide Sound, After, Legal, Initial;
    if n == 0 {
      InitialSound(env, r.states[0]);
    } else {
      EveryStateIsSound(env, r, n - 1);
      LabelKeeps(env, r.states[n - 1], r.labels[n - 1]);
    }
    SoundIsHealthy(env, r.states[n]);
  }

  lemma SoundIsHealthy(env: Env, s: State)
    requires Sound(env, s)
    ensures Healthy(env, s.db, s.issued)
  {
  }

  lemma GrowsTransitive(a: Db, b: Db, c: Db)
    requires Grows(a, b) && Grows(b, c)
    ensures Grows(a, c)
  {
    forall id | id in a.messages ensures id in c.messages && Evolves(a.messages[id], c.messages[id]) {
      EvolvesTransitive(a.messages[id], b.messages[id], c.messages[id]);
    }
  }

  /**
   Along every interleaving tables only grow: messages move from queued to sent to confirmed and never
   back, a provider id and a sending time are never rewritten, and suppressions stay.
   */
  lemma {:induction false} RunsGrow(env: Env, r: Run, i: nat, j: nat)
    requires IsRun(env, r) && i <= j < |r.states|
    ensures Grows(r.states[i].db, r.states[j].db)
    decreases j
  {
    hide Sound, After, Legal, Initial, Grows;
    if i == j {
      NothingGrows(r.states[i].db);
    } else {
      RunsGrow(env, r, i, j - 1);
      EveryStateIsSound(env, r, j - 1);
      LabelKeeps(env, r.states[j - 1], r.labels[j - 1]);
      GrowsTransitive(r.states[i].db, r.states[j - 1].db, r.states[j].db);
    }
  }

  /** The life of one message, read off two states of a run. */
  lemma SendingIsFinal(env: Env, r: Run, i: nat, j: nat, id: Id)
    requires IsRun(env, r) && i <= j < |r.states| && id in r.states[i].db.messages
    ensures id in r.states[j].db.messages
    ensures var m, n := r.states[i].db.messages[id], r.states[j].db.messages[id];
            && n.threadId == m.threadId && n.messageIdHeader == m.messageIdHeader && n.inReplyTo == m.inReplyTo
            && Progress(m.deliveryState) <= Progress(n.deliveryState)
            && (m.deliveryState.Sent? ==> !n.deliveryState.Queued?)
            && (!m.deliveryState.Queued? ==>
                  n.providerMessageId == m.providerMessageId && n.sentAt == m.sentAt)
  {
    hide Sound, After, Legal, Initial, IsRun, Healthy;
    RunsGrow(env, r, i, j);
    EveryStateIsSound(env, r, i);
    MessageStored(env, r.states[i].db, r.states[i].issued, id);
    MessageStable(r.states[i].db, r.states[j].db, id);
  }

  // ---------------------------------------------------------------- suppression

  /** The process has passed the suppression check for this organization and address. */
  predicate Passed(pc: Pc, organizationId: Id, email: string) {
    match pc
    case Replying(PutReply(x, _, _)) => For(x, organizationId, email)
    case Replying(CreateReply(x, _, _)) => For(x, organizationId, email)
    case Replying(SaveReplyThread(x, _, _)) => For(x, organizationId, email)
    case Replying(Send(x, _, _)) => For(x, organizationId, email)
    case Replying(RecordSent(x, _, _, _)) => For(x, organizationId, email)
    case Replying(SaveSubmission(x, _, _, _)) => For(x, organizationId, email)
    case _ => false
  }

  predicate For(x: Context, organizationId: Id, email: string) {
    x.organization.id == organizationId && x.contact.emailAddress == email
  }

  lemma SuppressionBlocks(env: Env, db: Db, pc: Pc, c: Choice, organizationId: Id, email: string)
    requires db.Suppressed(organizationId, email) && !Passed(pc, organizationId, email)
    ensures !Passed(Next(env, db, pc, c).pc, organizationId, email)
  {
  }

  lemma StaysSuppressed(db: Db, db': Db, organizationId: Id, email: string)
    requires Grows(db, db') && db.Suppressed(organizationId, email)
    ensures db'.Suppressed(organizationId, email)
  {
    var id :| id in db.suppressions && db.suppressions[id].organizationId == organizationId
           && db.suppressions[id].emailAddress == email;
    assert id in db'.suppressions;
  }

  /**
   From the state in which (o, e) is suppressed on, in every interleaving, a process that had not passed
   its check by then never gets past it.
   */
  lemma {:induction false} NoReplyAfterSuppression(
      env: Env, r: Run, i: nat, j: nat, pid: nat, organizationId: Id, email: string)
    requires IsRun(env, r) && i <= j < |r.states|
    requires r.states[i].db.Suppressed(organizationId, email)
    requires pid < |r.states[i].procs| ==> !Passed(r.states[i].procs[pid], organizationId, email)
    ensures pid < |r.states[j].procs| ==> !Passed(r.states[j].procs[pid], organizationId, email)
    decreases j
  {
    hide Sound, Initial, Grows, Next, Possible;
    if i == j {
    } else {
      NoReplyAfterSuppression(env, r, i, j - 1, pid, organizationId, email);
      RunsGrow(env, r, i, j - 1);
      StaysSuppressed(r.states[i].db, r.states[j - 1].db, organizationId, email);
      var s := r.states[j - 1];
      match r.labels[j - 1] {
        case Spawn(pc) => assert Starts(pc) && !Passed(pc, organizationId, email);
        case Act(p, c) =>
          if p == pid {
            SuppressionBlocks(env, s.db, s.procs[p], c, organizationId, email);
          }
      }
    }
  }

  /** The reply a process has put together what it needs for, if it has. */
  function ContextOf(pc: Pc): Option<Context> {
    match pc
    case Replying(CheckSuppression(x)) => Some(x)
    case Replying(PutReply(x, _, _)) => Some(x)
    case Replying(CreateReply(x, _, _)) => Some(x)
    case Replying(SaveReplyThread(x, _, _)) => Some(x)
    case Replying(Send(x, _, _)) => Some(x)
    case Replying(RecordSent(x, _, _, _)) => Some(x)
    case Replying(SaveSubmission(x, _, _, _)) => Some(x)
    case _ => None
  }

  /** Creating a message and calling the provider are things a reply does only past the check of its own pair. */
  lemma OnlyThePassedSend(env: Env, s: State, pid: nat, c: Choice)
    requires Legal(s, Act(pid, c)) && s.procs[pid].Replying?
    ensures var s', x := After(env, s, Act(pid, c)), ContextOf(s.procs[pid]);
            s'.created != s.created || s'.dispatched != s.dispatched || s'.db.messages != s.db.messages ==>
              x.Some? && Passed(s.procs[pid], x.value.organization.id, x.value.contact.emailAddress)
  {
  }

  /** Where a callback stands: it will suppress, or has; and it does so exactly for a hard bounce or a complaint. */
  predicate Applies(pc: Pc, cb: Callback) {
    match pc
    case Updating(FindProviderMessage(it)) => it == cb
    case Updating(SaveStatus(it, _)) => it == cb
    case Updating(SaveSuppression(it, _)) => it == cb && Suppresses(cb.status)
    case Done(Confirmed(m, s)) =>
      if Suppresses(cb.status)
      then s.Some? && s.value.organizationId == m.organizationId && s.value.emailAddress == cb.email
      else s.None?
    case Done(Failed) => true
    case _ => false
  }

  lemma AppliesStep(env: Env, db: Db, pc: Pc, c: Choice, cb: Callback)
    requires Applies(pc, cb) && pc.Updating?
    ensures var next := Next(env, db, pc, c);
            && Applies(next.pc, cb)
            && (next.pc.Done? && next.pc.outcome.Confirmed? && next.pc.outcome.suppression.Some? ==>
                  var s := next.pc.outcome.suppression.value;
                  next.db.Suppressed(s.organizationId, s.emailAddress))
  {
    hide NextHandling, NextReplying;
    if pc.update.SaveSuppression? {
      assert c.id in Next(env, db, pc, c).db.suppressions;
    }
  }

  /** Every callback that was applied for a hard bounce or a complaint has its pair suppressed, then and ever after. */
  lemma {:induction false} AppliedIsSuppressed(env: Env, r: Run, i: nat, j: nat, pid: nat, cb: Callback)
    requires IsRun(env, r) && i <= j < |r.states|
    requires pid < |r.states[i].procs| && r.states[i].procs[pid] == Updating(FindProviderMessage(cb))
    ensures pid < |r.states[j].procs| && Applies(r.states[j].procs[pid], cb)
    ensures match r.states[j].procs[pid]
            case Done(Confirmed(m, Some(s))) => r.states[j].db.Suppressed(s.organizationId, s.emailAddress)
            case _ => true
    decreases j
  {
    hide Next, Possible, Initial, Grows, Applies, Db.Suppressed, Dispatches;
    if i == j {
      StartsApplying(cb);
    } else {
      AppliedIsSuppressed(env, r, i, j - 1, pid, cb);
      RunsGrow(env, r, j - 1, j);
      var s, l := r.states[j - 1], r.labels[j - 1];
      if l.Act? && l.pid == pid {
        AppliesToUpdates(s.procs[pid], cb);
        AppliesStep(env, s.db, s.procs[pid], l.choice, cb);
      } else {
        match s.procs[pid] {
          case Done(Confirmed(m, Some(x))) => StaysSuppressed(s.db, r.states[j].db, x.organizationId, x.emailAddress);
          case _ =>
        }
      }
    }
  }

  lemma StartsApplying(cb: Callback)
    ensures Applies(Updating(FindProviderMessage(cb)), cb)
  {
  }

  lemma AppliesToUpdates(pc: Pc, cb: Callback)
    requires Applies(pc, cb) && !pc.Done?
    ensures pc.Updating?
  {
  }

  /** The callback of process pid, a hard bounce or a complaint, has been applied to message m. */
  predicate AppliedTo(s: State, pid: nat, m: Message) {
    pid < |s.procs| && s.procs[pid].Done? && s.procs[pid].outcome.Confirmed? && s.procs[pid].outcome.message == m
  }

  /**
   After a hard-bounce or complaint callback for address e was applied, in every interleaving: a reply to e
   for the organization of the bounced message that had not passed its check by then changes no message,
   creates none and reaches no provider, whenever it acts; and when it acts it ends, at its check.
   */
  lemma BounceStopsReplies(
      env: Env, r: Run, start: nat, applied: nat, now: nat, callbackPid: nat, cb: Callback, m: Message, replyPid: nat)
    requires IsRun(env, r) && start <= applied <= now < |r.labels|
    requires callbackPid < |r.states[start].procs|
    requires r.states[start].procs[callbackPid] == Updating(FindProviderMessage(cb)) && Suppresses(cb.status)
    requires AppliedTo(r.states[applied], callbackPid, m)
    requires replyPid < |r.states[applied].procs| ==>
               !Passed(r.states[applied].procs[replyPid], m.organizationId, cb.email)
    requires r.labels[now].Act? && r.labels[now].pid == replyPid && replyPid < |r.states[now].procs|
    requires var x := ContextOf(r.states[now].procs[replyPid]); x.Some? && For(x.value, m.organizationId, cb.email)
    ensures r.states[now + 1].created == r.states[now].created
    ensures r.states[now + 1].dispatched == r.states[now].dispatched
    ensures r.states[now + 1].db.messages == r.states[now].db.messages
    ensures replyPid < |r.states[now + 1].procs| && r.states[now + 1].procs[replyPid] == Done(Failed)
  {
    hide Initial, Grows, NextHandling, NextUpdating, AfterCheck, Db.Suppressed;
    AppliedIsSuppressed(env, r, start, applied, callbackPid, cb);
    NoReplyAfterSuppression(env, r, applied, now, replyPid, m.organizationId, cb.email);
    RunsGrow(env, r, applied, now);
    StaysSuppressed(r.states[applied].db, r.states[now].db, m.organizationId, cb.email);
    assert r.states[now + 1] == After(env, r.states[now], r.labels[now]);
    assert r.states[now].dispatched + [] == r.states[now].dispatched;
  }

  ghost predicate OnlyForCause(s: State) {
    && (forall id :: id in s.db.suppressions ==> Suppresses(s.db.suppressions[id].reason))
    && (forall i :: 0 <= i < |s.procs| && s.procs[i].Updating? && s.procs[i].update.SaveSuppression? ==>
          Suppresses(s.procs[i].update.callback.status))
  }

  lemma StepSuppressesForCause(env: Env, db: Db, pc: Pc, c: Choice)
    requires forall id :: id in db.suppressions ==> Suppresses(db.suppressions[id].reason)
    requires pc.Updating? && pc.update.SaveSuppression? ==> Suppresses(pc.update.callback.status)
    ensures var moved := Next(env, db, pc, c);
            && (forall id :: id in moved.db.suppressions ==> Suppresses(moved.db.suppressions[id].reason))
            && (moved.pc.Updating? && moved.pc.update.SaveSuppression? ==> Suppresses(moved.pc.update.callback.status))
  {
    hide NextHandling, NextReplying, NextUpdating;
    StepFramed(env, db, pc, c);
    KindsKept(env, db, pc, c);
    if pc.Updating? {
      UpdateSuppressesForCause(env, db, pc.update, c);
    }
  }

  lemma UpdateSuppressesForCause(env: Env, db: Db, pc: UpdatePc, c: Choice)
    requires forall id :: id in db.suppressions ==> Suppresses(db.suppressions[id].reason)
    requires pc.SaveSuppression? ==> Suppresses(pc.callback.status)
    ensures var moved := NextUpdating(env, db, pc, c);
            && (forall id :: id in moved.db.suppressions ==> Suppresses(moved.db.suppressions[id].reason))
            && (moved.pc.Updating? && moved.pc.update.SaveSuppression? ==> Suppresses(moved.pc.update.callback.status))
  {
  }

  /** Delivered and soft-bounce callbacks never suppress: every suppression, in every run, has a cause. */
  lemma {:induction false} SuppressedForCause(env: Env, r: Run, n: nat)
    requires IsRun(env, r) && n < |r.states|
    ensures OnlyForCause(r.states[n])
  {
    hide Next, Possible;
    if n == 0 {
    } else {
      SuppressedForCause(env, r, n - 1);
      var s := r.states[n - 1];
      if r.labels[n - 1].Act? {
        StepSuppressesForCause(env, s.db, s.procs[r.labels[n - 1].pid], r.labels[n - 1].choice);
      }
    }
  }

  // ---------------------------------------------------------------- the provider-id index

  /** The provider never answers with an id it has answered with before. */
  ghost predicate FreshProviderIds(r: Run) {
    forall i :: 0 <= i < |r.states| ==> DistinctProviderIds(r.states[i].dispatched)
  }

  predicate DistinctProviderIds(log: seq<Dispatch>) {
    forall i, j :: 0 <= i < j < |log| && log[i].sent.providerMessageId != "" ==>
      log[i].sent.providerMessageId != log[j].sent.providerMessageId
  }

  /** The send of this message, with this answer, is in the provider's log. */
  ghost predicate Logged(log: seq<Dispatch>, messageId: Id, providerMessageId: string) {
    exists i :: 0 <= i < |log| && log[i].messageId == messageId && log[i].sent.providerMessageId == providerMessageId
  }

  /** Every sent message is filed under its provider id, which the provider gave for it. */
  ghost predicate Filed(db: Db, log: seq<Dispatch>) {
    forall id :: id in db.messages && db.messages[id].providerMessageId != "" ==>
      && Logged(log, id, db.messages[id].providerMessageId)
      && db.messages[id].providerMessageId in db.byProvider
      && db.byProvider[db.messages[id].providerMessageId] == db.messages[id]
  }

  ghost predicate AnswersLogged(log: seq<Dispatch>, procs: seq<Pc>) {
    forall i :: 0 <= i < |procs| && procs[i].Replying? && procs[i].reply.RecordSent? ==>
      Logged(log, procs[i].reply.queued.id, procs[i].reply.sent.providerMessageId)
  }

  lemma LogGrows(log: seq<Dispatch>, more: seq<Dispatch>, messageId: Id, p: string)
    requires Logged(log, messageId, p)
    ensures Logged(log + more, messageId, p)
  {
    var i :| 0 <= i < |log| && log[i].messageId == messageId && log[i].sent.providerMessageId == p;
    assert (log + more)[i] == log[i];
  }

  lemma LoggedOnce(log: seq<Dispatch>, a: Id, b: Id, p: string)
    requires DistinctProviderIds(log) && Logged(log, a, p) && Logged(log, b, p) && p != ""
    ensures a == b
  {
    var i :| 0 <= i < |log| && log[i].messageId == a && log[i].sent.providerMessageId == p;
    var j :| 0 <= j < |log| && log[j].messageId == b && log[j].sent.providerMessageId == p;
    assert i == j;
  }

  /** Writing a version of a message that keeps or first gets its provider id keeps the filing. */
  lemma WriteKeepsFiled(digest: string -> string, db: Db, log: seq<Dispatch>, m: Message)
    requires Filed(db, log) && DistinctProviderIds(log) && MessagesKeyed(db.messages)
    requires m.providerMessageId != "" ==> Logged(log, m.id, m.providerMessageId)
    ensures Filed(db.SaveMessage(digest, m), log)
  {
    var db' := db.SaveMessage(digest, m);
    forall id | id in db'.messages && db'.messages[id].providerMessageId != ""
      ensures Logged(log, id, db'.messages[id].providerMessageId)
      ensures db'.messages[id].providerMessageId in db'.byProvider
      ensures db'.byProvider[db'.messages[id].providerMessageId] == db'.messages[id]
    {
      if id != m.id && db'.messages[id].providerMessageId == m.providerMessageId {
        LoggedOnce(log, id, m.id, m.providerMessageId);
      }
    }
  }

  lemma WritingKeepsFiled(env: Env, db: Db, issued: set<Id>, log: seq<Dispatch>, pc: Pc, c: Choice)
    requires MessagesKeyed(db.messages) && LocalOk(db, issued, pc) && WritesMessage(pc)
    requires Filed(db, log) && DistinctProviderIds(log)
    requires pc.Replying? && pc.reply.RecordSent? ==>
      Logged(log, pc.reply.queued.id, pc.reply.sent.providerMessageId)
    ensures Filed(Next(env, db, pc, c).db, log)
  {
    hide Stored, Usable, Evolves, Sendable, Logged, Filed, CopyOf, Db.Merged;
    match pc {
      case Handling(CreateInbound(w, t)) => CreateKeepsFiled(env, db, log, InboundMessage(w, t, c.id));
      case Replying(CreateReply(x, reply, at)) => CreateKeepsFiled(env, db, log, OutboundMessage(x, reply, at, c.id));
      case Replying(RecordSent(_, _, m, r)) => WriteKeepsFiled(env.digest, db, log, SentMessage(m, r));
      case Updating(SaveStatus(cb, m)) =>
        SentIsLogged(db, log, m);
        WriteKeepsFiled(env.digest, db, log, ConfirmedMessage(m, cb.status, cb.occurredAt));
    }
  }

  lemma StepKeepsFiled(env: Env, db: Db, issued: set<Id>, log: seq<Dispatch>, pc: Pc, c: Choice)
    requires Healthy(env, db, issued) && LocalOk(db, issued, pc)
    requires Filed(db, log) && DistinctProviderIds(log)
    requires pc.Replying? && pc.reply.RecordSent? ==>
      Logged(log, pc.reply.queued.id, pc.reply.sent.providerMessageId)
    ensures Filed(Next(env, db, pc, c).db, log)
  {
    hide Healthy, LocalOk, Logged, Filed, DistinctProviderIds, Next;
    if WritesMessage(pc) {
      HealthyKeyed(env, db, issued);
      WritingKeepsFiled(env, db, issued, log, pc, c);
    } else {
      StepFramed(env, db, pc, c);
      FiledIgnoresRest(db, Next(env, db, pc, c).db, log);
    }
  }

  lemma CreateKeepsFiled(env: Env, db: Db, log: seq<Dispatch>, m: Message)
    requires Filed(db, log) && DistinctProviderIds(log) && MessagesKeyed(db.messages)
    requires m.providerMessageId == ""
    ensures Filed(db.CreateMessage(env.digest, m), log)
  {
    hide Filed, Logged;
    WriteKeepsFiled(env.digest, db, log, m);
    FiledIgnoresRest(db.SaveMessage(env.digest, m), db.CreateMessage(env.digest, m), log);
  }

  lemma HealthyKeyed(env: Env, db: Db, issued: set<Id>)
    requires Healthy(env, db, issued)
    ensures MessagesKeyed(db.messages)
  {
  }

  lemma SentIsLogged(db: Db, log: seq<Dispatch>, m: Message)
    requires CopyOf(db, m) && Filed(db, log)
    ensures Logged(log, m.id, m.providerMessageId)
  {
  }

  lemma FiledIgnoresRest(db: Db, db': Db, log: seq<Dispatch>)
    requires Filed(db, log) && db'.messages == db.messages && db'.byProvider == db.byProvider
    ensures Filed(db', log)
  {
  }

  /**
   With fresh provider ids, in every interleaving of sends and callbacks, the copy that callbacks start
   from is the message record: filed under every provider id in use, and equal to the record.
   */
  lemma {:induction false} CallbacksSeeTheRecord(env: Env, r: Run, n: nat)
    requires IsRun(env, r) && n < |r.states| && FreshProviderIds(r)
    ensures Filed(r.states[n].db, r.states[n].dispatched)
    ensures AnswersLogged(r.states[n].dispatched, r.states[n].procs)
    ensures Copies(r.states[n].db.byProvider, r.states[n].db.messages)
  {
    hide Next, Possible, Healthy, Grows, LocalOk, Filed, Logged, Copies, Dispatches;
    EveryStateIsSound(env, r, n);
    HealthyCopies(env, r.states[n].db, r.states[n].issued);
    if n == 0 {
      NothingFiled(r.states[0]);
    } else {
      CallbacksSeeTheRecord(env, r, n - 1);
      EveryStateIsSound(env, r, n - 1);
      LabelKeepsFiled(env, r.states[n - 1], r.labels[n - 1]);
    }
  }

  lemma NothingFiled(s: State)
    requires Initial(s)
    ensures Filed(s.db, s.dispatched)
  {
  }

  lemma HealthyCopies(env: Env, db: Db, issued: set<Id>)
    requires Healthy(env, db, issued)
    ensures Copies(db.byProvider, db.messages)
  {
  }

  lemma LabelKeepsFiled(env: Env, s: State, l: Label)
    requires Sound(env, s) && Legal(s, l) && DistinctProviderIds(s.dispatched)
    requires Filed(s.db, s.dispatched) && AnswersLogged(s.dispatched, s.procs)
    ensures var s' := After(env, s, l);
            Filed(s'.db, s'.dispatched) && AnswersLogged(s'.dispatched, s'.procs)
  {
    hide Next, Possible, Healthy, LocalOk, Filed, Logged;
    var s' := After(env, s, l);
    if l.Act? {
      var pc := s.procs[l.pid];
      StepKeepsFiled(env, s.db, s.issued, s.dispatched, pc, l.choice);
      FiledWithMore(s'.db, s.dispatched, Dispatches(pc, l.choice));
      forall i | 0 <= i < |s'.procs| && s'.procs[i].Replying? && s'.procs[i].reply.RecordSent?
        ensures Logged(s'.dispatched, s'.procs[i].reply.queued.id, s'.procs[i].reply.sent.providerMessageId)
      {
        if i == l.pid {
          AnswerIsLogged(env, s.db, pc, l.choice, s.dispatched);
        } else {
          LogGrows(s.dispatched, Dispatches(pc, l.choice), s.procs[i].reply.queued.id,
                   s.procs[i].reply.sent.providerMessageId);
        }
      }
    }
  }

  lemma FiledWithMore(db: Db, log: seq<Dispatch>, more: seq<Dispatch>)
    requires Filed(db, log)
    ensures Filed(db, log + more)
  {
    forall id | id in db.messages && db.messages[id].providerMessageId != ""
      ensures Logged(log + more, id, db.messages[id].providerMessageId)
    {
      LogGrows(log, more, id, db.messages[id].providerMessageId);
    }
  }

  lemma AnswerIsLogged(env: Env, db: Db, pc: Pc, c: Choice, log: seq<Dispatch>)
    requires Next(env, db, pc, c).pc.Replying? && Next(env, db, pc, c).pc.reply.RecordSent?
    requires !pc.Done?
    ensures var next := Next(env, db, pc, c).pc.reply;
            Logged(log + Dispatches(pc, c), next.queued.id, next.sent.providerMessageId)
  {
    var more := Dispatches(pc, c);
    assert pc.Replying? && pc.reply.Send? && c.sent.Some?;
    assert (log + more)[|log|] == more[0];
  }
}
