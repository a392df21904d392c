/**
 At most one accepted send per thread and idempotency key, and one answer for ever, in every interleaving in
 which calls under one key do not overlap.
 */
module Idempotency {
  import opened Domain
  import opened Keys
  import opened Tables
  import opened Machine
  import opened Solo
  import opened Assembler
  import opened Integrity
  import opened Interleaving
  import opened Runs
  import opened Deduplication

  // ---------------------------------------------------------------- which interleavings

  predicate HasKey(input: ReplyInput) {
    input.idempotencyKey != ""
  }

  function InputOf(pc: ReplyPc): ReplyInput {
    match pc
    case FindSubmission(input) => input
    case LoadRepliedThread(input, _) => input
    case LoadConfig(input) => input
    case LoadThread(input, _, _, _) => input
    case LoadContact(input, _, _, _, _) => input
    case LoadTarget(input, _, _, _, _, _) => input
    case CheckSuppression(x) => x.input
    case PutReply(x, _, _) => x.input
    case CreateReply(x, _, _) => x.input
    case SaveReplyThread(x, _, _) => x.input
    case Send(x, _, _) => x.input
    case RecordSent(x, _, _, _) => x.input
    case SaveSubmission(x, _, _, _) => x.input
  }

  /** The process is working on a reply under this submission key. */
  ghost predicate WorksUnder(env: Env, pc: Pc, key: string) {
    pc.Replying? && HasKey(InputOf(pc.reply)) && ReplyKey(env, InputOf(pc.reply)) == key
  }

  /** No two calls under one key are under way together. */
  ghost predicate NoOverlap(env: Env, procs: seq<Pc>) {
    forall i, j, key :: 0 <= i < j < |procs| ==> !(WorksUnder(env, procs[i], key) && WorksUnder(env, procs[j], key))
  }

  ghost predicate NonOverlapping(env: Env, r: Run) {
    forall n :: 0 <= n < |r.states| ==> NoOverlap(env, r.states[n].procs)
  }

  /** Sequential runs are such. */
  lemma SequentialDoesNotOverlap(env: Env, r: Run)
    requires IsRun(env, r) && IsSequential(r)
    ensures NonOverlapping(env, r)
  {
    hide IsRun, IsSequential;
    forall n | 0 <= n < |r.states| ensures NoOverlap(env, r.states[n].procs) {
      SequentialOneAtATime(env, r, n);
    }
  }

  // ---------------------------------------------------------------- the invariant

  /** The record of a send that has been accepted: who it is, and when. */
  ghost predicate SentAs(ms: map<Id, Message>, id: Id, sent: SendResult) {
    && id in ms && !ms[id].deliveryState.Queued?
    && ms[id].providerMessageId == sent.providerMessageId && ms[id].sentAt == sent.acceptedAt
  }

  /** The key resolves to the message of this accepted send. */
  ghost predicate LeadsTo(env: Env, db: Db, input: ReplyInput, messageId: Id, sent: SendResult) {
    && ReplyKey(env, input) in db.submissions && db.submissions[ReplyKey(env, input)] == messageId
    && SentAs(db.messages, messageId, sent)
  }

  ghost predicate Settled(env: Env, db: Db, d: Dispatch) {
    HasKey(d.input) ==> LeadsTo(env, db, d.input, d.messageId, d.sent)
  }

  /** The process has the answer of this send in hand and is recording it. */
  predicate Recording(pc: Pc, d: Dispatch) {
    match pc
    case Replying(RecordSent(x, _, m, sent)) => d == Dispatch(x.input, m.id, sent)
    case Replying(SaveSubmission(x, _, m, sent)) => d == Dispatch(x.input, m.id, sent)
    case _ => false
  }

  /** Every accepted send is settled, or is being recorded. */
  ghost predicate Accounted(env: Env, db: Db, procs: seq<Pc>, d: Dispatch) {
    Settled(env, db, d) || exists p :: 0 <= p < |procs| && Recording(procs[p], d)
  }

  ghost predicate AllAccounted(env: Env, db: Db, procs: seq<Pc>, log: seq<Dispatch>) {
    forall i :: 0 <= i < |log| ==> Accounted(env, db, procs, log[i])
  }

  /** No two accepted sends share a key. */
  ghost predicate OncePerKey(env: Env, log: seq<Dispatch>) {
    forall i, j :: 0 <= i < j < |log| && HasKey(log[i].input) && HasKey(log[j].input) ==>
      ReplyKey(env, log[i].input) != ReplyKey(env, log[j].input)
  }

  /** Every submission stems from an accepted send under its key. */
  ghost predicate Grounded(env: Env, db: Db, log: seq<Dispatch>) {
    forall k :: k in db.submissions ==> Stems(env, k, db.submissions[k], log)
  }

  ghost predicate Stems(env: Env, key: string, messageId: Id, log: seq<Dispatch>) {
    exists i :: 0 <= i < |log| && HasKey(log[i].input) && ReplyKey(env, log[i].input) == key
                && log[i].messageId == messageId
  }

  ghost predicate Unsent(env: Env, db: Db, input: ReplyInput) {
    HasKey(input) ==> ReplyKey(env, input) !in db.submissions
  }

  /** What a process knows of its own send, and what its caller was told. */
  ghost predicate OncePc(env: Env, db: Db, log: seq<Dispatch>, pc: Pc) {
    match pc
    case Replying(FindSubmission(_)) => true
    case Replying(LoadRepliedThread(input, m)) =>
      HasKey(input) && LeadsTo(env, db, input, m.id, SendResult(m.providerMessageId, m.sentAt))
    case Replying(RecordSent(x, _, m, sent)) => Unsent(env, db, x.input) && Dispatch(x.input, m.id, sent) in log
    case Replying(SaveSubmission(x, _, m, sent)) =>
      && HasKey(x.input) && Unsent(env, db, x.input) && Dispatch(x.input, m.id, sent) in log
      && SentAs(db.messages, m.id, sent)
    case Replying(r) => Unsent(env, db, InputOf(r))
    case Done(Replied(input, _, m, sent)) => HasKey(input) ==> LeadsTo(env, db, input, m.id, sent)
    case _ => true
  }

  ghost predicate OnceState(env: Env, s: State) {
    && AllAccounted(env, s.db, s.procs, s.dispatched)
    && OncePerKey(env, s.dispatched)
    && Grounded(env, s.db, s.dispatched)
    && forall p :: 0 <= p < |s.procs| ==> OncePc(env, s.db, s.dispatched, s.procs[p])
  }

  // ---------------------------------------------------------------- what other processes leave standing

  ghost predicate SubmissionsGrow(db: Db, db': Db) {
    forall k :: k in db.submissions ==> k in db'.submissions && db'.submissions[k] == db.submissions[k]
  }

  lemma AnsweredStable(env: Env, db: Db, db': Db, input: ReplyInput, messageId: Id, sent: SendResult)
    requires LeadsTo(env, db, input, messageId, sent)
    requires MessagesGrow(db.messages, db'.messages) && SubmissionsGrow(db, db')
    ensures LeadsTo(env, db', input, messageId, sent)
  {
    hide ReplyKey;
    assert Evolves(db.messages[messageId], db'.messages[messageId]);
  }

  lemma SentAsStable(ms: map<Id, Message>, ms': map<Id, Message>, id: Id, sent: SendResult)
    requires SentAs(ms, id, sent) && MessagesGrow(ms, ms')
    ensures SentAs(ms', id, sent)
  {
    assert Evolves(ms[id], ms'[id]);
  }

  /** A process keeps what it knows while others write no submission under its key. */
  lemma OncePcStable(env: Env, db: Db, db': Db, log: seq<Dispatch>, log': seq<Dispatch>, pc: Pc)
    requires OncePc(env, db, log, pc) && log <= log'
    requires MessagesGrow(db.messages, db'.messages) && SubmissionsGrow(db, db')
    requires forall k :: k in db'.submissions && k !in db.submissions ==> !WorksUnder(env, pc, k)
    ensures OncePc(env, db', log', pc)
  {
    hide MessagesGrow, SubmissionsGrow, LeadsTo, SentAs, ReplyKey;
    match pc {
      case Replying(LoadRepliedThread(input, m)) =>
        AnsweredStable(env, db, db', input, m.id, SendResult(m.providerMessageId, m.sentAt));
      case Replying(RecordSent(x, _, m, sent)) => InLonger(log, log', Dispatch(x.input, m.id, sent));
      case Replying(SaveSubmission(x, _, m, sent)) =>
        InLonger(log, log', Dispatch(x.input, m.id, sent));
        SentAsStable(db.messages, db'.messages, m.id, sent);
      case Done(Replied(input, _, m, sent)) =>
        if HasKey(input) {
          AnsweredStable(env, db, db', input, m.id, sent);
        }
      case _ =>
    }
  }

  lemma InLonger(log: seq<Dispatch>, log': seq<Dispatch>, d: Dispatch)
    requires log <= log' && d in log
    ensures d in log'
  {
    var i :| 0 <= i < |log| && log[i] == d;
    assert log'[i] == d;
  }

  // ---------------------------------------------------------------- a process's own step

  /** Once its key is in use, a send is no longer being recorded. */
  lemma UsedIsRecorded(env: Env, db: Db, log: seq<Dispatch>, pc: Pc, d: Dispatch)
    requires OncePc(env, db, log, pc) && HasKey(d.input) && ReplyKey(env, d.input) in db.submissions
    ensures !Recording(pc, d)
  {
    hide SentAs, ReplyKey;
  }

  /** A submission answers a later call only for a message that was sent. */
  lemma SubmissionWasSent(env: Env, s: State, input: ReplyInput)
    requires Healthy(env, s.db, s.issued) && OnceState(env, s) && HasKey(input)
    requires ReplyKey(env, input) in s.db.submissions
    ensures var found := s.db.FindReplyBySubmissionKey(ReplyKey(env, input));
            && found.Some?
            && LeadsTo(env, s.db, input, found.value.id, SendResult(found.value.providerMessageId, found.value.sentAt))
  {
    hide Healthy, ReplyKey, OncePerKey;
    var k := ReplyKey(env, input);
    assert Stems(env, k, s.db.submissions[k], s.dispatched);
    var i :| 0 <= i < |s.dispatched| && HasKey(s.dispatched[i].input) && ReplyKey(env, s.dispatched[i].input) == k
             && s.dispatched[i].messageId == s.db.submissions[k];
    assert Accounted(env, s.db, s.procs, s.dispatched[i]);
    forall p | 0 <= p < |s.procs| ensures !Recording(s.procs[p], s.dispatched[i]) {
      UsedIsRecorded(env, s.db, s.dispatched, s.procs[p], s.dispatched[i]);
    }
    assert Settled(env, s.db, s.dispatched[i]);
    MessageStored(env, s.db, s.issued, s.db.submissions[k]);
  }

  predicate Early(pc: ReplyPc) {
    !pc.Send? && !pc.RecordSent? && !pc.SaveSubmission?
  }

  /** Before the provider call a reply learns only that its key is unused, or settled. */
  lemma EarlyStep(env: Env, s: State, pc: ReplyPc, c: Choice)
    requires Healthy(env, s.db, s.issued) && OnceState(env, s) && OncePc(env, s.db, s.dispatched, Replying(pc))
    requires Early(pc)
    ensures OncePc(env, s.db, s.dispatched, NextReplying(env, s.db, pc, c).pc)
  {
    hide Healthy, OnceState, LeadsTo, SentAs, AssembleReply, ReplyKey;
    if pc.FindSubmission? && HasKey(pc.input) && ReplyKey(env, pc.input) in s.db.submissions {
      SubmissionWasSent(env, s, pc.input);
    }
  }

  lemma RecordedIsSent(ms: map<Id, Message>, m: Message, sent: SendResult)
    ensures SentAs(ms[m.id := SentMessage(m, sent)], m.id, sent)
  {
  }

  /** The send, its recording and its submission. */
  lemma LateStep(env: Env, db: Db, log: seq<Dispatch>, pc: ReplyPc, c: Choice)
    requires OncePc(env, db, log, Replying(pc)) && !Early(pc)
    ensures var next := NextReplying(env, db, pc, c);
            OncePc(env, next.db, log + Dispatches(Replying(pc), c), next.pc)
  {
    hide SentAs, ReplyKey;
    match pc {
      case Send(x, _, m) =>
        if c.sent.Some? {
          assert (log + [Dispatch(x.input, m.id, c.sent.value)])[|log|] == Dispatch(x.input, m.id, c.sent.value);
        }
      case RecordSent(_, _, m, sent) =>
        RecordedIsSent(db.messages, m, sent);
        assert log + [] == log;
      case SaveSubmission(_, _, _, _) =>
    }
  }

  lemma OwnStep(env: Env, s: State, pid: nat, c: Choice)
    requires Healthy(env, s.db, s.issued) && OnceState(env, s) && pid < |s.procs|
    requires var next := Next(env, s.db, s.procs[pid], c);
             MessagesGrow(s.db.messages, next.db.messages) && SubmissionsGrow(s.db, next.db)
    ensures var next := Next(env, s.db, s.procs[pid], c);
            OncePc(env, next.db, s.dispatched + Dispatches(s.procs[pid], c), next.pc)
  {
    hide Healthy, MessagesGrow, SubmissionsGrow, OncePc, NextHandling, NextReplying, NextUpdating, AllAccounted,
         OncePerKey, Grounded;
    var pc := s.procs[pid];
    var next := Next(env, s.db, pc, c);
    if pc.Replying? {
      assert OncePc(env, s.db, s.dispatched, Replying(pc.reply));
      if Early(pc.reply) {
        EarlyStep(env, s, pc.reply, c);
        StepFramed(env, s.db, pc, c);
        OncePcStable(env, s.db, next.db, s.dispatched, s.dispatched + Dispatches(pc, c), next.pc);
      } else {
        LateStep(env, s.db, s.dispatched, pc.reply, c);
      }
    } else {
      StepFramed(env, s.db, pc, c);
      OthersTellNothing(env, s.db, pc, c);
      SilentIsOnce(env, next.db, s.dispatched + Dispatches(pc, c), next.pc);
      OncePcStable(env, s.db, next.db, s.dispatched, s.dispatched + Dispatches(pc, c), pc);
    }
  }

  predicate ToldOf(pc: Pc) {
    pc.Done? && pc.outcome.Replied?
  }

  /** A workflow that is no reply has nothing to say about sends. */
  lemma OthersTellNothing(env: Env, db: Db, pc: Pc, c: Choice)
    requires !pc.Replying?
    ensures var next := Next(env, db, pc, c).pc;
            if pc.Done? then next == pc else !next.Replying? && !ToldOf(next)
  {
    match pc {
      case Handling(h) => hide NextUpdating, NextReplying, AfterCheck;
      case Updating(u) => hide NextHandling, NextReplying, AfterCheck;
      case Done(_) =>
    }
  }

  lemma SilentIsOnce(env: Env, db: Db, log: seq<Dispatch>, pc: Pc)
    ensures !pc.Replying? && !ToldOf(pc) ==> OncePc(env, db, log, pc)
  {
  }

  // ---------------------------------------------------------------- the log

  lemma SettledStable(env: Env, db: Db, db': Db, d: Dispatch)
    requires Settled(env, db, d) && MessagesGrow(db.messages, db'.messages) && SubmissionsGrow(db, db')
    ensures Settled(env, db', d)
  {
    hide LeadsTo, MessagesGrow, SubmissionsGrow;
    if HasKey(d.input) {
      AnsweredStable(env, db, db', d.input, d.messageId, d.sent);
    }
  }

  /** The send being recorded stays so, or becomes settled. */
  lemma RecordingStep(env: Env, db: Db, log: seq<Dispatch>, pc: Pc, c: Choice, d: Dispatch)
    requires Recording(pc, d) && OncePc(env, db, log, pc)
    ensures var next := Next(env, db, pc, c);
            Recording(next.pc, d) || Settled(env, next.db, d)
  {
    hide SentAs, ReplyKey, NextHandling, NextUpdating;
  }

  lemma SendIsRecorded(env: Env, db: Db, pc: Pc, c: Choice)
    ensures forall d :: d in Dispatches(pc, c) ==> Recording(Next(env, db, pc, c).pc, d)
  {
    hide NextHandling, NextUpdating;
  }

  /** A send of a process that alone works under its key is the first under it. */
  lemma SendIsFirst(env: Env, s: State, pid: nat, c: Choice)
    requires OnceState(env, s) && NoOverlap(env, s.procs) && pid < |s.procs|
    ensures OncePerKey(env, s.dispatched + Dispatches(s.procs[pid], c))
  {
    hide Grounded, LeadsTo, ReplyKey;
    var pc, more := s.procs[pid], Dispatches(s.procs[pid], c);
    if more == [] {
      assert s.dispatched + more == s.dispatched;
    } else {
      var log' := s.dispatched + more;
      assert OncePc(env, s.db, s.dispatched, pc);
      forall i, j | 0 <= i < j < |log'| && HasKey(log'[i].input) && HasKey(log'[j].input)
        ensures ReplyKey(env, log'[i].input) != ReplyKey(env, log'[j].input)
      {
        assert log'[i] == s.dispatched[i] && Accounted(env, s.db, s.procs, s.dispatched[i]);
        if j == |s.dispatched| {
          NotSentBefore(env, s, pid, s.dispatched[i]);
        } else {
          assert log'[j] == s.dispatched[j];
        }
      }
    }
  }

  lemma NotSentBefore(env: Env, s: State, pid: nat, d: Dispatch)
    requires NoOverlap(env, s.procs) && pid < |s.procs| && s.procs[pid].Replying? && s.procs[pid].reply.Send?
    requires OncePc(env, s.db, s.dispatched, s.procs[pid]) && HasKey(InputOf(s.procs[pid].reply))
    requires Accounted(env, s.db, s.procs, d) && HasKey(d.input)
    ensures ReplyKey(env, d.input) != ReplyKey(env, InputOf(s.procs[pid].reply))
  {
    hide ReplyKey, SentAs;
    var key := ReplyKey(env, InputOf(s.procs[pid].reply));
    if q :| 0 <= q < |s.procs| && Recording(s.procs[q], d) {
      assert q != pid && WorksUnder(env, s.procs[pid], key);
      assert ReplyKey(env, d.input) == key ==> WorksUnder(env, s.procs[q], key);
    }
  }

  lemma StemsLonger(env: Env, key: string, messageId: Id, log: seq<Dispatch>, more: seq<Dispatch>)
    requires Stems(env, key, messageId, log)
    ensures Stems(env, key, messageId, log + more)
  {
    var i :| 0 <= i < |log| && HasKey(log[i].input) && ReplyKey(env, log[i].input) == key
             && log[i].messageId == messageId;
    assert (log + more)[i] == log[i];
  }

  /** A submission is only ever added, under the key its process works under, for a logged send. */
  lemma SubmissionAdded(env: Env, s: State, pid: nat, c: Choice)
    requires pid < |s.procs| && OncePc(env, s.db, s.dispatched, s.procs[pid])
    ensures var db' := Next(env, s.db, s.procs[pid], c).db;
            && SubmissionsGrow(s.db, db')
            && forall k :: k in db'.submissions && k !in s.db.submissions ==>
                 WorksUnder(env, s.procs[pid], k) && Stems(env, k, db'.submissions[k], s.dispatched)
  {
    hide ReplyKey, SentAs, NextHandling, NextReplying, NextUpdating, Stems;
    var pc := s.procs[pid];
    StepFramed(env, s.db, pc, c);
    if pc.Replying? && pc.reply.SaveSubmission? {
      OneSubmissionAdded(env, s.db, s.dispatched, pc.reply, c);
    }
  }

  lemma OneSubmissionAdded(env: Env, db: Db, log: seq<Dispatch>, pc: ReplyPc, c: Choice)
    requires pc.SaveSubmission? && OncePc(env, db, log, Replying(pc))
    ensures var key := ReplyKey(env, pc.context.input);
            && NextReplying(env, db, pc, c).db.submissions == db.submissions[key := pc.recorded.id]
            && key !in db.submissions && Stems(env, key, pc.recorded.id, log)
  {
    hide ReplyKey, SentAs;
    var d := Dispatch(pc.context.input, pc.recorded.id, pc.sent);
    var i :| 0 <= i < |log| && log[i] == d;
  }

  // ---------------------------------------------------------------- whole runs

  lemma InitialOnce(env: Env, s: State)
    requires Initial(s)
    ensures OnceState(env, s)
  {
  }

  lemma SpawnKeepsOnce(env: Env, s: State, pc: Pc)
    requires OnceState(env, s) && Starts(pc)
    ensures OnceState(env, After(env, s, Spawn(pc)))
  {
    hide Settled, OncePerKey, Grounded, LeadsTo;
    var s' := After(env, s, Spawn(pc));
    forall i | 0 <= i < |s.dispatched| ensures Accounted(env, s'.db, s'.procs, s'.dispatched[i]) {
      assert Accounted(env, s.db, s.procs, s.dispatched[i]);
      if p :| 0 <= p < |s.procs| && Recording(s.procs[p], s.dispatched[i]) {
        assert s'.procs[p] == s.procs[p];
      }
    }
  }

  lemma ActKeepsAccounts(env: Env, s: State, pid: nat, c: Choice)
    requires OnceState(env, s) && Legal(s, Act(pid, c))
    requires var s' := After(env, s, Act(pid, c));
             MessagesGrow(s.db.messages, s'.db.messages) && SubmissionsGrow(s.db, s'.db)
    ensures var s' := After(env, s, Act(pid, c));
            AllAccounted(env, s'.db, s'.procs, s'.dispatched)
  {
    hide Possible, Next, MessagesGrow, SubmissionsGrow, OncePc, Settled, Recording, OncePerKey, Grounded, Dispatches;
    var s', pc := After(env, s, Act(pid, c)), s.procs[pid];
    forall i | 0 <= i < |s'.dispatched| ensures Accounted(env, s'.db, s'.procs, s'.dispatched[i]) {
      if i < |s.dispatched| {
        var d := s.dispatched[i];
        assert s'.dispatched[i] == d && Accounted(env, s.db, s.procs, d);
        if Settled(env, s.db, d) {
          SettledStable(env, s.db, s'.db, d);
        } else {
          var p :| 0 <= p < |s.procs| && Recording(s.procs[p], d);
          if p == pid {
            RecordingStep(env, s.db, s.dispatched, pc, c, d);
          }
          assert s'.procs[p] == if p == pid then Next(env, s.db, pc, c).pc else s.procs[p];
        }
      } else {
        SendIsRecorded(env, s.db, pc, c);
        assert s'.dispatched[i] in Dispatches(pc, c) && s'.procs[pid] == Next(env, s.db, pc, c).pc;
      }
    }
  }

  lemma ActKeepsGrounded(env: Env, s: State, pid: nat, c: Choice)
    requires OnceState(env, s) && Legal(s, Act(pid, c))
    ensures var s' := After(env, s, Act(pid, c));
            Grounded(env, s'.db, s'.dispatched)
  {
    hide Possible, Next, OncePc, AllAccounted, OncePerKey, Stems, Dispatches, WorksUnder;
    var s' := After(env, s, Act(pid, c));
    SubmissionAdded(env, s, pid, c);
    forall k | k in s'.db.submissions ensures Stems(env, k, s'.db.submissions[k], s'.dispatched) {
      StemsLonger(env, k, s'.db.submissions[k], s.dispatched, Dispatches(s.procs[pid], c));
    }
  }

  lemma ActKeepsOnce(env: Env, s: State, pid: nat, c: Choice)
    requires OnceState(env, s) && NoOverlap(env, s.procs) && Sound(env, s) && Legal(s, Act(pid, c))
    ensures OnceState(env, After(env, s, Act(pid, c)))
  {
    hide Sound, Healthy, LocalOk, AllAccounted, OncePerKey, Grounded, OncePc, Next, Possible, MessagesGrow,
         SuppressionsGrow, SubmissionsGrow, Dispatches, WorksUnder;
    var s' := After(env, s, Act(pid, c));
    SoundIsHealthy(env, s);
    LabelKeeps(env, s, Act(pid, c));
    SubmissionAdded(env, s, pid, c);
    ActKeepsAccounts(env, s, pid, c);
    ActKeepsGrounded(env, s, pid, c);
    SendIsFirst(env, s, pid, c);
    forall p | 0 <= p < |s'.procs| ensures OncePc(env, s'.db, s'.dispatched, s'.procs[p]) {
      if p == pid {
        OwnStep(env, s, pid, c);
      } else {
        OncePcStable(env, s.db, s'.db, s.dispatched, s'.dispatched, s.procs[p]);
      }
    }
  }

  /** The send discipline holds in every state of every such run. */
  lemma {:induction false} OnceThroughout(env: Env, r: Run, n: nat)
    requires IsRun(env, r) && NonOverlapping(env, r) && n < |r.states|
    ensures OnceState(env, r.states[n])
  {
    hide OnceState, Sound, After, Legal, Initial, NoOverlap;
    if n == 0 {
      InitialOnce(env, r.states[0]);
    } else {
      var s, l := r.states[n - 1], r.labels[n - 1];
      OnceThroughout(env, r, n - 1);
      EveryStateIsSound(env, r, n - 1);
      match l {
        case Spawn(pc) =>
          LegalSpawn(s, pc);
          SpawnKeepsOnce(env, s, pc);
        case Act(pid, c) => ActKeepsOnce(env, s, pid, c);
      }
    }
  }

  lemma LegalSpawn(s: State, pc: Pc)
    requires Legal(s, Spawn(pc))
    ensures Starts(pc)
  {
  }

  predicate SameRequest(a: ReplyInput, b: ReplyInput) {
    HasKey(a) && a.threadId == b.threadId && a.idempotencyKey == b.idempotencyKey
  }

  /** The provider accepts at most one send per thread and nonempty idempotency key. */
  lemma AtMostOneSend(env: Env, r: Run, n: nat, i: nat, j: nat)
    requires IsRun(env, r) && NonOverlapping(env, r) && n < |r.states|
    requires i < |r.states[n].dispatched| && j < |r.states[n].dispatched|
    requires SameRequest(r.states[n].dispatched[i].input, r.states[n].dispatched[j].input)
    ensures i == j
  {
    hide IsRun, NonOverlapping, AllAccounted, Grounded, OncePc;
    OnceThroughout(env, r, n);
  }

  /** Every call under one thread and key is told the same message, provider id and accepted time. */
  lemma SameAnswerForEver(env: Env, r: Run, n: nat, i: nat, j: nat)
    requires IsRun(env, r) && NonOverlapping(env, r) && n < |r.states|
    requires i < |r.states[n].procs| && ToldOf(r.states[n].procs[i])
    requires j < |r.states[n].procs| && ToldOf(r.states[n].procs[j])
    requires SameRequest(r.states[n].procs[i].outcome.input, r.states[n].procs[j].outcome.input)
    ensures r.states[n].procs[i].outcome.message.id == r.states[n].procs[j].outcome.message.id
    ensures r.states[n].procs[i].outcome.sent == r.states[n].procs[j].outcome.sent
  {
    hide IsRun, NonOverlapping, AllAccounted, OncePerKey, Grounded;
    OnceThroughout(env, r, n);
    var s := r.states[n];
    assert OncePc(env, s.db, s.dispatched, s.procs[i]) && OncePc(env, s.db, s.dispatched, s.procs[j]);
  }

  /** With thread ids that are apart and a collision-free digest, a key never answers for another thread or key. */
  lemma KeysDoNotMix(env: Env, r: Run, n: nat, input: ReplyInput)
    requires IsRun(env, r) && NonOverlapping(env, r) && n < |r.states| && HasKey(input)
    requires CollisionFree(env.digest)
    requires forall i :: 0 <= i < |r.states[n].dispatched| ==>
               Apart(input.threadId, r.states[n].dispatched[i].input.threadId)
    requires ReplyKey(env, input) in r.states[n].db.submissions
    ensures exists i :: 0 <= i < |r.states[n].dispatched| && SameRequest(input, r.states[n].dispatched[i].input)
              && r.states[n].dispatched[i].messageId == r.states[n].db.submissions[ReplyKey(env, input)]
  {
    hide IsRun, NonOverlapping, AllAccounted, OncePerKey, OncePc, CollisionFree, Apart, ScopedKey;
    OnceThroughout(env, r, n);
    var s := r.states[n];
    var k := ReplyKey(env, input);
    assert Stems(env, k, s.db.submissions[k], s.dispatched);
    var i :| 0 <= i < |s.dispatched| && HasKey(s.dispatched[i].input) && ReplyKey(env, s.dispatched[i].input) == k
             && s.dispatched[i].messageId == s.db.submissions[k];
    ScopedKeyInjective(env.digest, "reply", input.threadId, input.idempotencyKey,
                       s.dispatched[i].input.threadId, s.dispatched[i].input.idempotencyKey);
  }

  // ---------------------------------------------------------------- a later call succeeds

  /** A reply that has loaded its thread, or is through, names a stored thread. */
  ghost predicate Rooted(db: Db, pc: Pc) {
    match pc
    case Replying(r) =>
      !r.FindSubmission? && !r.LoadRepliedThread? && !r.LoadConfig? && !r.LoadThread? ==>
        InputOf(r).threadId in db.threads
    case Done(Replied(input, _, _, _)) => input.threadId in db.threads
    case _ => true
  }

  lemma StepKeepsRooted(env: Env, db: Db, pc: Pc, c: Choice)
    requires Rooted(db, pc) && db.threads.Keys <= Next(env, db, pc, c).db.threads.Keys
    ensures Rooted(Next(env, db, pc, c).db, Next(env, db, pc, c).pc)
  {
    hide NextHandling, NextReplying, NextUpdating;
    if pc.Replying? {
      ReplyKeepsRooted(env, db, pc.reply, c);
    } else {
      OthersTellNothing(env, db, pc, c);
      RootedStable(db, Next(env, db, pc, c).db, pc);
    }
  }

  lemma ReplyKeepsRooted(env: Env, db: Db, pc: ReplyPc, c: Choice)
    requires Rooted(db, Replying(pc)) && db.threads.Keys <= NextReplying(env, db, pc, c).db.threads.Keys
    ensures Rooted(NextReplying(env, db, pc, c).db, NextReplying(env, db, pc, c).pc)
  {
    hide AssembleReply, ReplyKey;
    var threads' := NextReplying(env, db, pc, c).db.threads;
    assert InputOf(pc).threadId in db.threads.Keys ==> InputOf(pc).threadId in threads'.Keys;
  }

  lemma {:induction false} RepliesAreRooted(env: Env, r: Run, n: nat, p: nat)
    requires IsRun(env, r) && n < |r.states| && p < |r.states[n].procs|
    ensures Rooted(r.states[n].db, r.states[n].procs[p])
  {
    hide Next, Possible, Sound, Rooted, MessagesGrow, SuppressionsGrow, Dispatches;
    if n == 0 {
    } else {
      var s, l := r.states[n - 1], r.labels[n - 1];
      EveryStateIsSound(env, r, n - 1);
      LabelKeeps(env, s, l);
      if p < |s.procs| {
        RepliesAreRooted(env, r, n - 1, p);
        if l.Act? && l.pid == p {
          StepKeepsRooted(env, s.db, s.procs[p], l.choice);
        } else {
          RootedStable(s.db, r.states[n].db, s.procs[p]);
        }
      } else {
        StartsRooted(r.states[n].db, l.pc);
      }
    }
  }

  lemma RootedStable(db: Db, db': Db, pc: Pc)
    requires Rooted(db, pc) && db.threads.Keys <= db'.threads.Keys
    ensures Rooted(db', pc)
  {
    assert forall id :: id in db.threads ==> id in db.threads.Keys && id in db'.threads.Keys && id in db'.threads;
  }

  lemma StartsRooted(db: Db, pc: Pc)
    requires Starts(pc)
    ensures Rooted(db, pc)
  {
  }

  /** The lookup step of a call under the thread and key of one that was told of a send. */
  lemma LookupFinds(env: Env, r: Run, n: nat, i: nat, input: ReplyInput)
    requires IsRun(env, r) && NonOverlapping(env, r) && n < |r.states|
    requires i < |r.states[n].procs| && ToldOf(r.states[n].procs[i])
    requires SameRequest(r.states[n].procs[i].outcome.input, input)
    ensures var s, o := r.states[n], r.states[n].procs[i].outcome;
            var found := s.db.FindReplyBySubmissionKey(ReplyKey(env, input));
            && input.threadId in s.db.threads
            && found.Some? && found.value.id == o.message.id
            && SendResult(found.value.providerMessageId, found.value.sentAt) == o.sent
  {
    hide IsRun, NonOverlapping, Sound, Healthy, AllAccounted, OncePerKey, Grounded;
    var s, o := r.states[n], r.states[n].procs[i].outcome;
    OnceThroughout(env, r, n);
    EveryStateIsSound(env, r, n);
    RepliesAreRooted(env, r, n, i);
    assert OncePc(env, s.db, s.dispatched, s.procs[i]);
    MessageStored(env, s.db, s.issued, o.message.id);
  }

  /**
   Once a call was told of its send, each later call under its thread and key succeeds: exactly two steps that
   write nothing and reach no provider, and the same message id, provider id and accepted time as the first.
   */
  lemma LaterCallIsAnswered(
      env: Env, r: Run, n: nat, i: nat, input: ReplyInput, past: Past, choices: seq<Choice>)
    requires IsRun(env, r) && NonOverlapping(env, r) && n < |r.states|
    requires i < |r.states[n].procs| && ToldOf(r.states[n].procs[i])
    requires SameRequest(r.states[n].procs[i].outcome.input, input)
    ensures var s, o := r.states[n], r.states[n].procs[i].outcome;
            var start := Place(s.db, Replying(FindSubmission(input)), past);
            var end := Alone(env, start, choices);
            && input.threadId in s.db.threads
            && end.db == s.db && end.past == past
            && (end.pc.Done? <==> |choices| >= 2)
            && (end.pc.Done? ==>
                  && end.pc.outcome.Replied? && end.pc.outcome.input == input
                  && end.pc.outcome.thread == s.db.threads[input.threadId]
                  && end.pc.outcome.message.id == o.message.id && end.pc.outcome.sent == o.sent)
  {
    hide IsRun, NonOverlapping, ReplyKey, NextHandling, NextUpdating;
    LookupFinds(env, r, n, i, input);
    var s := r.states[n];
    var start := Place(s.db, Replying(FindSubmission(input)), past);
    var found := s.db.FindReplyBySubmissionKey(ReplyKey(env, input)).value;
    if choices != [] {
      var looked := Stepped(env, start, choices[0]);
      assert looked == start.(pc := Replying(LoadRepliedThread(input, found)));
      if |choices| >= 2 {
        var answered := Stepped(env, looked, choices[1]);
        assert answered.pc.Done? && choices[1..][0] == choices[1];
        assert Alone(env, answered, choices[1..][1..]) == answered;
      } else {
        assert choices[1..] == [] && Alone(env, looked, []) == looked;
      }
    }
  }

  /** So every outcome such a call can reach is that answer, over unchanged tables, with nothing more done. */
  lemma LaterCallAnswers(
      env: Env, r: Run, n: nat, i: nat, input: ReplyInput, past: Past, db': Db, o: Outcome, past': Past)
    requires IsRun(env, r) && NonOverlapping(env, r) && n < |r.states|
    requires i < |r.states[n].procs| && ToldOf(r.states[n].procs[i])
    requires SameRequest(r.states[n].procs[i].outcome.input, input)
    requires Reaches(env, Place(r.states[n].db, Replying(FindSubmission(input)), past), Place(db', Done(o), past'))
    ensures db' == r.states[n].db && past' == past && o.Replied?
    ensures o.message.id == r.states[n].procs[i].outcome.message.id && o.sent == r.states[n].procs[i].outcome.sent
  {
    hide IsRun, NonOverlapping, ReplyKey, AllPossible, Alone;
    var start := Place(r.states[n].db, Replying(FindSubmission(input)), past);
    var choices :| AllPossible(env, start, choices) && Alone(env, start, choices) == Place(db', Done(o), past');
    LaterCallIsAnswered(env, r, n, i, input, past, choices);
  }

  /** Among other processes, too: from its start on, such a call is on its way to that answer, or has it. */
  predicate OnTheWay(pc: Pc, input: ReplyInput, messageId: Id, sent: SendResult) {
    match pc
    case Replying(FindSubmission(i)) => i == input
    case Replying(LoadRepliedThread(i, m)) =>
      i == input && m.id == messageId && SendResult(m.providerMessageId, m.sentAt) == sent
    case Done(Replied(i, _, m, told)) => i == input && m.id == messageId && told == sent
    case _ => false
  }

  /** Neither step writes, and each leads on. */
  lemma OnTheWayStep(env: Env, db: Db, pc: Pc, c: Choice, input: ReplyInput, messageId: Id, sent: SendResult)
    requires OnTheWay(pc, input, messageId, sent) && !pc.Done? && HasKey(input)
    requires input.threadId in db.threads
    requires var found := db.FindReplyBySubmissionKey(ReplyKey(env, input));
             found.Some? && found.value.id == messageId
             && SendResult(found.value.providerMessageId, found.value.sentAt) == sent
    ensures var next := Next(env, db, pc, c);
            && next.db == db && OnTheWay(next.pc, input, messageId, sent)
            && Dispatches(pc, c) == [] && !Creates(pc)
            && (pc.reply.FindSubmission? ==> next.pc.Replying? && next.pc.reply.LoadRepliedThread?)
            && (pc.reply.LoadRepliedThread? ==> next.pc.Done?)
  {
    hide ReplyKey, NextHandling, NextUpdating;
  }

  lemma {:induction false} LaterCallStaysAnswered(env: Env, r: Run, n: nat, m: nat, i: nat, j: nat)
    requires IsRun(env, r) && NonOverlapping(env, r) && n <= m < |r.states|
    requires i < |r.states[n].procs| && ToldOf(r.states[n].procs[i]) && j < |r.states[n].procs|
    requires r.states[n].procs[j].Replying? && r.states[n].procs[j].reply.FindSubmission?
    requires SameRequest(r.states[n].procs[i].outcome.input, r.states[n].procs[j].reply.input)
    ensures i < |r.states[m].procs| && r.states[m].procs[i] == r.states[n].procs[i] && j < |r.states[m].procs|
    ensures var o := r.states[n].procs[i].outcome;
            OnTheWay(r.states[m].procs[j], r.states[n].procs[j].reply.input, o.message.id, o.sent)
    decreases m
  {
    hide Next, Possible, Initial, NonOverlapping, ReplyKey, Dispatches, IssuedAfter;
    var o, input := r.states[n].procs[i].outcome, r.states[n].procs[j].reply.input;
    if n == m {
    } else {
      LaterCallStaysAnswered(env, r, n, m - 1, i, j);
      var s, l := r.states[m - 1], r.labels[m - 1];
      if l.Act? && l.pid == j {
        LookupFinds(env, r, m - 1, i, input);
        OnTheWayStep(env, s.db, s.procs[j], l.choice, input, o.message.id, o.sent);
      }
    }
  }
}
