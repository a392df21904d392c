/** The workflow services called one after another on one store: every call extends a sequential run. */
module InTurn {
  import opened Domain
  import opened Keys
  import opened Tables
  import opened Store
  import opened Threading
  import opened Machine
  import opened Solo
  import opened Integrity
  import opened Runs
  import opened Deduplication
  import opened Idempotency
  import opened Refinement
  import opened Webhooks
  import opened Effects
  import opened Workflows

  /** The store holds the tables at the end of this run, in which every workflow has ended. */
  ghost predicate Tracks(store: Store, config: Config, r: Run)
    reads store
  {
    && Wired(store, config) && r.states != []
    && IsSequentialRun(EnvOf(config), r) && Idle(Last(r)) && Last(r).db == store.View()
  }

  /** This call was the next workflow of the run. */
  ghost predicate Ran(r: Run, r': Run, outcome: Outcome) {
    && r.states != [] && r'.states != [] && ExtendsRun(r, r')
    && Last(r').procs == Last(r).procs + [Done(outcome)]
  }

  /** A configured store on which no workflow has run begins a run. */
  lemma Begin(store: Store, config: Config) returns (r: Run)
    requires Wired(store, config) && Initial(State(store.View(), [], {}, [], []))
    ensures Tracks(store, config, r) && Last(r) == State(store.View(), [], {}, [], [])
  {
    hide Initial;
    r := Run([State(store.View(), [], {}, [], [])], []);
  }

  /** Then every message has its thread, so mail handled next goes to the thread that AnswersByField says. */
  lemma ThreadsAreThere(store: Store, config: Config, r: Run)
    requires Tracks(store, config, r)
    ensures ThreadsPresent(store.View())
  {
    hide IsSequential, Idle;
    EveryStateIsSound(EnvOf(config), r, |r.states| - 1);
    assert References(Last(r).db);
  }

  lemma Extended(config: Config, r: Run, pc: Pc, db': Db, outcome: Outcome, past': Past) returns (r': Run)
    requires r.states != [] && IsSequentialRun(EnvOf(config), r) && Idle(Last(r)) && Starts(pc)
    requires Stands(config, Place(Last(r).db, pc, PastOf(Last(r))), db', Done(outcome), past')
    ensures r'.states != [] && IsSequentialRun(EnvOf(config), r') && Idle(Last(r'))
    ensures Ran(r, r', outcome) && Last(r').db == db' && PastOf(Last(r')) == past'
  {
    hide IsSequentialRun, Idle, Reaches;
    r' := WorkflowExtendsRun(EnvOf(config), r, pc, db', outcome, past');
  }

  method ReceiveNext(store: Store, receiver: Receiver, config: Config, receipt: Receipt, data: string, outside: Outside,
                     ghost r: Run)
    returns (outcome: Outcome, ghost r': Run)
    requires Tracks(store, config, r) && New(outside, PastOf(Last(r)))
    modifies store, receiver
    ensures Tracks(store, config, r') && Ran(r, r', outcome)
    ensures Creations(PastOf(Last(r)), PastOf(Last(r')), outside, outcome)
    ensures Notified(config, outside, outcome, old(receiver.log), receiver.log)
    ensures IsHandled(config, WithReceipt(Last(r).db, receipt, data), receipt, outside, Last(r').db, outcome)
  {
    hide IsSequentialRun, Idle, Stands, New, Creations, Notified, Wired, Store.View, IsHandled;
    ghost var past';
    outcome, past' := Receive(store, receiver, config, receipt, data, outside, PastOf(Last(r)));
    r' := Extended(config, r, Handling(PutRaw(receipt, data)), store.View(), outcome, past');
  }

  method ReprocessNext(store: Store, receiver: Receiver, config: Config, objectKey: string, outside: Outside,
                       ghost r: Run)
    returns (outcome: Outcome, ghost r': Run)
    requires Tracks(store, config, r) && New(outside, PastOf(Last(r)))
    modifies store, receiver
    ensures Tracks(store, config, r') && Ran(r, r', outcome)
    ensures Creations(PastOf(Last(r)), PastOf(Last(r')), outside, outcome)
    ensures Notified(config, outside, outcome, old(receiver.log), receiver.log)
    ensures objectKey in Last(r).db.receipts ==>
              IsHandled(config, Last(r).db, Last(r).db.receipts[objectKey], outside, Last(r').db, outcome)
  {
    hide IsSequentialRun, Idle, Stands, New, Creations, Notified, Wired, Store.View, IsHandled;
    ghost var past';
    outcome, past' := ReprocessByObjectKey(store, receiver, config, objectKey, outside, PastOf(Last(r)));
    r' := Extended(config, r, Handling(LoadReceipt(objectKey)), store.View(), outcome, past');
  }

  /** A reply whose thread and key an earlier call was told of sends nothing and tells the same. */
  method SendReplyNext(store: Store, config: Config, input: ReplyInput, outside: ReplyOutside, ghost r: Run)
    returns (outcome: Outcome, ghost r': Run)
    requires Tracks(store, config, r) && NewIds([outside.messageId], PastOf(Last(r)))
    modifies store
    ensures Tracks(store, config, r') && Ran(r, r', outcome)
    ensures Sends(PastOf(Last(r)), PastOf(Last(r')), input, outside, outcome)
    ensures IsReply(config, Last(r).db, input, outside, Last(r').db, outcome)
    ensures forall i :: 0 <= i < |Last(r).procs| && ToldOf(Last(r).procs[i])
                        && SameRequest(Last(r).procs[i].outcome.input, input) ==>
              && outcome.Replied? && outcome.message.id == Last(r).procs[i].outcome.message.id
              && outcome.sent == Last(r).procs[i].outcome.sent
              && store.View() == old(store.View()) && PastOf(Last(r')) == PastOf(Last(r))
  {
    hide IsRun, IsSequential, Idle, Stands, NewIds, Sends, Wired, Store.View, SameRequest, IsReply;
    ghost var past, past' := PastOf(Last(r)), PastOf(Last(r));
    outcome, past' := SendReply(store, config, input, outside, past);
    r' := Extended(config, r, Replying(FindSubmission(input)), store.View(), outcome, past');
    forall i | 0 <= i < |Last(r).procs| && ToldOf(Last(r).procs[i])
               && SameRequest(Last(r).procs[i].outcome.input, input)
      ensures outcome.Replied? && outcome.message.id == Last(r).procs[i].outcome.message.id
      ensures outcome.sent == Last(r).procs[i].outcome.sent
      ensures store.View() == old(store.View()) && past' == past
    {
      ToldAgain(config, r, i, input, past, store.View(), outcome, past');
    }
  }

  lemma ToldAgain(config: Config, r: Run, i: nat, input: ReplyInput, past: Past, db': Db, o: Outcome, past': Past)
    requires r.states != [] && IsSequentialRun(EnvOf(config), r)
    requires i < |Last(r).procs| && ToldOf(Last(r).procs[i])
    requires SameRequest(Last(r).procs[i].outcome.input, input)
    requires Stands(config, Place(Last(r).db, Replying(FindSubmission(input)), past), db', Done(o), past')
    ensures db' == Last(r).db && past' == past && o.Replied?
    ensures o.message.id == Last(r).procs[i].outcome.message.id && o.sent == Last(r).procs[i].outcome.sent
  {
    hide IsRun, IsSequential, NonOverlapping, Reaches, SameRequest;
    SequentialDoesNotOverlap(EnvOf(config), r);
    LaterCallAnswers(EnvOf(config), r, |r.states| - 1, i, input, past, db', o, past');
  }

  method ApplyCallbackNext(store: Store, config: Config, cb: Callback, suppressionId: Id, ghost r: Run)
    returns (outcome: Outcome, ghost r': Run)
    requires Tracks(store, config, r) && NewIds([suppressionId], PastOf(Last(r)))
    modifies store
    ensures Tracks(store, config, r') && Ran(r, r', outcome)
    ensures outcome.Confirmed? && Suppresses(cb.status) ==>
              store.View().Suppressed(outcome.message.organizationId, cb.email)
    ensures IsApplied(Last(r).db, config.digest, cb, suppressionId, Last(r').db, outcome)
  {
    hide IsSequentialRun, Idle, Stands, NewIds, Wired, Store.View, Db.Suppressed, IsApplied;
    ghost var past';
    outcome, past' := ApplyCallback(store, config, cb, suppressionId, PastOf(Last(r)));
    r' := Extended(config, r, Updating(FindProviderMessage(cb)), store.View(), outcome, past');
  }

  method EscalateNext(store: Store, config: Config, threadId: Id, now: Time, ghost r: Run)
    returns (outcome: Outcome, ghost r': Run)
    requires Tracks(store, config, r)
    modifies store
    ensures Tracks(store, config, r') && Ran(r, r', outcome)
    ensures IsEscalated(Last(r).db, threadId, now, Last(r').db, outcome)
  {
    hide IsSequentialRun, Idle, Stands, Wired, Store.View, IsEscalated;
    outcome := EscalateThread(store, config, threadId, now, PastOf(Last(r)));
    r' := Extended(config, r, Updating(LoadEscalated(threadId)), store.View(), outcome, PastOf(Last(r)));
  }

  // ---------------------------------------------------------------- redelivery

  /** Message id, stored since state i of the run, is one that this receipt's raw bytes repeat. */
  ghost predicate AlreadyStored(config: Config, r: Run, i: nat, id: Id, receipt: Receipt)
    requires r.states != []
  {
    && i < |r.states| && id in r.states[i].db.messages && id in Last(r).db.messages
    && CollisionFree(config.digest)
    && InboxesApart(Last(r).db.messages, Last(r).db.messages[id].inboxId)
    && SameRaw(EnvOf(config), Last(r).db, Last(r).db.messages[id], receipt)
  }

  /** The answer is a stored message of the same inbox and Message-ID: the recorded one, if no other bears them. */
  ghost predicate AnsweredAgain(r: Run, i: nat, id: Id, o: Outcome)
    requires r.states != [] && i < |r.states| && id in r.states[i].db.messages && id in Last(r).db.messages
  {
    var db, m := Last(r).db, Last(r).db.messages[id];
    && AnsweredByBearer(db, m.inboxId, m.messageIdHeader, o)
    && (OnlyBearer(db.messages, id) ==> AnsweredAsRecorded(r.states[i].db, db, id, o))
  }

  lemma RepeatedAnswer(
      config: Config, r: Run, i: nat, id: Id, receipt: Receipt, pc: Pc, db': Db, o: Outcome, past': Past)
    requires r.states != [] && IsSequentialRun(EnvOf(config), r) && AlreadyStored(config, r, i, id, receipt)
    requires pc == Handling(ReadRaw(receipt)) || (pc.Handling? && pc.handle.LoadReceipt?
               && pc.handle.objectKey in Last(r).db.receipts && Last(r).db.receipts[pc.handle.objectKey] == receipt)
    requires Stands(config, Place(Last(r).db, pc, PastOf(Last(r))), db', Done(o), past')
    ensures db' == Last(r).db && AnsweredAgain(r, i, id, o)
  {
    hide IsRun, IsSequential, CollisionFree, InboxesApart, SameRaw, Reaches, AnsweredByBearer, AnsweredAsRecorded,
         OnlyBearer;
    RedeliveryAnswers(EnvOf(config), r, i, |r.states| - 1, id, pc, db', o, PastOf(Last(r)), past');
  }

  /** Handling recorded mail again: no table changes, no webhook goes out, and it is answered as recorded. */
  method HandleAgain(store: Store, receiver: Receiver, config: Config, receipt: Receipt, outside: Outside,
                     ghost r: Run, ghost i: nat, ghost id: Id)
    returns (outcome: Outcome)
    requires Tracks(store, config, r) && New(outside, PastOf(Last(r))) && AlreadyStored(config, r, i, id, receipt)
    modifies store, receiver
    ensures store.View() == old(store.View()) && receiver.log == old(receiver.log)
    ensures AnsweredAgain(r, i, id, outcome)
  {
    hide IsSequentialRun, Idle, Stands, New, Creations, Wired, Store.View, AlreadyStored;
    ghost var from := Place(Last(r).db, Handling(ReadRaw(receipt)), PastOf(Last(r)));
    StandsAtStart(config, from);
    ghost var past';
    outcome, past' := HandleStoredMessage(store, receiver, config, receipt, outside, from, PastOf(Last(r)));
    RepeatedAnswer(config, r, i, id, receipt, from.pc, store.View(), outcome, past');
  }

  /** And so for reprocessing its receipt. */
  method ReprocessAgain(store: Store, receiver: Receiver, config: Config, objectKey: string, outside: Outside,
                        ghost r: Run, ghost i: nat, ghost id: Id)
    returns (outcome: Outcome)
    requires Tracks(store, config, r) && New(outside, PastOf(Last(r)))
    requires objectKey in Last(r).db.receipts && AlreadyStored(config, r, i, id, Last(r).db.receipts[objectKey])
    modifies store, receiver
    ensures store.View() == old(store.View()) && receiver.log == old(receiver.log)
    ensures AnsweredAgain(r, i, id, outcome)
  {
    hide IsSequentialRun, Idle, Stands, New, Creations, Wired, Store.View, AlreadyStored;
    ghost var past';
    outcome, past' := ReprocessByObjectKey(store, receiver, config, objectKey, outside, PastOf(Last(r)));
    RepeatedAnswer(config, r, i, id, Last(r).db.receipts[objectKey], Handling(LoadReceipt(objectKey)),
                   store.View(), outcome, past');
  }
}
