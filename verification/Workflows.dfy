/** The workflow services, as methods over the store. Run alone, each is a run of the step machine. */
module Workflows {
  import opened Domain
  import opened Keys
  import opened Tables
  import opened Store
  import opened Parser
  import opened Threading
  import opened Attempts
  import opened Assembler
  import opened Machine
  import opened Solo
  import opened Webhooks
  import opened Effects

  /** The wiring of the runtime. split stands for net/mail and mime taking a raw message apart. */
  datatype Config = Config(
    digest: string -> string,
    split: string -> Option<Mail>,
    fold: char -> char,
    threshold: int,
    notifies: bool)

  ghost function ParsedRaw(config: Config, raw: string): Option<ParsedMessage> {
    match config.split(raw)
    case None => None
    case Some(mail) => ParsedMail(config.fold, mail)
  }

  ghost function EnvOf(config: Config): Env {
    Env(config.digest, raw => ParsedRaw(config, raw), config.fold, Threshold(config.threshold),
        config.notifies)
  }

  ghost predicate Wired(store: Store, config: Config)
    reads store
  {
    store.Valid() && store.digest == config.digest
  }

  const NO_DELIVERY := Delivery("", "", "", "", "", [], map[], Pending, 0, 0, [], 0, 0, 0, 0)

  /** An answer of which only the named parts are used. */
  function Using(id: Id, now: Time): Choice {
    Choice(id, now, "", None, None, NO_DELIVERY.(id := id), None)
  }

  /** Run alone from there, the workflow has come here. */
  ghost predicate Stands(config: Config, from: Place, db: Db, pc: Pc, past: Past) {
    Reaches(EnvOf(config), from, Place(db, pc, past))
  }

  lemma StandsAtStart(config: Config, from: Place)
    ensures Stands(config, from, from.db, from.pc, from.past)
  {
    ReachesItself(EnvOf(config), from);
  }

  lemma Advance(config: Config, from: Place, db: Db, pc: Pc, past: Past, c: Choice)
    requires Stands(config, from, db, pc, past) && CanStep(Place(db, pc, past), c)
    ensures var moved := Next(EnvOf(config), db, pc, c);
            Stands(config, from, moved.db, moved.pc, PastAfter(past, pc, c))
  {
    hide Reaches, Next, Possible;
    ReachesNext(EnvOf(config), from, Place(db, pc, past), c);
  }

  /** Nothing more was done than generating some of these ids. */
  predicate OnlyNotes(past: Past, past': Past, ids: set<Id>) {
    past.issued <= past'.issued <= past.issued + ids && past' == past.(issued := past'.issued)
  }

  // ---------------------------------------------------------------- inbound

  /** contacts.Resolver.Resolve. */
  method ResolveContact(store: Store, receipt: Receipt, parsed: ParsedMessage, freshId: Id) returns (c: Contact)
    ensures c == ResolvedContact(store.View(), receipt, parsed, freshId)
    ensures IsSender(store.contactsByEmail, receipt, parsed.from, freshId, c)
  {
    if parsed.from.email in store.contactsByEmail {
      c := store.contactsByEmail[parsed.from.email];
      if parsed.from.displayName != "" {
        c := c.(displayName := parsed.from.displayName);
      }
      c := c.(lastSeenAt := receipt.receivedAt);
      c := c.(updatedAt := receipt.receivedAt);
    } else {
      c := Contact(freshId, receipt.organizationId, parsed.from.email, parsed.from.displayName,
                   receipt.receivedAt, receipt.receivedAt, receipt.receivedAt);
    }
  }

  /** The resolver's answer is what the machine's lookups, one by one, arrive at. */
  lemma {:induction false} LookupsArrive(
      config: Config, from: Place, past: Past, db: Db, w: Work, k: nat, freshId: Id, r: Resolution)
    returns (past': Past)
    requires Stands(config, from, db, Handling(FindLink(w, k)), past) && NewIds([freshId], past)
    requires Resolves(db, Threshold(config.threshold), ThreadInputOf(w), freshId, r)
    requires k <= |LinkIds(w.parsed)|
    requires forall j :: 0 <= j < k ==> db.FoundByHeader(LinkIds(w.parsed)[j], None)
    requires forall j: nat :: j < k ==> !ComesFrom(db, ThreadInputOf(w), j, r)
    ensures OnlyNotes(past, past', {freshId})
    ensures Stands(config, from, db, Handling(FindDuplicate(w, r.thread)), past')
    decreases |LinkIds(w.parsed)| - k
  {
    hide Stands, Db.FoundByHeader, Db.MostRecent, IsDormant, NextReplying, NextUpdating;
    var input, ids := ThreadInputOf(w), LinkIds(w.parsed);
    assert [freshId][0] == freshId;
    past' := past;
    if ComesFrom(db, input, k, r) {
      Advance(config, from, db, Handling(FindLink(w, k)), past, Using(freshId, 0).(found := Some(r.thread)));
    } else if k < |ids| {
      MissedHere(db, Threshold(config.threshold), input, freshId, r, k);
      Advance(config, from, db, Handling(FindLink(w, k)), past, Using(freshId, 0));
      past' := LookupsArrive(config, from, past, db, w, k + 1, freshId, r);
    } else {
      Advance(config, from, db, Handling(FindLink(w, k)), past, Using(freshId, 0));
      var recent := SubjectAnswer(db, Threshold(config.threshold), input, freshId, r);
      Advance(config, from, db, Handling(FindSubject(w)), past, Using(freshId, 0).(found := recent));
      past' := Noted(past, freshId);
    }
  }

  /** If the answer does not come from place k or before, place k was looked up in vain. */
  lemma MissedHere(db: Db, threshold: int, input: ThreadInput, freshId: Id, r: Resolution, k: nat)
    requires Resolves(db, threshold, input, freshId, r) && k < |LinkIds(input.parsed)|
    requires forall j: nat :: j <= k ==> !ComesFrom(db, input, j, r)
    ensures db.FoundByHeader(LinkIds(input.parsed)[k], None)
  {
    hide Db.FoundByHeader, Db.MostRecent, IsDormant;
    if j: nat :| ComesFrom(db, input, j, r) {
      assert j > k;
    }
  }

  lemma SubjectAnswer(db: Db, threshold: int, input: ThreadInput, freshId: Id, r: Resolution)
    returns (recent: Option<Thread>)
    requires Resolves(db, threshold, input, freshId, r)
    requires forall j: nat :: !ComesFrom(db, input, j, r)
    ensures input.parsed.subjectNormalized != "" ==> RecentMatch(db, input, recent)
    ensures r == BySubject(threshold, input, freshId,
                           if input.parsed.subjectNormalized == "" then None else recent)
  {
    hide Db.FoundByHeader, Db.MostRecent, IsDormant;
    recent := None;
    if input.parsed.subjectNormalized != "" {
      recent :| RecentMatch(db, input, recent) && r == BySubject(threshold, input, freshId, recent);
    }
  }

  datatype Processed = Processed(work: Work, resolution: Resolution)

  /** The mail under the receipt, if its raw bytes are there and can be parsed. */
  ghost function MailOf(config: Config, db: Db, receipt: Receipt): Option<ParsedMessage> {
    if receipt.rawKey in db.raw then ParsedRaw(config, db.raw[receipt.rawKey]) else None
  }

  /** The mail, its sender, and the thread it belongs to. */
  ghost predicate IsProcessed(config: Config, db: Db, receipt: Receipt, contactId: Id, threadId: Id, p: Processed) {
    var Work(r, parsed, c) := p.work;
    && r == receipt && MailOf(config, db, receipt) == Some(parsed)
    && IsSender(db.contactsByEmail, receipt, parsed.from, contactId, c)
    && AnswersIfPresent(db, Threshold(config.threshold), receipt, parsed, c.id, threadId, p.resolution)
  }

  /** parser.Parse, the contact resolver and the thread resolver, composed by Processor.Process. */
  method Process(store: Store, config: Config, receipt: Receipt, contactId: Id, threadId: Id,
                 ghost from: Place, ghost past: Past)
    returns (r: Option<Processed>, ghost past': Past)
    requires Wired(store, config) && NewIds([contactId, threadId], past)
    requires Stands(config, from, store.View(), Handling(ReadRaw(receipt)), past)
    ensures OnlyNotes(past, past', {contactId, threadId})
    ensures r.None? ==> Stands(config, from, store.View(), Done(Failed), past')
    ensures r.Some? ==> Stands(config, from, store.View(),
                               Handling(FindDuplicate(r.value.work, r.value.resolution.thread)), past')
    ensures r.None? <==> MailOf(config, store.View(), receipt).None?
    ensures r.Some? ==> IsProcessed(config, store.View(), receipt, contactId, threadId, r.value)
  {
    hide Stands, ParsedMail, Resolves, ResolvedContact, NextReplying, NextUpdating, IsSender, AnswersByField,
         ThreadsPresent, IsRead;
    ghost var db := store.View();
    past' := past;
    assert [contactId, threadId][0] == contactId && [contactId, threadId][1] == threadId;
    Advance(config, from, db, Handling(ReadRaw(receipt)), past, Using("", 0));
    if receipt.rawKey !in store.rawMessages {
      return None, past;
    }
    var raw := store.rawMessages[receipt.rawKey];
    var mail := config.split(raw);
    if mail.None? {
      return None, past;
    }
    var parsed := Parse(config.fold, mail.value);
    if parsed.None? {
      return None, past;
    }
    Advance(config, from, db, Handling(FindContact(receipt, parsed.value)), past, Using(contactId, 0));
    var contact := ResolveContact(store, receipt, parsed.value, contactId);
    var work := Work(receipt, parsed.value, contact);
    var resolution := Resolve(store, Threshold(config.threshold), ThreadInputOf(work), threadId);
    past' := LookupsArrive(config, from, Noted(past, contactId), db, work, 0, threadId, resolution);
    r := Some(Processed(work, resolution));
  }

  /** inbound.Recorder.Record, first half: the contact, then the thread. */
  method RecordThread(store: Store, config: Config, work: Work, resolved: Thread,
                      ghost from: Place, ghost past: Past)
    returns (saved: Thread)
    requires Wired(store, config)
    requires Stands(config, from, store.View(), Handling(UpsertContact(work, resolved)), past)
    modifies store
    ensures Wired(store, config)
    ensures Stands(config, from, store.View(), Handling(CreateInbound(work, saved)), past)
    ensures IsPrepared(old(store.View()), work.contact, resolved, saved, store.View())
  {
    hide Stands, Db.SaveThread, Db.Merged, Db.UpsertContact, Db.CreateMessage, Db.SaveReceipt, Db.SaveDelivery,
         Db.PutRaw, Db.FindInboundByHeader, InboundMessage, NextReplying, NextUpdating, Store.View, Store.Valid,
         IsPrepared, IsSaved;
    PreparedByField(store.View(), work.contact, resolved);
    Advance(config, from, store.View(), Handling(UpsertContact(work, resolved)), past, Using("", 0));
    store.UpsertByEmail(work.contact);
    Advance(config, from, store.View(), Handling(SaveThread(work, resolved)), past, Using("", 0));
    saved := store.Save(resolved);
  }

  lemma CreateStep(config: Config, from: Place, db: Db, work: Work, saved: Thread, past: Past, messageId: Id)
    requires Stands(config, from, db, Handling(CreateInbound(work, saved)), past) && NewIds([messageId], past)
    ensures var m := InboundMessage(work, saved, messageId);
            && m.id == messageId
            && Stands(config, from, db.CreateMessage(config.digest, m), Handling(TouchThread(work, saved, m)),
                      NotedMessage(past, messageId))
  {
    hide Stands, Db.CreateMessage, Db.FindInboundByHeader, NextReplying, NextUpdating;
    assert [messageId][0] == messageId;
    Advance(config, from, db, Handling(CreateInbound(work, saved)), past, Using(messageId, 0));
  }

  lemma TouchStep(config: Config, from: Place, db: Db, work: Work, saved: Thread, m: Message, past: Past)
    requires Stands(config, from, db, Handling(TouchThread(work, saved, m)), past)
    ensures var touched := Touched(saved, m.id, work.receipt.receivedAt);
            Stands(config, from, db.SaveThread(touched), Handling(Notify(work.contact, db.Merged(touched), m)), past)
  {
    hide Stands, Db.SaveThread, Db.Merged, Db.CreateMessage, Db.FindInboundByHeader, NextReplying, NextUpdating;
    Advance(config, from, db, Handling(TouchThread(work, saved, m)), past, Using("", 0));
  }

  /** inbound.Recorder.Record, second half: the message, then the thread again, pointing to it. */
  method RecordMessage(store: Store, config: Config, work: Work, saved: Thread, messageId: Id,
                       ghost from: Place, ghost past: Past)
    returns (thread: Thread, message: Message)
    requires Wired(store, config) && NewIds([messageId], past)
    requires Stands(config, from, store.View(), Handling(CreateInbound(work, saved)), past)
    modifies store
    ensures Wired(store, config)
    ensures Stands(config, from, store.View(), Handling(Notify(work.contact, thread, message)),
                   NotedMessage(past, messageId))
    ensures message.id == messageId && IsMailOf(message, work.receipt, work.parsed, work.contact.id, saved.id)
    ensures IsPointed(old(store.View()).threads, saved, message.id, saved.lastOutboundId, work.receipt.receivedAt,
                      thread)
    ensures IsAdded(old(store.View()), config.digest, thread, message, store.View())
  {
    hide Stands, Db.SaveThread, Db.Merged, Db.CreateMessage, Store.View, Store.Valid, IsAdded, IsPointed, IsWritten,
         IsListed, IsSaved, IsMailOf, InboundMessage, Touched, NewIds;
    CreateStep(config, from, store.View(), work, saved, past, messageId);
    InboundCarriesMail(work, saved, messageId);
    message := InboundMessage(work, saved, messageId);
    store.Create(message);
    TouchStep(config, from, store.View(), work, saved, message, NotedMessage(past, messageId));
    thread := saved.(lastInboundId := message.id);
    thread := thread.(lastActivityAt := work.receipt.receivedAt);
    thread := thread.(updatedAt := work.receipt.receivedAt);
    TouchedByField(saved, messageId, work.receipt.receivedAt);
    AddedByField(old(store.View()), config.digest, message, saved, messageId, saved.lastOutboundId,
                 work.receipt.receivedAt, thread);
    thread := store.Save(thread);
  }

  /** The stored message of this inbox and Message-ID, if the mail has one and they are indexed. */
  method LookForDuplicate(store: Store, config: Config, processed: Processed, ghost from: Place, ghost past: Past)
    returns (existing: Option<Message>)
    requires Wired(store, config)
    requires Stands(config, from, store.View(),
                    Handling(FindDuplicate(processed.work, processed.resolution.thread)), past)
    ensures IsDuplicateOf(config, store.View(), processed.work.receipt, processed.work.parsed, existing)
    ensures Stands(config, from, store.View(),
                   Handling(match existing
                            case Some(m) => LoadDuplicateThread(m)
                            case None => UpsertContact(processed.work, processed.resolution.thread)), past)
  {
    hide Stands, Db.Keyed, NextReplying, NextUpdating;
    Advance(config, from, store.View(),
            Handling(FindDuplicate(processed.work, processed.resolution.thread)), past, Using("", 0));
    if processed.work.parsed.messageIdHeader == "" {
      return None;
    }
    existing := store.FindInboundByHeader(processed.work.receipt.inboxId, processed.work.parsed.messageIdHeader);
  }

  /** The duplicate branch of inbound.Service.HandleStoredMessage. */
  method AnswerDuplicate(store: Store, config: Config, existing: Message, ghost from: Place, ghost past: Past)
    returns (outcome: Outcome)
    requires Stands(config, from, store.View(), Handling(LoadDuplicateThread(existing)), past)
    ensures Stands(config, from, store.View(), Done(outcome), past)
    ensures IsRepeated(store.View(), existing, outcome)
    ensures outcome.Failed? || (outcome.Handled? && outcome.duplicate)
  {
    hide Stands;
    Advance(config, from, store.View(), Handling(LoadDuplicateThread(existing)), past, Using("", 0));
    if existing.threadId !in store.threadsById {
      return Failed;
    }
    var thread := store.threadsById[existing.threadId];
    Advance(config, from, store.View(), Handling(LoadDuplicateContact(existing, thread)), past, Using("", 0));
    if existing.contactId !in store.contactsById {
      return Failed;
    }
    return Handled(store.contactsById[existing.contactId], thread, existing, true);
  }

  /** What one handling takes from outside: generated ids, the built webhook request and its answer. */
  datatype Outside = Outside(contactId: Id, threadId: Id, messageId: Id, request: Delivery, answer: Answer)

  function Generated(outside: Outside): seq<Id> {
    [outside.contactId, outside.threadId, outside.messageId, outside.request.id]
  }

  predicate New(outside: Outside, past: Past) {
    outside.request.status == Pending && outside.request.attemptCount == 0 && NewIds(Generated(outside), past)
  }

  /** One message is created for mail that is not a duplicate, none for a duplicate, and no reply is sent. */
  predicate Creations(past: Past, past': Past, outside: Outside, outcome: Outcome) {
    && past.issued <= past'.issued
    && past'.issued <= past.issued + {outside.contactId, outside.threadId, outside.messageId, outside.request.id}
    && past'.dispatched == past.dispatched
    && var recorded := past.created + [outside.messageId];
       match outcome
       case Handled(_, _, m, duplicate) =>
         if duplicate then past'.created == past.created else past'.created == recorded && m.id == outside.messageId
       case _ => past'.created == past.created || past'.created == recorded
  }

  /** The webhook is sent once for a message just recorded, if there is one to notify, and never for a duplicate. */
  predicate Notified(config: Config, outside: Outside, outcome: Outcome, before: seq<Attempt>, after: seq<Attempt>) {
    var sent := before + [AttemptOf(outside.request, outside.answer)];
    match outcome
    case Handled(_, _, _, duplicate) => after == (if config.notifies && !duplicate then sent else before)
    case _ => after == before || (config.notifies && outside.answer.Unreachable? && after == sent)
  }

  /** After recording: the answer, and the record of the webhook if one was sent and answered. */
  ghost predicate IsTold(
      config: Config, outside: Outside, db: Db, c: Contact, t: Thread, m: Message, db': Db, o: Outcome)
  {
    && db' == db.(deliveries := db'.deliveries)
    && (config.notifies && outside.answer.Unreachable? ==> o == Failed && db' == db)
    && (config.notifies && outside.answer.Answered? ==>
          && o == Handled(c, t, m, false)
          && exists d :: IsRecordOf(outside.request, outside.answer.response, d)
                         && db'.deliveries == db.deliveries[outside.request.id := d])
    && (!config.notifies ==> o == Handled(c, t, m, false) && db' == db)
  }

  /** The mail is recorded: sender, thread, message, and the tables that hold them. */
  ghost predicate IsRecorded(
      config: Config, db: Db, receipt: Receipt, parsed: ParsedMessage, outside: Outside, r: Resolution,
      c: Contact, t: Thread, m: Message, db': Db)
  {
    && IsSender(db.contactsByEmail, receipt, parsed.from, outside.contactId, c)
    && AnswersIfPresent(db, Threshold(config.threshold), receipt, parsed, c.id, outside.threadId, r)
    && IsPointed(db.threads, r.thread, m.id, r.thread.lastOutboundId, receipt.receivedAt, t)
    && m.id == outside.messageId && IsMailOf(m, receipt, parsed, c.id, t.id)
    && IsFiled(db, config.digest, c, t, m, db')
  }

  /** Mail is repeated when it has a Message-ID and its inbox's index leads from there to a stored message. */
  ghost predicate IsDuplicateOf(config: Config, db: Db, receipt: Receipt, parsed: ParsedMessage, m: Option<Message>) {
    var key := InboundMessageKey(config.digest, receipt.inboxId, parsed.messageIdHeader);
    if parsed.messageIdHeader != "" && key in db.inboundKeys && db.inboundKeys[key] in db.messages
    then m == Some(db.messages[db.inboundKeys[key]])
    else m == None
  }

  /**
   What handling comes to: nothing without readable mail, the stored message again for repeated mail, and else
   the mail recorded and whoever is notified told of it.
   */
  ghost predicate IsHandled(config: Config, db: Db, receipt: Receipt, outside: Outside, db': Db, o: Outcome) {
    match MailOf(config, db, receipt)
    case None => o == Failed && db' == db
    case Some(parsed) =>
      || (exists m :: IsDuplicateOf(config, db, receipt, parsed, Some(m)) && IsRepeated(db, m, o) && db' == db)
      || (&& IsDuplicateOf(config, db, receipt, parsed, None)
          && exists r, c, t, m, filed ::
               && IsRecorded(config, db, receipt, parsed, outside, r, c, t, m, filed)
               && IsTold(config, outside, filed, c, t, m, db', o))
  }

  /** The webhook part of InboundRuntimeService.HandleStoredMessage. */
  method NotifyReceived(store: Store, receiver: Receiver, config: Config, contact: Contact, thread: Thread,
                        message: Message, outside: Outside, ghost from: Place, ghost past: Past)
    returns (outcome: Outcome)
    requires Wired(store, config) && outside.request.status == Pending && outside.request.attemptCount == 0
    requires NewIds([outside.request.id], past)
    requires Stands(config, from, store.View(), Handling(Notify(contact, thread, message)), past)
    modifies store, receiver
    ensures Wired(store, config)
    ensures Stands(config, from, store.View(), Done(outcome), Noted(past, outside.request.id))
    ensures IsTold(config, outside, old(store.View()), contact, thread, message, store.View(), outcome)
    ensures Notified(config, outside, outcome, old(receiver.log), receiver.log)
  {
    hide Stands, Db.Keyed, NextReplying, NextUpdating;
    var request, answer := outside.request, outside.answer;
    ghost var response := if answer.Answered? then Some(answer.response) else None;
    assert [request.id][0] == request.id;
    Advance(config, from, store.View(), Handling(Notify(contact, thread, message)), past,
            Using(request.id, 0).(request := request, response := response));
    if !config.notifies {
      return Handled(contact, thread, message, false);
    }
    if answer.Answered? {
      Advance(config, from, store.View(),
              Handling(SaveDelivery(contact, thread, message, Recorded(request, answer.response))),
              Noted(past, request.id), Using("", 0));
    }
    assert request.(requestUrl := request.requestUrl, requestPayload := request.requestPayload,
                    requestHeaders := request.requestHeaders) == request;
    var ok := DeliverAndRecord(store, receiver, request, request.requestUrl, request.requestPayload,
                               request.requestHeaders, answer);
    if !ok {
      assert store.View() == old(store.View());
      return Failed;
    }
    assert store.View() == old(store.View()).SaveDelivery(Recorded(request, answer.response));
    return Handled(contact, thread, message, false);
  }

  lemma TakeNew(outside: Outside, past: Past)
    requires New(outside, past)
    ensures NewIds([outside.contactId, outside.threadId], past)
  {
    var ids := Generated(outside);
    assert [outside.contactId, outside.threadId] == ids[..2];
  }

  lemma LaterNew(outside: Outside, past: Past, past1: Past)
    requires New(outside, past) && OnlyNotes(past, past1, {outside.contactId, outside.threadId})
    ensures NewIds([outside.messageId], past1) && NewIds([outside.request.id], NotedMessage(past1, outside.messageId))
    ensures outside.request.status == Pending && outside.request.attemptCount == 0
  {
    var ids := Generated(outside);
    assert ids[0] == outside.contactId && ids[1] == outside.threadId && ids[2] == outside.messageId;
    assert ids[3] == outside.request.id;
  }

  lemma RecordedIsCreated(config: Config, outside: Outside, o: Outcome, past: Past, past1: Past, db': Db, filed: Db,
                          c: Contact, t: Thread, m: Message)
    requires OnlyNotes(past, past1, {outside.contactId, outside.threadId}) && m.id == outside.messageId
    requires IsTold(config, outside, filed, c, t, m, db', o)
    ensures Creations(past, Noted(NotedMessage(past1, outside.messageId), outside.request.id), outside, o)
  {
  }

  lemma NothingIsCreated(config: Config, outside: Outside, o: Outcome, past: Past, past1: Past, log: seq<Attempt>)
    requires OnlyNotes(past, past1, {outside.contactId, outside.threadId})
    requires o.Failed? || (o.Handled? && o.duplicate)
    ensures Creations(past, past1, outside, o) && Notified(config, outside, o, log, log)
  {
  }

  /** inbound.Recorder.Record. */
  method RecordMail(store: Store, config: Config, processed: Processed, outside: Outside,
                    ghost from: Place, ghost past: Past)
    returns (thread: Thread, message: Message)
    requires Wired(store, config) && NewIds([outside.messageId], past)
    requires IsProcessed(config, store.View(), processed.work.receipt, outside.contactId, outside.threadId, processed)
    requires Stands(config, from, store.View(),
                    Handling(UpsertContact(processed.work, processed.resolution.thread)), past)
    modifies store
    ensures Wired(store, config) && message.id == outside.messageId
    ensures Stands(config, from, store.View(), Handling(Notify(processed.work.contact, thread, message)),
                   NotedMessage(past, outside.messageId))
    ensures IsRecorded(config, old(store.View()), processed.work.receipt, processed.work.parsed, outside,
                       processed.resolution, processed.work.contact, thread, message, store.View())
  {
    hide Stands, Store.View, Store.Valid, NewIds, IsSender, AnswersIfPresent, IsPointed, IsMailOf, IsFiled, IsPrepared,
         IsAdded, ParsedRaw, IsSaved;
    ghost var db, work := store.View(), processed.work;
    var saved := RecordThread(store, config, processed.work, processed.resolution.thread, from, past);
    ghost var db1 := store.View();
    thread, message := RecordMessage(store, config, processed.work, saved, outside.messageId, from, past);
    PreparedAndAdded(db, config.digest, work.contact, processed.resolution.thread, saved, db1, thread, message,
                     work.receipt.receivedAt, store.View());
  }

  /** InboundRuntimeService.HandleStoredMessage over inbound.Service.HandleStoredMessage. */
  method HandleStoredMessage(store: Store, receiver: Receiver, config: Config, receipt: Receipt, outside: Outside,
                             ghost from: Place, ghost past: Past)
    returns (outcome: Outcome, ghost past': Past)
    requires Wired(store, config) && New(outside, past)
    requires Stands(config, from, store.View(), Handling(ReadRaw(receipt)), past)
    modifies store, receiver
    ensures Wired(store, config)
    ensures Stands(config, from, store.View(), Done(outcome), past') && Creations(past, past', outside, outcome)
    ensures Notified(config, outside, outcome, old(receiver.log), receiver.log)
    ensures IsHandled(config, old(store.View()), receipt, outside, store.View(), outcome)
  {
    hide Stands, NewIds, Store.View, Store.Valid, New, IsSender, AnswersIfPresent, ParsedRaw, IsRecorded, IsTold,
         IsDuplicateOf, IsRepeated, Creations, Notified, OnlyNotes;
    TakeNew(outside, past);
    var processed, past1 := Process(store, config, receipt, outside.contactId, outside.threadId, from, past);
    past' := past1;
    if processed.None? {
      NothingIsCreated(config, outside, Failed, past, past1, receiver.log);
      return Failed, past1;
    }
    LaterNew(outside, past, past1);
    var existing := LookForDuplicate(store, config, processed.value, from, past1);
    if existing.Some? {
      outcome := AnswerDuplicate(store, config, existing.value, from, past1);
      NothingIsCreated(config, outside, outcome, past, past1, receiver.log);
      return;
    }
    ghost var work, resolution := processed.value.work, processed.value.resolution;
    ghost var db := store.View();
    var thread, message := RecordMail(store, config, processed.value, outside, from, past1);
    ghost var filed := store.View();
    outcome := NotifyReceived(store, receiver, config, processed.value.work.contact, thread, message, outside, from,
                              NotedMessage(past1, outside.messageId));
    past' := Noted(NotedMessage(past1, outside.messageId), outside.request.id);
    assert IsRecorded(config, db, receipt, work.parsed, outside, resolution, work.contact, thread, message, filed);
    RecordedIsCreated(config, outside, outcome, past, past1, store.View(), filed, work.contact, thread, message);
  }

  /** InboundReprocessService.ReprocessByObjectKey. */
  method ReprocessByObjectKey(store: Store, receiver: Receiver, config: Config, objectKey: string, outside: Outside,
                              ghost past: Past)
    returns (outcome: Outcome, ghost past': Past)
    requires Wired(store, config) && New(outside, past)
    modifies store, receiver
    ensures Wired(store, config)
    ensures Stands(config, Place(old(store.View()), Handling(LoadReceipt(objectKey)), past),
                   store.View(), Done(outcome), past') && Creations(past, past', outside, outcome)
    ensures Notified(config, outside, outcome, old(receiver.log), receiver.log)
    ensures var db := old(store.View());
            if objectKey in db.receipts
            then IsHandled(config, db, db.receipts[objectKey], outside, store.View(), outcome)
            else outcome == Failed && store.View() == db
  {
    hide Stands, Db.Keyed, NextReplying, NextUpdating, IsHandled;
    ghost var from := Place(store.View(), Handling(LoadReceipt(objectKey)), past);
    StandsAtStart(config, from);
    past' := past;
    Advance(config, from, from.db, from.pc, past, Using("", 0));
    if objectKey !in store.inboundReceiptsByKey {
      return Failed, past;
    }
    outcome, past' := HandleStoredMessage(
      store, receiver, config, store.inboundReceiptsByKey[objectKey], outside, from, past);
  }

  /** The raw bytes and the receipt are filed. */
  ghost function WithReceipt(db: Db, receipt: Receipt, data: string): Db {
    db.(raw := db.raw[receipt.rawKey := data], receipts := db.receipts[receipt.rawKey := receipt])
  }

  /** Session.Data's Put, then ReceiptHandlerSink.Enqueue: the receipt is saved before the message is handled. */
  method Receive(store: Store, receiver: Receiver, config: Config, receipt: Receipt, data: string, outside: Outside,
                 ghost past: Past)
    returns (outcome: Outcome, ghost past': Past)
    requires Wired(store, config) && New(outside, past)
    modifies store, receiver
    ensures Wired(store, config)
    ensures Stands(config, Place(old(store.View()), Handling(PutRaw(receipt, data)), past),
                   store.View(), Done(outcome), past') && Creations(past, past', outside, outcome)
    ensures Notified(config, outside, outcome, old(receiver.log), receiver.log)
    ensures IsHandled(config, WithReceipt(old(store.View()), receipt, data), receipt, outside, store.View(), outcome)
  {
    hide Stands, Db.Keyed, NextReplying, NextUpdating, IsHandled;
    ghost var from := Place(store.View(), Handling(PutRaw(receipt, data)), past);
    StandsAtStart(config, from);
    past' := past;
    Advance(config, from, from.db, from.pc, past, Using("", 0));
    store.Put(receipt.rawKey, data);
    Advance(config, from, store.View(), Handling(SaveReceipt(receipt)), past, Using("", 0));
    store.SaveInboundReceipt(receipt);
    outcome, past' := HandleStoredMessage(store, receiver, config, receipt, outside, from, past);
  }

  // ---------------------------------------------------------------- replies

  datatype Parties = Parties(organization: Organization, agent: Agent, inbox: Inbox)

  /** The defaults and the three configuration lookups of replyServiceAdapter.SendReply. */
  method LoadParties(store: Store, config: Config, input: ReplyInput, ghost from: Place, ghost past: Past)
    returns (r: Option<Parties>)
    requires Stands(config, from, store.View(), Replying(LoadConfig(input)), past)
    ensures r.None? ==> Stands(config, from, store.View(), Done(Failed), past)
    ensures r.Some? ==> Stands(config, from, store.View(), Replying(
                                  LoadThread(input, r.value.organization, r.value.agent, r.value.inbox)), past)
    ensures var organizationId := if input.organizationId == "" then "org-local" else input.organizationId;
            var agentId := if input.agentId == "" then "agent-local" else input.agentId;
            var inboxId := if input.inboxId == "" then "inbox-local" else input.inboxId;
            var db := store.View();
            if organizationId in db.organizations && agentId in db.agents && inboxId in db.inboxes
            then r == Some(Parties(db.organizations[organizationId], db.agents[agentId], db.inboxes[inboxId]))
            else r == None
  {
    hide Stands, NextHandling, NextUpdating, Db.PutRaw, Db.SaveThread, Db.Merged, Db.CreateMessage, Db.Suppressed,
         AfterCheck, AfterSubmissionLookup, OutboundMessage;
    var organizationId, agentId, inboxId := input.organizationId, input.agentId, input.inboxId;
    if organizationId == "" { organizationId := "org-local"; }
    if agentId == "" { agentId := "agent-local"; }
    if inboxId == "" { inboxId := "inbox-local"; }
    Advance(config, from, store.View(), Replying(LoadConfig(input)), past, Using("", 0));
    if organizationId !in store.organizationsById || agentId !in store.agentsById || inboxId !in store.inboxesById {
      return None;
    }
    return Some(Parties(store.organizationsById[organizationId], store.agentsById[agentId],
                        store.inboxesById[inboxId]));
  }

  /** Thread, contact and target, one lookup after the other; at the first that fails the reply fails. */
  lemma ContextSteps(config: Config, from: Place, db: Db, input: ReplyInput, p: Parties, past: Past)
    requires Stands(config, from, db, Replying(LoadThread(input, p.organization, p.agent, p.inbox)), past)
    ensures input.threadId !in db.threads ==> Stands(config, from, db, Done(Failed), past)
    ensures input.threadId in db.threads ==>
              var t := db.threads[input.threadId];
              var id := OrDefault(input.contactId, t.contactId);
              if id in db.contacts && input.targetId in db.messages
              then Stands(config, from, db,
                          Replying(CheckSuppression(Context(input, p.organization, p.agent, p.inbox, t, db.contacts[id],
                                                            db.messages[input.targetId]))), past)
              else Stands(config, from, db, Done(Failed), past)
  {
    hide Stands, NextHandling, NextUpdating, Db.PutRaw, Db.SaveThread, Db.Merged, Db.CreateMessage, Db.Suppressed,
         AfterCheck, AfterSubmissionLookup, OutboundMessage, OrDefault;
    var Parties(o, a, i) := p;
    Advance(config, from, db, Replying(LoadThread(input, o, a, i)), past, Using("", 0));
    if input.threadId in db.threads {
      var t := db.threads[input.threadId];
      var id := OrDefault(input.contactId, t.contactId);
      Advance(config, from, db, Replying(LoadContact(input, o, a, i, t)), past, Using("", 0));
      if id in db.contacts {
        Advance(config, from, db, Replying(LoadTarget(input, o, a, i, t, db.contacts[id])), past, Using("", 0));
      }
    }
  }

  /** replyServiceAdapter.SendReply up to the call of outbound.Service: the lookups that make the context. */
  method LoadReplyContext(store: Store, config: Config, input: ReplyInput, ghost from: Place, ghost past: Past)
    returns (r: Option<Context>)
    requires Stands(config, from, store.View(), Replying(LoadConfig(input)), past)
    ensures r.None? ==> Stands(config, from, store.View(), Done(Failed), past)
    ensures r.Some? ==> Stands(config, from, store.View(), Replying(CheckSuppression(r.value)), past)
    ensures r.Some? ==> IsContextOf(store.View(), input, r.value)
    ensures r.None? ==> forall x :: !IsContextOf(store.View(), input, x)
  {
    hide Stands;
    var parties := LoadParties(store, config, input, from, past);
    if parties.None? {
      return None;
    }
    var Parties(o, a, i) := parties.value;
    ContextSteps(config, from, store.View(), input, parties.value, past);
    if input.threadId !in store.threadsById {
      return None;
    }
    var thread := store.threadsById[input.threadId];
    var contactId := input.contactId;
    if contactId == "" { contactId := thread.contactId; }
    if contactId !in store.contactsById {
      return None;
    }
    var contact := store.contactsById[contactId];
    if input.targetId !in store.messagesById {
      return None;
    }
    return Some(Context(input, o, a, i, thread, contact, store.messagesById[input.targetId]));
  }

  lemma QueueSteps(config: Config, from: Place, db: Db, x: Context, reply: Reply, queuedAt: Time, past: Past,
                   messageId: Id)
    requires Stands(config, from, db, Replying(PutReply(x, reply, queuedAt)), past) && NewIds([messageId], past)
    ensures var m := OutboundMessage(x, reply, queuedAt, messageId);
            Stands(config, from, db.PutRaw(x.input.objectKey, reply.rawMime).CreateMessage(config.digest, m),
                   Replying(SaveReplyThread(x, reply, m)), NotedMessage(past, messageId))
  {
    hide Stands, Db.PutRaw, Db.SaveThread, Db.Merged, Db.CreateMessage, Db.Suppressed, AfterCheck,
         AfterSubmissionLookup, NextHandling, NextUpdating, OutboundMessage;
    Advance(config, from, db, Replying(PutReply(x, reply, queuedAt)), past, Using("", 0));
    assert [messageId][0] == messageId;
    Advance(config, from, db.PutRaw(x.input.objectKey, reply.rawMime), Replying(CreateReply(x, reply, queuedAt)), past,
            Using(messageId, 0));
  }

  lemma ReplyThreadStep(config: Config, from: Place, db: Db, x: Context, reply: Reply, m: Message, past: Past)
    requires Stands(config, from, db, Replying(SaveReplyThread(x, reply, m)), past)
    ensures var t := RepliedThread(x.thread, m.id, m.createdAt);
            Stands(config, from, db.SaveThread(t), Replying(Send(x, db.Merged(t), m)), past)
  {
    hide Stands, Db.PutRaw, Db.SaveThread, Db.Merged, Db.CreateMessage, Db.Suppressed, AfterCheck,
         AfterSubmissionLookup, NextHandling, NextUpdating, OutboundMessage, RepliedThread;
    Advance(config, from, db, Replying(SaveReplyThread(x, reply, m)), past, Using("", 0));
  }

  /** outbound.Recorder.RecordQueuedReply: raw bytes, message, thread. */
  method RecordQueuedReply(store: Store, config: Config, x: Context, reply: Reply, queuedAt: Time, messageId: Id,
                           ghost from: Place, ghost past: Past)
    returns (thread: Thread, queued: Message)
    requires Wired(store, config) && NewIds([messageId], past)
    requires Stands(config, from, store.View(), Replying(PutReply(x, reply, queuedAt)), past)
    modifies store
    ensures Wired(store, config)
    ensures Stands(config, from, store.View(), Replying(Send(x, thread, queued)), NotedMessage(past, messageId))
    ensures queued.id == messageId && IsReplyIn(queued, x, reply.metadata, queuedAt) && IsQueued(queued)
    ensures IsPointed(old(store.View()).threads, x.thread, x.thread.lastInboundId, queued.id, queuedAt, thread)
    ensures IsReplyFiled(old(store.View()), config.digest, x.input.objectKey, reply.rawMime, thread, queued,
                         store.View())
    ensures store.View().submissions == old(store.View()).submissions
  {
    hide Stands, Db.PutRaw, Db.SaveThread, Db.Merged, Db.CreateMessage, OutboundMessage, RepliedThread, NewIds,
         Store.View, Store.Valid, IsReplyFiled, IsPointed, IsWritten, IsListed, IsSaved;
    ghost var db := store.View();
    QueueSteps(config, from, db, x, reply, queuedAt, past, messageId);
    store.Put(x.input.objectKey, reply.rawMime);
    queued := OutboundMessage(x, reply, queuedAt, messageId);
    OutboundCarriesReply(x, reply, queuedAt, messageId);
    store.Create(queued);
    ReplyThreadStep(config, from, store.View(), x, reply, queued, NotedMessage(past, messageId));
    thread := x.thread.(lastOutboundId := queued.id);
    thread := thread.(lastActivityAt := queuedAt);
    thread := thread.(updatedAt := queuedAt);
    RepliedByField(x.thread, messageId, queuedAt);
    QueuedByField(db, config.digest, x.input.objectKey, reply.rawMime, queued, x.thread, queuedAt, thread);
    thread := store.Save(thread);
  }

  lemma SentStep(config: Config, from: Place, db: Db, x: Context, t: Thread, m: Message, sent: SendResult, past: Past)
    requires Stands(config, from, db, Replying(RecordSent(x, t, m, sent)), past)
    ensures var recorded := SentMessage(m, sent);
            Stands(config, from, db.SaveMessage(config.digest, recorded),
                   if x.input.idempotencyKey == "" then Done(Replied(x.input, t, recorded, sent))
                   else Replying(SaveSubmission(x, t, recorded, sent)), past)
  {
    hide Stands, Db.PutRaw, Db.SaveMessage, Db.SaveThread, Db.Merged, Db.CreateMessage, Db.Suppressed, AfterCheck,
         AfterSubmissionLookup, NextHandling, NextUpdating, OutboundMessage, SentMessage;
    Advance(config, from, db, Replying(RecordSent(x, t, m, sent)), past, Using("", 0));
  }

  lemma SubmissionStep(
      config: Config, from: Place, db: Db, x: Context, t: Thread, m: Message, sent: SendResult, past: Past)
    requires Stands(config, from, db, Replying(SaveSubmission(x, t, m, sent)), past)
    ensures var key := ReplySubmissionKey(config.digest, x.input.threadId, x.input.idempotencyKey);
            Stands(config, from, db.SaveSubmission(key, m.id), Done(Replied(x.input, t, m, sent)), past)
  {
    hide Stands, Db.PutRaw, Db.SaveMessage, Db.SaveThread, Db.Merged, Db.CreateMessage, Db.Suppressed, AfterCheck,
         AfterSubmissionLookup, NextHandling, NextUpdating, OutboundMessage, Db.SaveSubmission;
    Advance(config, from, db, Replying(SaveSubmission(x, t, m, sent)), past, Using("", 0));
  }

  /** The submission key leads to the sent message, if there is a key. */
  ghost predicate IsSubmitted(config: Config, db: Db, input: ReplyInput, messageId: Id, db': Db) {
    if input.idempotencyKey == "" then db'.submissions == db.submissions
    else db'.submissions == db.submissions[
                              ReplySubmissionKey(config.digest, input.threadId, input.idempotencyKey) := messageId]
  }

  /** StatusRecorder.RecordSent, then the adapter's SaveReplySubmission. */
  method RecordSentReply(store: Store, config: Config, x: Context, thread: Thread, queued: Message, sent: SendResult,
                         ghost from: Place, ghost past: Past, ghost db: Db, ghost raw: string)
    returns (outcome: Outcome)
    requires Wired(store, config) && IsQueued(queued)
    requires IsReplyFiled(db, config.digest, x.input.objectKey, raw, thread, queued, store.View())
    requires Stands(config, from, store.View(), Replying(RecordSent(x, thread, queued, sent)), past)
    modifies store
    ensures Wired(store, config)
    ensures Stands(config, from, store.View(), Done(outcome), past)
    ensures outcome.Replied? && outcome == Replied(x.input, thread, outcome.message, sent)
    ensures IsSent(outcome.message, sent)
    ensures outcome.message == queued.(deliveryState := outcome.message.deliveryState,
                                       providerMessageId := outcome.message.providerMessageId,
                                       sentAt := outcome.message.sentAt)
    ensures IsReplyFiled(db, config.digest, x.input.objectKey, raw, thread, outcome.message, store.View())
    ensures IsSubmitted(config, old(store.View()), x.input, queued.id, store.View())
  {
    hide Stands, Db.SaveMessage, Store.View, Store.Valid, IsReplyFiled, IsWritten, SentMessage;
    SentStep(config, from, store.View(), x, thread, queued, sent, past);
    var message := queued.(deliveryState := Sent);
    message := message.(providerMessageId := sent.providerMessageId);
    message := message.(sentAt := sent.acceptedAt);
    SentMessageByField(queued, sent);
    SentByField(db, config.digest, x.input.objectKey, raw, thread, queued, message, store.View());
    store.SaveMessage(message);
    if x.input.idempotencyKey != "" {
      SubmissionStep(config, from, store.View(), x, thread, message, sent, past);
      var key := ReplySubmissionKey(config.digest, x.input.threadId, x.input.idempotencyKey);
      SubmittedKeepsFiled(db, config.digest, x.input.objectKey, raw, thread, message, store.View(), key, message.id);
      store.SaveReplySubmission(key, message.id);
    }
    return Replied(x.input, thread, message, sent);
  }

  /** What one reply takes from outside: ids, the clock, and the provider's answer. */
  datatype ReplyOutside = ReplyOutside(messageId: Id, header: string, now: Time, sent: Option<SendResult>)

  /** One message is created and at most one send accepted, for a reply that is not answered from an earlier send. */
  predicate Sends(past: Past, past': Past, input: ReplyInput, outside: ReplyOutside, outcome: Outcome) {
    var queued := NotedMessage(past, outside.messageId);
    || past' == past
    || (past' == queued && outside.sent.None? && outcome.Failed?)
    || (&& outside.sent.Some?
        && past' == queued.(dispatched := past.dispatched + [Dispatch(input, outside.messageId, outside.sent.value)])
        && outcome.Replied? && outcome.message.id == outside.messageId && outcome.sent == outside.sent.value)
  }

  /** The reply is filed, and accepted unless the provider refused it. */
  ghost predicate IsReplied(
      config: Config, db: Db, x: Context, outside: ReplyOutside, t: Thread, m: Message, raw: string, db': Db,
      o: Outcome)
  {
    && m.id == outside.messageId
    && IsReplyIn(m, x, Linkage(config.fold, x.target, outside.header), outside.now)
    && IsPointed(db.threads, x.thread, x.thread.lastInboundId, m.id, outside.now, t)
    && IsReplyText(config.fold, x, outside.header, raw)
    && IsReplyFiled(db, config.digest, x.input.objectKey, raw, t, m, db')
    && (match outside.sent
        case None => IsQueued(m) && db'.submissions == db.submissions && o == Failed
        case Some(sent) =>
          IsSent(m, sent) && IsSubmitted(config, db, x.input, m.id, db') && o == Replied(x.input, t, m, sent))
  }

  /** What a reply with its context comes to: nothing unless it is deliverable, and else it is filed and sent. */
  ghost predicate IsAnswered(config: Config, db: Db, x: Context, outside: ReplyOutside, db': Db, o: Outcome) {
    if !IsDeliverable(db, x) then o == Failed && db' == db
    else exists t, m, raw :: IsReplied(config, db, x, outside, t, m, raw, db', o)
  }

  lemma CheckStep(config: Config, from: Place, db: Db, x: Context, past: Past, outside: ReplyOutside)
    requires Stands(config, from, db, Replying(CheckSuppression(x)), past)
    ensures var reply := AssembleReply(config.fold, x.inbox, x.contact, x.target, x.input.bodyText, outside.header);
            Stands(config, from, db,
                   if db.Suppressed(x.organization.id, x.contact.emailAddress) || reply.None? || x.input.objectKey == ""
                   then Done(Failed) else Replying(PutReply(x, reply.value, outside.now)), past)
  {
    hide Stands, Db.Keyed, AssembleReply, NextHandling, NextUpdating, Db.Suppressed;
    Advance(config, from, db, Replying(CheckSuppression(x)), past, Using("", outside.now).(header := outside.header));
  }

  lemma SendStep(config: Config, from: Place, db: Db, x: Context, t: Thread, m: Message, past: Past,
                 sent: Option<SendResult>)
    requires Stands(config, from, db, Replying(Send(x, t, m)), past)
    ensures sent.None? ==> Stands(config, from, db, Done(Failed), past)
    ensures sent.Some? ==>
              Stands(config, from, db, Replying(RecordSent(x, t, m, sent.value)),
                     past.(dispatched := past.dispatched + [Dispatch(x.input, m.id, sent.value)]))
  {
    hide Stands, Db.Keyed, AssembleReply, NextHandling, NextUpdating, Db.Suppressed;
    Advance(config, from, db, Replying(Send(x, t, m)), past, Using("", 0).(sent := sent));
  }

  /** The listed reasons not to write are exactly the ones that stop a reply. */
  lemma DeliverableByField(config: Config, db: Db, x: Context, generated: string)
    ensures IsDeliverable(db, x) <==>
              && !db.Suppressed(x.organization.id, x.contact.emailAddress) && x.input.objectKey != ""
              && AssembleReply(config.fold, x.inbox, x.contact, x.target, x.input.bodyText, generated).Some?
  {
    hide AssembleReply;
    AssembledByField(config.fold, x, generated);
  }

  /** outbound.Service.SendReply within the adapter, in the order check, assemble, queue, send, record. */
  method SendAssembled(store: Store, config: Config, x: Context, outside: ReplyOutside,
                       ghost from: Place, ghost past: Past)
    returns (outcome: Outcome, ghost past': Past)
    requires Wired(store, config) && NewIds([outside.messageId], past)
    requires Stands(config, from, store.View(), Replying(CheckSuppression(x)), past)
    modifies store
    ensures Wired(store, config)
    ensures Stands(config, from, store.View(), Done(outcome), past') && Sends(past, past', x.input, outside, outcome)
    ensures outcome.Replied? ==> past' != past
    ensures IsAnswered(config, old(store.View()), x, outside, store.View(), outcome)
  {
    hide Stands, AssembleReply, NewIds, Store.View, Store.Valid, IsDeliverable, IsReplyIn, IsPointed, IsReplyText,
         IsReplyFiled, Linkage, Db.Suppressed;
    ghost var db := store.View();
    CheckStep(config, from, db, x, past, outside);
    DeliverableByField(config, db, x, outside.header);
    AssembledByField(config.fold, x, outside.header);
    var suppressed := store.IsSuppressed(x.organization.id, x.contact.emailAddress);
    if suppressed {
      return Failed, past;
    }
    var reply := AssembleReply(config.fold, x.inbox, x.contact, x.target, x.input.bodyText, outside.header);
    if reply.None? {
      return Failed, past;
    }
    if x.input.objectKey == "" {
      return Failed, past;
    }
    var thread, queued := RecordQueuedReply(store, config, x, reply.value, outside.now, outside.messageId,
                                            from, past);
    past' := NotedMessage(past, outside.messageId);
    SendStep(config, from, store.View(), x, thread, queued, past', outside.sent);
    if outside.sent.None? {
      assert IsReplied(config, db, x, outside, thread, queued, reply.value.rawMime, store.View(), Failed);
      return Failed, past';
    }
    past' := past'.(dispatched := past'.dispatched + [Dispatch(x.input, outside.messageId, outside.sent.value)]);
    ghost var queuedDb := store.View();
    outcome := RecordSentReply(store, config, x, thread, queued, outside.sent.value, from, past', db,
                               reply.value.rawMime);
    StateApart(queued, outcome.message, x, reply.value.metadata, outside.now);
    assert IsReplied(config, db, x, outside, thread, outcome.message, reply.value.rawMime, store.View(), outcome);
  }

  /** The answer for a key that leads to this message: the message and its send, or a failure without the thread. */
  ghost predicate IsAnsweredBefore(db: Db, input: ReplyInput, m: Message, o: Outcome) {
    if input.threadId in db.threads
    then o == Replied(input, db.threads[input.threadId], m, SendResult(m.providerMessageId, m.sentAt))
    else o == Failed
  }

  /** The stored message that the input's thread and key lead to. */
  ghost predicate IsSubmissionOf(config: Config, db: Db, input: ReplyInput, m: Option<Message>) {
    var key := ReplySubmissionKey(config.digest, input.threadId, input.idempotencyKey);
    if input.idempotencyKey != "" && key in db.submissions && db.submissions[key] in db.messages
    then m == Some(db.messages[db.submissions[key]])
    else m == None
  }

  /**
   What a reply comes to: the answer of the message its key leads to, nothing without its context, and else what
   the context allows.
   */
  ghost predicate IsReply(config: Config, db: Db, input: ReplyInput, outside: ReplyOutside, db': Db, o: Outcome) {
    || (exists m :: IsSubmissionOf(config, db, input, Some(m)) && IsAnsweredBefore(db, input, m, o) && db' == db)
    || (&& IsSubmissionOf(config, db, input, None)
        && ((forall x :: !IsContextOf(db, input, x)) ==> o == Failed && db' == db)
        && forall x :: IsContextOf(db, input, x) ==> IsAnswered(config, db, x, outside, db', o))
  }

  /** The adapter's lookup by idempotency key. */
  method LookForSubmission(store: Store, config: Config, input: ReplyInput, ghost from: Place, ghost past: Past)
    returns (existing: Option<Message>)
    requires Wired(store, config)
    requires Stands(config, from, store.View(), Replying(FindSubmission(input)), past)
    ensures IsSubmissionOf(config, store.View(), input, existing)
    ensures Stands(config, from, store.View(),
                   Replying(match existing
                            case Some(m) => LoadRepliedThread(input, m)
                            case None => LoadConfig(input)), past)
  {
    hide Stands, Db.Keyed, NextHandling, NextUpdating;
    Advance(config, from, store.View(), Replying(FindSubmission(input)), past, Using("", 0));
    if input.idempotencyKey == "" {
      return None;
    }
    var key := ReplySubmissionKey(config.digest, input.threadId, input.idempotencyKey);
    existing := store.FindReplyBySubmissionKey(key);
  }

  /** The adapter's answer from an earlier send. */
  method AnswerReplied(store: Store, config: Config, input: ReplyInput, existing: Message, ghost from: Place,
                       ghost past: Past)
    returns (outcome: Outcome)
    requires Stands(config, from, store.View(), Replying(LoadRepliedThread(input, existing)), past)
    ensures Stands(config, from, store.View(), Done(outcome), past)
    ensures IsAnsweredBefore(store.View(), input, existing, outcome)
  {
    hide Stands, NextHandling, NextUpdating;
    Advance(config, from, store.View(), Replying(LoadRepliedThread(input, existing)), past, Using("", 0));
    if input.threadId !in store.threadsById {
      return Failed;
    }
    return Replied(input, store.threadsById[input.threadId], existing,
                   SendResult(existing.providerMessageId, existing.sentAt));
  }

  /** replyServiceAdapter.SendReply. */
  method SendReply(store: Store, config: Config, input: ReplyInput, outside: ReplyOutside, ghost past: Past)
    returns (outcome: Outcome, ghost past': Past)
    requires Wired(store, config) && NewIds([outside.messageId], past)
    modifies store
    ensures Wired(store, config)
    ensures Stands(config, Place(old(store.View()), Replying(FindSubmission(input)), past),
                   store.View(), Done(outcome), past') && Sends(past, past', input, outside, outcome)
    ensures IsReply(config, old(store.View()), input, outside, store.View(), outcome)
  {
    hide Stands, Store.View, Store.Valid, IsAnswered, IsSubmissionOf, IsContextOf;
    ghost var from := Place(store.View(), Replying(FindSubmission(input)), past);
    StandsAtStart(config, from);
    past' := past;
    var existing := LookForSubmission(store, config, input, from, past);
    if existing.Some? {
      outcome := AnswerReplied(store, config, input, existing.value, from, past);
      return;
    }
    var x := LoadReplyContext(store, config, input, from, past);
    if x.None? {
      return Failed, past;
    }
    OneContext(store.View(), input, x.value);
    outcome, past' := SendAssembled(store, config, x.value, outside, from, past);
  }

  // ---------------------------------------------------------------- callbacks and escalation

  lemma StatusSteps(config: Config, from: Place, db: Db, cb: Callback, past: Past)
    requires Stands(config, from, db, Updating(FindProviderMessage(cb)), past)
    ensures cb.providerMessageId !in db.byProvider ==> Stands(config, from, db, Done(Failed), past)
    ensures cb.providerMessageId in db.byProvider ==>
              var confirmed := ConfirmedMessage(db.byProvider[cb.providerMessageId], cb.status, cb.occurredAt);
              Stands(config, from, db.SaveMessage(config.digest, confirmed),
                     if Suppresses(cb.status) then Updating(SaveSuppression(cb, confirmed))
                     else Done(Confirmed(confirmed, None)), past)
  {
    hide Stands, Db.Keyed, NextHandling, NextReplying, Db.SaveMessage, Db.SaveThread, Db.Merged;
    Advance(config, from, db, Updating(FindProviderMessage(cb)), past, Using("", 0));
    if cb.providerMessageId in db.byProvider {
      Advance(config, from, db, Updating(SaveStatus(cb, db.byProvider[cb.providerMessageId])), past, Using("", 0));
    }
  }

  lemma SuppressionStep(config: Config, from: Place, db: Db, cb: Callback, m: Message, past: Past, id: Id)
    requires Stands(config, from, db, Updating(SaveSuppression(cb, m)), past) && NewIds([id], past)
    ensures var s := SuppressionOf(cb, m, id);
            Stands(config, from, db.SaveSuppression(s), Done(Confirmed(m, Some(s))), Noted(past, id))
  {
    hide Stands, Db.Keyed, NextHandling, NextReplying, Db.SaveMessage, Db.SaveThread, Db.Merged;
    assert [id][0] == id;
    Advance(config, from, db, Updating(SaveSuppression(cb, m)), past, Using(id, 0));
  }

  /** CallbackFlow.Apply: the status first, then the suppression. */
  method ApplyCallback(store: Store, config: Config, cb: Callback, suppressionId: Id, ghost past: Past)
    returns (outcome: Outcome, ghost past': Past)
    requires Wired(store, config) && NewIds([suppressionId], past)
    modifies store
    ensures Wired(store, config)
    ensures Stands(config, Place(old(store.View()), Updating(FindProviderMessage(cb)), past),
                   store.View(), Done(outcome), past')
    ensures past' == if outcome.Confirmed? && outcome.suppression.Some? then Noted(past, suppressionId) else past
    ensures IsApplied(old(store.View()), config.digest, cb, suppressionId, store.View(), outcome)
    ensures outcome.Confirmed? ==> (outcome.suppression.Some? <==> Suppresses(cb.status))
    ensures outcome.Confirmed? && Suppresses(cb.status) ==>
              store.View().Suppressed(outcome.message.organizationId, cb.email)
  {
    hide Stands, Db.Keyed, Db.SaveMessage, IsWritten;
    ghost var from := Place(store.View(), Updating(FindProviderMessage(cb)), past);
    StandsAtStart(config, from);
    StatusSteps(config, from, from.db, cb, past);
    past' := past;
    if cb.providerMessageId !in store.messagesByProviderId {
      return Failed, past;
    }
    var found := store.messagesByProviderId[cb.providerMessageId];
    ConfirmedByField(from.db, config.digest, found, cb);
    var message := found.(deliveryState := cb.status);
    if cb.status == Delivered {
      message := message.(deliveredAt := cb.occurredAt);
    } else {
      message := message.(bouncedAt := cb.occurredAt);
    }
    store.SaveMessage(message);
    if cb.status != HardBounce && cb.status != Complaint {
      return Confirmed(message, None), past;
    }
    SuppressionStep(config, from, store.View(), cb, message, past, suppressionId);
    var record := Suppression(suppressionId, message.organizationId, cb.email, cb.status, cb.occurredAt, cb.occurredAt);
    SuppressionKeepsWritten(from.db, config.digest, message, store.View(), record);
    store.SaveSuppression(record);
    assert suppressionId in store.View().suppressions;
    return Confirmed(message, Some(record)), Noted(past, suppressionId);
  }

  /** threadEscalationServiceAdapter.EscalateThread over ThreadEscalationService. */
  method EscalateThread(store: Store, config: Config, threadId: Id, now: Time, ghost past: Past)
    returns (outcome: Outcome)
    requires Wired(store, config)
    modifies store
    ensures Wired(store, config)
    ensures Stands(config, Place(old(store.View()), Updating(LoadEscalated(threadId)), past),
                   store.View(), Done(outcome), past)
    ensures IsEscalated(old(store.View()), threadId, now, store.View(), outcome)
  {
    hide Stands, Db.Keyed, NextHandling, NextReplying, Db.SaveMessage, Db.SaveThread, Db.Merged;
    ghost var from := Place(store.View(), Updating(LoadEscalated(threadId)), past);
    StandsAtStart(config, from);
    Advance(config, from, from.db, from.pc, past, Using("", 0));
    if threadId !in store.threadsById {
      return Failed;
    }
    Advance(config, from, store.View(), Updating(SaveEscalated(threadId)), past, Using("", now));
    EscalatedByField(store.View(), threadId, now);
    var saved := store.Save(Thread(threadId, "", "", "", "", "", Escalated, "", "", ZERO_TIME, ZERO_TIME, now));
    return EscalatedThread(saved);
  }
}
