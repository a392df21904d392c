/**
 The runtime as a transition system. A process is one workflow call; a step is one store call, or one
 call to the email provider or the webhook receiver, or a piece of local work between two such calls.
 */
module Machine {
  import opened Domain
  import opened Keys
  import opened Tables
  import opened Threading
  import opened Attempts
  import opened Assembler

  /** The uninterpreted parts: the digest, the message parser and the lower-casing table; and configuration. */
  datatype Env = Env(
    digest: string -> string,
    parse: string -> Option<ParsedMessage>,
    fold: char -> char,
    threshold: int,
    notifies: bool)

  datatype Work = Work(receipt: Receipt, parsed: ParsedMessage, contact: Contact)

  datatype ReplyInput = ReplyInput(
    organizationId: Id, agentId: Id, inboxId: Id, threadId: Id, contactId: Id, targetId: Id,
    bodyText: string, objectKey: string, idempotencyKey: string)

  datatype Context = Context(
    input: ReplyInput, organization: Organization, agent: Agent, inbox: Inbox,
    thread: Thread, contact: Contact, target: Message)

  datatype SendResult = SendResult(providerMessageId: string, acceptedAt: Time)

  datatype Callback = Callback(providerMessageId: string, status: CallbackStatus, occurredAt: Time, email: string)

  datatype Outcome =
    | Failed
    | Handled(contact: Contact, thread: Thread, message: Message, duplicate: bool)
    | Replied(input: ReplyInput, thread: Thread, message: Message, sent: SendResult)
    | Confirmed(message: Message, suppression: Option<Suppression>)
    | EscalatedThread(thread: Thread)

  /** Where an inbound message's handling stands: the call made next, with the locals still needed. */
  datatype HandlePc =
    // Session.Data and ReceiptHandlerSink.Enqueue
    | PutRaw(receipt: Receipt, data: string)
    | SaveReceipt(receipt: Receipt)
    // InboundReprocessService.ReprocessByObjectKey
    | LoadReceipt(objectKey: string)
    // Processor.Process
    | ReadRaw(receipt: Receipt)
    | FindContact(receipt: Receipt, parsed: ParsedMessage)
    | FindLink(work: Work, k: nat)
    | FindSubject(work: Work)
    // inbound.Service.HandleStoredMessage
    | FindDuplicate(work: Work, resolved: Thread)
    | LoadDuplicateThread(existing: Message)
    | LoadDuplicateContact(existing: Message, loaded: Thread)
    // inbound.Recorder.Record
    | UpsertContact(work: Work, resolved: Thread)
    | SaveThread(work: Work, resolved: Thread)
    | CreateInbound(work: Work, saved: Thread)
    | TouchThread(work: Work, saved: Thread, created: Message)
    // InboundRuntimeService.HandleStoredMessage, after recording
    | Notify(contact: Contact, thread: Thread, created: Message)
    | SaveDelivery(contact: Contact, thread: Thread, created: Message, delivery: Delivery)

  datatype ReplyPc =
    // replyServiceAdapter.SendReply
    | FindSubmission(input: ReplyInput)
    | LoadRepliedThread(input: ReplyInput, existing: Message)
    | LoadConfig(input: ReplyInput)
    | LoadThread(input: ReplyInput, organization: Organization, agent: Agent, inbox: Inbox)
    | LoadContact(input: ReplyInput, organization: Organization, agent: Agent, inbox: Inbox, thread: Thread)
    | LoadTarget(input: ReplyInput, organization: Organization, agent: Agent, inbox: Inbox, thread: Thread,
                 contact: Contact)
    // outbound.Service.SendReply
    | CheckSuppression(context: Context)
    | PutReply(context: Context, reply: Reply, queuedAt: Time)
    | CreateReply(context: Context, reply: Reply, queuedAt: Time)
    | SaveReplyThread(context: Context, reply: Reply, queued: Message)
    | Send(context: Context, thread: Thread, queued: Message)
    | RecordSent(context: Context, thread: Thread, queued: Message, sent: SendResult)
    // replyServiceAdapter.SendReply again
    | SaveSubmission(context: Context, thread: Thread, recorded: Message, sent: SendResult)

  datatype UpdatePc =
    // CallbackFlow.Apply
    | FindProviderMessage(callback: Callback)
    | SaveStatus(callback: Callback, found: Message)
    | SaveSuppression(callback: Callback, confirmed: Message)
    // EscalateThread
    | LoadEscalated(threadId: Id)
    | SaveEscalated(threadId: Id)

  datatype Pc =
    | Handling(handle: HandlePc)
    | Replying(reply: ReplyPc)
    | Updating(update: UpdatePc)
    | Done(outcome: Outcome)

  /** What a step takes from outside: generated ids, clock readings, and the answers of scans and peers. */
  datatype Choice = Choice(
    id: Id,
    now: Time,
    header: string,
    found: Option<Thread>,
    sent: Option<SendResult>,
    request: Delivery,
    response: Option<Response>)

  datatype Moved = Moved(db: Db, pc: Pc)

  // ---------------------------------------------------------------- the local pieces of the workflows

  function ThreadInputOf(w: Work): ThreadInput {
    ThreadInput(w.receipt.organizationId, w.receipt.agentId, w.receipt.inboxId, w.contact.id, w.parsed,
                w.receipt.receivedAt)
  }

  /** contacts.Resolver: the stored contact brought up to date, or a new one. */
  function ResolvedContact(db: Db, receipt: Receipt, parsed: ParsedMessage, freshId: Id): Contact {
    if parsed.from.email in db.contactsByEmail then
      var existing := db.contactsByEmail[parsed.from.email];
      existing.(displayName := if parsed.from.displayName != "" then parsed.from.displayName
                               else existing.displayName,
                lastSeenAt := receipt.receivedAt,
                updatedAt := receipt.receivedAt)
    else
      Contact(freshId, receipt.organizationId, parsed.from.email, parsed.from.displayName,
              receipt.receivedAt, receipt.receivedAt, receipt.receivedAt)
  }

  function InboundMessage(w: Work, saved: Thread, id: Id): Message {
    Message(id, w.receipt.organizationId, saved.id, w.receipt.inboxId, w.contact.id, Inbound,
            w.parsed.subject, w.parsed.subjectNormalized, w.parsed.messageIdHeader, w.parsed.inReplyTo,
            w.parsed.references, w.parsed.textBody, w.parsed.htmlBody, w.receipt.rawKey,
            NoState, "", ZERO_TIME, ZERO_TIME, ZERO_TIME, w.receipt.receivedAt)
  }

  function Touched(t: Thread, messageId: Id, at: Time): Thread {
    t.(lastInboundId := messageId, lastActivityAt := at, updatedAt := at)
  }

  function OutboundMessage(x: Context, reply: Reply, queuedAt: Time, id: Id): Message {
    Message(id, x.organization.id, x.thread.id, x.inbox.id, x.contact.id, Outbound,
            reply.metadata.subject, "", reply.metadata.messageIdHeader, reply.metadata.inReplyTo,
            reply.metadata.references, x.input.bodyText, "", x.input.objectKey,
            Queued, "", ZERO_TIME, ZERO_TIME, ZERO_TIME, queuedAt)
  }

  function RepliedThread(t: Thread, messageId: Id, at: Time): Thread {
    t.(lastOutboundId := messageId, lastActivityAt := at, updatedAt := at)
  }

  function SentMessage(m: Message, r: SendResult): Message {
    m.(deliveryState := Sent, providerMessageId := r.providerMessageId, sentAt := r.acceptedAt)
  }

  function ConfirmedMessage(m: Message, status: CallbackStatus, at: Time): Message {
    m.(deliveryState := status,
       deliveredAt := if status == Delivered then at else m.deliveredAt,
       bouncedAt := if status == Delivered then m.bouncedAt else at)
  }

  predicate Suppresses(status: DeliveryState) {
    status.HardBounce? || status.Complaint?
  }

  function SuppressionOf(cb: Callback, m: Message, id: Id): Suppression {
    Suppression(id, m.organizationId, cb.email, cb.status, cb.occurredAt, cb.occurredAt)
  }

  function OrDefault(id: Id, default: Id): Id {
    if id == "" then default else id
  }

  function ReplyKey(env: Env, input: ReplyInput): string {
    ReplySubmissionKey(env.digest, input.threadId, input.idempotencyKey)
  }

  function AfterSubmissionLookup(input: ReplyInput, existing: Option<Message>): Pc {
    match existing
    case Some(m) => Replying(LoadRepliedThread(input, m))
    case None => Replying(LoadConfig(input))
  }

  function AfterCheck(env: Env, x: Context, c: Choice): Pc {
    var reply := AssembleReply(env.fold, x.inbox, x.contact, x.target, x.input.bodyText, c.header);
    if reply.None? || x.input.objectKey == "" then Done(Failed) else Replying(PutReply(x, reply.value, c.now))
  }

  // ---------------------------------------------------------------- one step of one process

  ghost function NextHandling(env: Env, db: Db, pc: HandlePc, c: Choice): Moved {
    match pc
    case PutRaw(r, data) => Moved(db.PutRaw(r.rawKey, data), Handling(SaveReceipt(r)))
    case SaveReceipt(r) => Moved(db.SaveReceipt(r), Handling(ReadRaw(r)))
    case LoadReceipt(key) =>
      Moved(db, if key in db.receipts then Handling(ReadRaw(db.receipts[key])) else Done(Failed))
    case ReadRaw(r) =>
      var parsed := if r.rawKey in db.raw then env.parse(db.raw[r.rawKey]) else None;
      Moved(db, if parsed.Some? then Handling(FindContact(r, parsed.value)) else Done(Failed))
    case FindContact(r, parsed) =>
      Moved(db, Handling(FindLink(Work(r, parsed, ResolvedContact(db, r, parsed, c.id)), 0)))
    case FindLink(w, k) =>
      Moved(db, Handling(if k >= |LinkIds(w.parsed)| then FindSubject(w)
                         else if c.found.Some? then FindDuplicate(w, c.found.value)
                         else FindLink(w, k + 1)))
    case FindSubject(w) =>
      var recent := if w.parsed.subjectNormalized == "" then None else c.found;
      Moved(db, Handling(FindDuplicate(w, BySubject(env.threshold, ThreadInputOf(w), c.id, recent).thread)))
    case FindDuplicate(w, t) =>
      var existing := if w.parsed.messageIdHeader == "" then None
                      else db.FindInboundByHeader(env.digest, w.receipt.inboxId, w.parsed.messageIdHeader);
      Moved(db, Handling(if existing.Some? then LoadDuplicateThread(existing.value) else UpsertContact(w, t)))
    case LoadDuplicateThread(m) =>
      Moved(db, if m.threadId in db.threads then Handling(LoadDuplicateContact(m, db.threads[m.threadId]))
                else Done(Failed))
    case LoadDuplicateContact(m, t) =>
      Moved(db, Done(if m.contactId in db.contacts then Handled(db.contacts[m.contactId], t, m, true) else Failed))
    case UpsertContact(w, t) => Moved(db.UpsertContact(w.contact), Handling(SaveThread(w, t)))
    case SaveThread(w, t) => Moved(db.SaveThread(t), Handling(CreateInbound(w, db.Merged(t))))
    case CreateInbound(w, t) =>
      var m := InboundMessage(w, t, c.id);
      Moved(db.CreateMessage(env.digest, m), Handling(TouchThread(w, t, m)))
    case TouchThread(w, t, m) =>
      var touched := Touched(t, m.id, w.receipt.receivedAt);
      Moved(db.SaveThread(touched), Handling(Notify(w.contact, db.Merged(touched), m)))
    case Notify(contact, t, m) =>
      if !env.notifies then Moved(db, Done(Handled(contact, t, m, false)))
      else Moved(db, match c.response
                     case None => Done(Failed)
                     case Some(r) => Handling(SaveDelivery(contact, t, m, Recorded(c.request, r))))
    case SaveDelivery(contact, t, m, d) => Moved(db.SaveDelivery(d), Done(Handled(contact, t, m, false)))
  }

  ghost function NextReplying(env: Env, db: Db, pc: ReplyPc, c: Choice): Moved {
    match pc
    case FindSubmission(input) =>
      Moved(db, AfterSubmissionLookup(
                  input,
                  if input.idempotencyKey == "" then None else db.FindReplyBySubmissionKey(ReplyKey(env, input))))
    case LoadRepliedThread(input, m) =>
      Moved(db, Done(if input.threadId in db.threads
                     then Replied(input, db.threads[input.threadId], m, SendResult(m.providerMessageId, m.sentAt))
                     else Failed))
    case LoadConfig(input) =>
      var o, a, i := OrDefault(input.organizationId, "org-local"), OrDefault(input.agentId, "agent-local"),
                     OrDefault(input.inboxId, "inbox-local");
      Moved(db, if o in db.organizations && a in db.agents && i in db.inboxes
                then Replying(LoadThread(input, db.organizations[o], db.agents[a], db.inboxes[i]))
                else Done(Failed))
    case LoadThread(input, o, a, i) =>
      Moved(db, if input.threadId in db.threads
                then Replying(LoadContact(input, o, a, i, db.threads[input.threadId])) else Done(Failed))
    case LoadContact(input, o, a, i, t) =>
      var id := OrDefault(input.contactId, t.contactId);
      Moved(db, if id in db.contacts then Replying(LoadTarget(input, o, a, i, t, db.contacts[id]))
                else Done(Failed))
    case LoadTarget(input, o, a, i, t, contact) =>
      Moved(db, if input.targetId in db.messages
                then Replying(CheckSuppression(Context(input, o, a, i, t, contact, db.messages[input.targetId])))
                else Done(Failed))
    case CheckSuppression(x) =>
      Moved(db, if db.Suppressed(x.organization.id, x.contact.emailAddress) then Done(Failed)
                else AfterCheck(env, x, c))
    case PutReply(x, reply, at) =>
      Moved(db.PutRaw(x.input.objectKey, reply.rawMime), Replying(CreateReply(x, reply, at)))
    case CreateReply(x, reply, at) =>
      var m := OutboundMessage(x, reply, at, c.id);
      Moved(db.CreateMessage(env.digest, m), Replying(SaveReplyThread(x, reply, m)))
    case SaveReplyThread(x, _, m) =>
      var t := RepliedThread(x.thread, m.id, m.createdAt);
      Moved(db.SaveThread(t), Replying(Send(x, db.Merged(t), m)))
    case Send(x, t, m) =>
      Moved(db, match c.sent case None => Done(Failed) case Some(r) => Replying(RecordSent(x, t, m, r)))
    case RecordSent(x, t, m, r) =>
      var recorded := SentMessage(m, r);
      Moved(db.SaveMessage(env.digest, recorded),
            if x.input.idempotencyKey == "" then Done(Replied(x.input, t, recorded, r))
            else Replying(SaveSubmission(x, t, recorded, r)))
    case SaveSubmission(x, t, m, r) =>
      Moved(db.SaveSubmission(ReplyKey(env, x.input), m.id), Done(Replied(x.input, t, m, r)))
  }

  ghost function NextUpdating(env: Env, db: Db, pc: UpdatePc, c: Choice): Moved {
    match pc
    case FindProviderMessage(cb) =>
      Moved(db, if cb.providerMessageId in db.byProvider
                then Updating(SaveStatus(cb, db.byProvider[cb.providerMessageId])) else Done(Failed))
    case SaveStatus(cb, m) =>
      var confirmed := ConfirmedMessage(m, cb.status, cb.occurredAt);
      Moved(db.SaveMessage(env.digest, confirmed),
            if Suppresses(cb.status) then Updating(SaveSuppression(cb, confirmed))
            else Done(Confirmed(confirmed, None)))
    case SaveSuppression(cb, m) =>
      var s := SuppressionOf(cb, m, c.id);
      Moved(db.SaveSuppression(s), Done(Confirmed(m, Some(s))))
    case LoadEscalated(id) => Moved(db, if id in db.threads then Updating(SaveEscalated(id)) else Done(Failed))
    case SaveEscalated(id) =>
      var t := SparseThread(id, c.now);
      Moved(db.SaveThread(t), Done(EscalatedThread(db.Merged(t))))
  }

  ghost function Next(env: Env, db: Db, pc: Pc, c: Choice): Moved {
    match pc
    case Handling(h) => NextHandling(env, db, h, c)
    case Replying(r) => NextReplying(env, db, r, c)
    case Updating(u) => NextUpdating(env, db, u, c)
    case Done(_) => Moved(db, pc)
  }

  /** The outside answers the code could have received at this step. */
  ghost predicate Possible(db: Db, pc: Pc, c: Choice) {
    match pc
    case Handling(FindLink(w, k)) =>
      k < |LinkIds(w.parsed)| ==> db.FoundByHeader(LinkIds(w.parsed)[k], c.found)
    case Handling(FindSubject(w)) =>
      w.parsed.subjectNormalized != "" ==> RecentMatch(db, ThreadInputOf(w), c.found)
    case Handling(Notify(_, _, _)) =>
      c.request.id == c.id && c.request.status == Pending && c.request.attemptCount == 0
    case _ => true
  }

  /** The steps that generate an id. */
  predicate Generates(pc: Pc) {
    match pc
    case Handling(h) => h.FindContact? || h.FindSubject? || h.CreateInbound? || h.Notify?
    case Replying(r) => r.CreateReply?
    case Updating(u) => u.SaveSuppression?
    case Done(_) => false
  }

  /** A generated id is nonempty and was never generated before. */
  ghost predicate FreshFor(issued: set<Id>, pc: Pc, c: Choice) {
    Generates(pc) ==> c.id != "" && c.id !in issued
  }

  function IssuedAfter(issued: set<Id>, pc: Pc, c: Choice): set<Id> {
    if Generates(pc) then issued + {c.id} else issued
  }

  /** The steps that create a message. */
  predicate Creates(pc: Pc) {
    || (pc.Handling? && pc.handle.CreateInbound?)
    || (pc.Replying? && pc.reply.CreateReply?)
  }

  predicate Starts(pc: Pc) {
    match pc
    case Handling(h) => h.PutRaw? || h.LoadReceipt?
    case Replying(r) => r.FindSubmission?
    case Updating(u) => u.FindProviderMessage? || u.LoadEscalated?
    case Done(_) => false
  }

  // ---------------------------------------------------------------- many processes

  /** One accepted send, as the provider saw it. */
  datatype Dispatch = Dispatch(input: ReplyInput, messageId: Id, sent: SendResult)

  function Dispatches(pc: Pc, c: Choice): seq<Dispatch> {
    if pc.Replying? && pc.reply.Send? && c.sent.Some?
    then [Dispatch(pc.reply.context.input, pc.reply.queued.id, c.sent.value)]
    else []
  }

  /** issued, created and dispatched record history only: no step reads them. */
  datatype State = State(
    db: Db,
    procs: seq<Pc>,
    issued: set<Id>,
    created: seq<Id>,
    dispatched: seq<Dispatch>)

  datatype Label = Spawn(pc: Pc) | Act(pid: nat, choice: Choice)

  /** The only hypothesis on every run: a generated id is nonempty and was never generated before. */
  ghost predicate Legal(s: State, l: Label) {
    match l
    case Spawn(pc) => Starts(pc)
    case Act(pid, c) =>
      && pid < |s.procs|
      && !s.procs[pid].Done?
      && Possible(s.db, s.procs[pid], c)
      && FreshFor(s.issued, s.procs[pid], c)
  }

  ghost function After(env: Env, s: State, l: Label): State
    requires Legal(s, l)
  {
    match l
    case Spawn(pc) => s.(procs := s.procs + [pc])
    case Act(pid, c) =>
      var pc := s.procs[pid];
      var moved := Next(env, s.db, pc, c);
      State(moved.db,
            s.procs[pid := moved.pc],
            IssuedAfter(s.issued, pc, c),
            if Creates(pc) then s.created + [c.id] else s.created,
            s.dispatched + Dispatches(pc, c))
  }

  /** Configuration apart, everything starts empty. */
  ghost predicate Initial(s: State) {
    && s == State(s.db, [], {}, [], [])
    && (forall id :: id in s.db.inboxes ==> s.db.inboxes[id].id == id)
    && s.db.raw == map[] && s.db.receipts == map[] && s.db.contacts == map[] && s.db.contactsByEmail == map[]
    && s.db.threads == map[] && s.db.messages == map[] && s.db.inboundKeys == map[]
    && s.db.byProvider == map[] && s.db.threadLists == map[] && s.db.submissions == map[]
    && s.db.suppressions == map[] && s.db.deliveries == map[]
  }

  datatype Run = Run(states: seq<State>, labels: seq<Label>)

  /** Any interleaving: each label moves one process, or starts one, from state to state. */
  ghost predicate IsRun(env: Env, r: Run) {
    && |r.states| == |r.labels| + 1
    && Initial(r.states[0])
    && forall i :: 0 <= i < |r.labels| ==>
         Legal(r.states[i], r.labels[i]) && r.states[i + 1] == After(env, r.states[i], r.labels[i])
  }

  /** Sequential: a workflow starts only when every earlier one has ended. */
  ghost predicate Idle(s: State) {
    forall i :: 0 <= i < |s.procs| ==> s.procs[i].Done?
  }

  ghost predicate IsSequential(r: Run) {
    forall i :: 0 <= i < |r.labels| && i < |r.states| && r.labels[i].Spawn? ==> Idle(r.states[i])
  }
}
