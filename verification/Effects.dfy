/** What the workflows leave in the tables, field by field, from their first look at the store to their answer. */
module Effects {
  import opened Domain
  import opened Tables
  import opened Store
  import opened Threading
  import opened Text
  import opened Assembler
  import opened RawMessages
  import opened Machine

  /** The thread given, saved among these, points to these messages and was active at that time. */
  predicate IsPointed(
      threads: map<Id, Thread>, given: Thread, inboundId: Id, outboundId: Id, at: Time, t: Thread)
  {
    && HasPartsOf(given, if given.id in threads then threads[given.id] else given, t)
    && t.lastInboundId == inboundId && t.lastOutboundId == outboundId
    && t.lastActivityAt == at && t.updatedAt == at && t.createdAt == given.createdAt
  }

  // ---------------------------------------------------------------- inbound mail

  /** The sender's stored contact, seen again, or a new one. */
  predicate IsSender(byEmail: map<string, Contact>, receipt: Receipt, from: Address, freshId: Id, c: Contact) {
    && c.lastSeenAt == receipt.receivedAt && c.updatedAt == receipt.receivedAt
    && (from.displayName != "" ==> c.displayName == from.displayName)
    && (from.email in byEmail ==>
          && c.id == byEmail[from.email].id && c.organizationId == byEmail[from.email].organizationId
          && c.emailAddress == byEmail[from.email].emailAddress && c.createdAt == byEmail[from.email].createdAt
          && (from.displayName == "" ==> c.displayName == byEmail[from.email].displayName))
    && (from.email !in byEmail ==>
          && c.id == freshId && c.organizationId == receipt.organizationId && c.emailAddress == from.email
          && c.createdAt == receipt.receivedAt && (from.displayName == "" ==> c.displayName == ""))
  }

  /** The message carries the mail, and the receipt it came with. */
  predicate IsMailOf(m: Message, receipt: Receipt, parsed: ParsedMessage, contactId: Id, threadId: Id) {
    && m.direction == Inbound && m.threadId == threadId && m.contactId == contactId
    && m.organizationId == receipt.organizationId && m.inboxId == receipt.inboxId
    && m.rawKey == receipt.rawKey && m.createdAt == receipt.receivedAt
    && m.subject == parsed.subject && m.subjectNormalized == parsed.subjectNormalized
    && m.messageIdHeader == parsed.messageIdHeader && m.inReplyTo == parsed.inReplyTo
    && m.references == parsed.references && m.textBody == parsed.textBody && m.htmlBody == parsed.htmlBody
    && m.deliveryState == NoState && m.providerMessageId == ""
    && m.sentAt == ZERO_TIME && m.deliveredAt == ZERO_TIME && m.bouncedAt == ZERO_TIME
  }

  /** The answer for mail already recorded as this message: its thread and contact, or a failure without them. */
  predicate IsRepeated(db: Db, m: Message, o: Outcome) {
    if m.threadId in db.threads && m.contactId in db.contacts
    then o == Handled(db.contacts[m.contactId], db.threads[m.threadId], m, true)
    else o == Failed
  }

  /** The tables that recording mail or a reply does not write. */
  predicate SameBeside(db: Db, db': Db) {
    && db'.organizations == db.organizations && db'.agents == db.agents
    && db'.inboxes == db.inboxes && db'.inboxesByEmail == db.inboxesByEmail
    && db'.receipts == db.receipts && db'.suppressions == db.suppressions && db'.deliveries == db.deliveries
  }

  /** Contact, thread and message are filed, and nothing else. */
  ghost predicate IsFiled(db: Db, digest: string -> string, c: Contact, t: Thread, m: Message, db': Db) {
    && db'.contacts == db.contacts[c.id := c] && db'.contactsByEmail == db.contactsByEmail[c.emailAddress := c]
    && db'.threads == db.threads[t.id := t]
    && IsWritten(db, digest, m, db') && IsListed(db, m, db')
    && SameBeside(db, db') && db'.raw == db.raw && db'.submissions == db.submissions
  }

  /** While messages have their threads, this is the thread that the mail belongs to. */
  ghost predicate AnswersIfPresent(
      db: Db, threshold: int, receipt: Receipt, parsed: ParsedMessage, contactId: Id, freshId: Id, r: Resolution)
  {
    ThreadsPresent(db) ==>
      AnswersByField(
        db, threshold,
        ThreadInput(receipt.organizationId, receipt.agentId, receipt.inboxId, contactId, parsed, receipt.receivedAt),
        freshId, r)
  }

  /** First half of recording: contact and thread. */
  ghost predicate IsPrepared(db: Db, c: Contact, resolved: Thread, saved: Thread, db': Db) {
    && db' == db.(contacts := db.contacts[c.id := c], contactsByEmail := db.contactsByEmail[c.emailAddress := c],
                  threads := db.threads[saved.id := saved])
    && IsSaved(db.threads, resolved, saved)
  }

  /** Second half: the message, and the thread again. */
  ghost predicate IsAdded(db: Db, digest: string -> string, t: Thread, m: Message, db': Db) {
    && db'.threads == db.threads[t.id := t]
    && IsWritten(db, digest, m, db') && IsListed(db, m, db')
    && SameBeside(db, db') && db'.raw == db.raw && db'.submissions == db.submissions
    && db'.contacts == db.contacts && db'.contactsByEmail == db.contactsByEmail
  }

  lemma PreparedByField(db: Db, c: Contact, resolved: Thread)
    ensures var db1 := db.UpsertContact(c);
            IsPrepared(db, c, resolved, db1.Merged(resolved), db1.SaveThread(resolved))
  {
  }

  lemma WrittenByField(db: Db, digest: string -> string, m: Message)
    ensures IsWritten(db, digest, m, db.CreateMessage(digest, m)) && IsListed(db, m, db.CreateMessage(digest, m))
  {
    assert [] + [m.id] == [m.id];
  }

  /** A message is created, and its thread, changed to point to it, is saved. */
  lemma AddedByField(
      db: Db, digest: string -> string, m: Message, given: Thread, inboundId: Id, outboundId: Id, at: Time, t: Thread)
    requires t == given.(lastInboundId := inboundId, lastOutboundId := outboundId, lastActivityAt := at,
                         updatedAt := at)
    ensures var db1 := db.CreateMessage(digest, m);
            && IsAdded(db, digest, db1.Merged(t), m, db1.SaveThread(t))
            && IsPointed(db.threads, given, inboundId, outboundId, at, db1.Merged(t))
  {
    WrittenByField(db, digest, m);
  }

  lemma TouchedByField(t: Thread, messageId: Id, at: Time)
    ensures Touched(t, messageId, at) == t.(lastInboundId := messageId).(lastActivityAt := at).(updatedAt := at)
  {
  }

  lemma InboundCarriesMail(w: Work, saved: Thread, id: Id)
    ensures IsMailOf(InboundMessage(w, saved, id), w.receipt, w.parsed, w.contact.id, saved.id)
  {
  }

  lemma PreparedAndAdded(
      db: Db, digest: string -> string, c: Contact, resolved: Thread, saved: Thread, db1: Db,
      t: Thread, m: Message, at: Time, db': Db)
    requires IsPrepared(db, c, resolved, saved, db1) && IsAdded(db1, digest, t, m, db')
    requires IsPointed(db1.threads, saved, m.id, saved.lastOutboundId, at, t)
    ensures IsFiled(db, digest, c, t, m, db') && t.id == saved.id
    ensures IsPointed(db.threads, resolved, m.id, resolved.lastOutboundId, at, t)
  {
  }

  // ---------------------------------------------------------------- replies

  /** All that a reply looks up: organization, agent and inbox, each with its default, then thread, contact, target. */
  ghost predicate IsContextOf(db: Db, input: ReplyInput, x: Context) {
    && x.input == input
    && (var id := if input.organizationId == "" then "org-local" else input.organizationId;
        id in db.organizations && x.organization == db.organizations[id])
    && (var id := if input.agentId == "" then "agent-local" else input.agentId;
        id in db.agents && x.agent == db.agents[id])
    && (var id := if input.inboxId == "" then "inbox-local" else input.inboxId;
        id in db.inboxes && x.inbox == db.inboxes[id])
    && input.threadId in db.threads && x.thread == db.threads[input.threadId]
    && (var id := if input.contactId == "" then x.thread.contactId else input.contactId;
        id in db.contacts && x.contact == db.contacts[id])
    && input.targetId in db.messages && x.target == db.messages[input.targetId]
  }

  lemma OneContext(db: Db, input: ReplyInput, x: Context)
    requires IsContextOf(db, input, x)
    ensures x.input == input && forall y :: IsContextOf(db, input, y) ==> y == x
  {
  }

  /** An address for the inbox, an address that may be written to, a message to answer, a key for the raw bytes. */
  ghost predicate IsDeliverable(db: Db, x: Context) {
    && x.inbox.emailAddress != "" && x.contact.emailAddress != ""
    && x.target.messageIdHeader != "" && x.input.objectKey != ""
    && forall id :: id in db.suppressions && db.suppressions[id].organizationId == x.organization.id ==>
         db.suppressions[id].emailAddress != x.contact.emailAddress
  }

  /** The outbound message, delivery apart. */
  predicate IsReplyIn(m: Message, x: Context, metadata: Metadata, at: Time) {
    && m.direction == Outbound && m.organizationId == x.organization.id && m.threadId == x.thread.id
    && m.inboxId == x.inbox.id && m.contactId == x.contact.id
    && m.subject == metadata.subject && m.subjectNormalized == "" && m.messageIdHeader == metadata.messageIdHeader
    && m.inReplyTo == metadata.inReplyTo && m.references == metadata.references
    && m.textBody == x.input.bodyText && m.htmlBody == "" && m.rawKey == x.input.objectKey
    && m.deliveredAt == ZERO_TIME && m.bouncedAt == ZERO_TIME && m.createdAt == at
  }

  predicate IsQueued(m: Message) {
    m.deliveryState == Queued && m.providerMessageId == "" && m.sentAt == ZERO_TIME
  }

  predicate IsSent(m: Message, sent: SendResult) {
    && m.deliveryState == Sent && m.providerMessageId == sent.providerMessageId
    && m.sentAt == sent.acceptedAt
  }

  /** Raw bytes, message and thread are filed; contacts and receipts stay. */
  ghost predicate IsReplyFiled(
      db: Db, digest: string -> string, key: string, raw: string, t: Thread, m: Message, db': Db)
  {
    && db'.raw == db.raw[key := raw] && db'.threads == db.threads[t.id := t]
    && IsWritten(db, digest, m, db') && IsListed(db, m, db') && SameBeside(db, db')
    && db'.contacts == db.contacts && db'.contactsByEmail == db.contactsByEmail
  }

  /** The linkage of a reply to this message. */
  function Linkage(fold: char -> char, target: Message, generated: string): Metadata {
    Metadata(generated, ReplySubject(fold, target.subject), target.messageIdHeader,
             target.references + [target.messageIdHeader])
  }

  /** The bytes read back as the reply of this context, as long as its values keep to their lines. */
  predicate IsReplyText(fold: char -> char, x: Context, generated: string, raw: string) {
    KeepToLines(x.inbox, x.contact, x.target, generated) ==>
      IsLetterOf(fold, x.inbox, x.contact, x.target, x.input.bodyText, generated, ReadLetter(raw))
  }

  lemma AssembledByField(fold: char -> char, x: Context, generated: string)
    ensures var reply := AssembleReply(fold, x.inbox, x.contact, x.target, x.input.bodyText, generated);
            && (reply.Some? <==> x.inbox.emailAddress != "" && x.contact.emailAddress != ""
                                 && x.target.messageIdHeader != "")
            && (reply.Some? ==>
                  && reply.value.metadata == Linkage(fold, x.target, generated)
                  && IsReplyText(fold, x, generated, reply.value.rawMime))
  {
    hide IsLetterOf, ReadLetter, KeepToLines, Join;
    if KeepToLines(x.inbox, x.contact, x.target, generated) {
      ReplyReadsBack(fold, x.inbox, x.contact, x.target, x.input.bodyText, generated);
    }
  }

  lemma OutboundCarriesReply(x: Context, reply: Reply, at: Time, id: Id)
    ensures var m := OutboundMessage(x, reply, at, id);
            m.id == id && IsReplyIn(m, x, reply.metadata, at) && IsQueued(m)
  {
  }

  /** The queued reply: bytes, message and the thread changed to point to it. */
  lemma QueuedByField(
      db: Db, digest: string -> string, key: string, raw: string, m: Message, given: Thread, at: Time, t: Thread)
    requires t == given.(lastOutboundId := m.id, lastActivityAt := at, updatedAt := at)
    ensures var db1 := db.PutRaw(key, raw).CreateMessage(digest, m);
            && IsReplyFiled(db, digest, key, raw, db1.Merged(t), m, db1.SaveThread(t))
            && db1.SaveThread(t).submissions == db.submissions
            && IsPointed(db.threads, given, given.lastInboundId, m.id, at, db1.Merged(t))
  {
    WrittenByField(db.PutRaw(key, raw), digest, m);
  }

  lemma RepliedByField(t: Thread, messageId: Id, at: Time)
    ensures RepliedThread(t, messageId, at) == t.(lastOutboundId := messageId).(lastActivityAt := at).(updatedAt := at)
  {
  }

  lemma SentMessageByField(m: Message, r: SendResult)
    ensures SentMessage(m, r)
         == m.(deliveryState := Sent).(providerMessageId := r.providerMessageId).(sentAt := r.acceptedAt)
  {
  }

  lemma StateApart(queued: Message, m: Message, x: Context, metadata: Metadata, at: Time)
    requires IsReplyIn(queued, x, metadata, at)
    requires m == queued.(deliveryState := m.deliveryState, providerMessageId := m.providerMessageId,
                          sentAt := m.sentAt)
    ensures IsReplyIn(m, x, metadata, at) && m.id == queued.id
  {
  }

  lemma SubmittedKeepsFiled(
      db: Db, digest: string -> string, objectKey: string, raw: string, t: Thread, m: Message, db1: Db, key: string,
      messageId: Id)
    requires IsReplyFiled(db, digest, objectKey, raw, t, m, db1)
    ensures IsReplyFiled(db, digest, objectKey, raw, t, m, db1.SaveSubmission(key, messageId))
    ensures db1.SaveSubmission(key, messageId).submissions == db1.submissions[key := messageId]
  {
  }

  /** The same message, sent, in place of the queued one. */
  lemma SentByField(
      db: Db, digest: string -> string, key: string, raw: string, t: Thread, queued: Message, m: Message, db1: Db)
    requires IsReplyFiled(db, digest, key, raw, t, queued, db1) && IsQueued(queued)
    requires m == queued.(deliveryState := m.deliveryState, providerMessageId := m.providerMessageId,
                          sentAt := m.sentAt)
    ensures IsReplyFiled(db, digest, key, raw, t, m, db1.SaveMessage(digest, m))
    ensures db1.SaveMessage(digest, m).submissions == db1.submissions
  {
  }

  // ---------------------------------------------------------------- callbacks and escalation

  /** The message with its new state and the one time that goes with it. */
  predicate HasStatus(found: Message, cb: Callback, m: Message) {
    && m.deliveryState == cb.status
    && (cb.status == Delivered ==> m.deliveredAt == cb.occurredAt && m.bouncedAt == found.bouncedAt)
    && (cb.status != Delivered ==> m.bouncedAt == cb.occurredAt && m.deliveredAt == found.deliveredAt)
    && m == found.(deliveryState := m.deliveryState, deliveredAt := m.deliveredAt, bouncedAt := m.bouncedAt)
  }

  /** The pair of the message's organization and the callback's address, on record from then on. */
  predicate IsSuppressionFor(cb: Callback, m: Message, id: Id, s: Suppression) {
    && s.id == id && s.organizationId == m.organizationId && s.emailAddress == cb.email
    && s.reason == cb.status && s.createdAt == cb.occurredAt && s.updatedAt == cb.occurredAt
  }

  /** Nothing for an unknown provider id; else the status, and the suppression if it calls for one. */
  ghost predicate IsApplied(db: Db, digest: string -> string, cb: Callback, suppressionId: Id, db': Db, o: Outcome) {
    if cb.providerMessageId !in db.byProvider then o == Failed && db' == db
    else
      && o.Confirmed? && HasStatus(db.byProvider[cb.providerMessageId], cb, o.message)
      && IsWritten(db, digest, o.message, db')
      && db' == db.(messages := db'.messages, inboundKeys := db'.inboundKeys, byProvider := db'.byProvider,
                    suppressions := db'.suppressions)
      && if cb.status == HardBounce || cb.status == Complaint
         then && o.suppression.Some? && IsSuppressionFor(cb, o.message, suppressionId, o.suppression.value)
              && db'.suppressions == db.suppressions[suppressionId := o.suppression.value]
         else o.suppression == None && db'.suppressions == db.suppressions
  }

  lemma ConfirmedByField(db: Db, digest: string -> string, m: Message, cb: Callback)
    ensures var confirmed := ConfirmedMessage(m, cb.status, cb.occurredAt);
            && HasStatus(m, cb, confirmed) && IsWritten(db, digest, confirmed, db.SaveMessage(digest, confirmed))
            && db.SaveMessage(digest, confirmed).suppressions == db.suppressions
            && var db' := db.SaveMessage(digest, confirmed);
               db' == db.(messages := db'.messages, inboundKeys := db'.inboundKeys, byProvider := db'.byProvider)
  {
  }

  lemma SuppressionKeepsWritten(db: Db, digest: string -> string, m: Message, db1: Db, s: Suppression)
    requires IsWritten(db, digest, m, db1)
    ensures IsWritten(db, digest, m, db1.SaveSuppression(s))
  {
  }

  /** An unknown thread fails; else all but the parts of the stored one is cleared, and the state says so. */
  ghost predicate IsEscalated(db: Db, threadId: Id, now: Time, db': Db, o: Outcome) {
    if threadId !in db.threads then o == Failed && db' == db
    else
      && o.EscalatedThread? && db' == db.(threads := db.threads[threadId := o.thread])
      && var t, stored := o.thread, db.threads[threadId];
         && t.id == threadId && t.organizationId == stored.organizationId && t.agentId == stored.agentId
         && t.inboxId == stored.inboxId && t.contactId == stored.contactId
         && t.subjectNormalized == stored.subjectNormalized && t.state == Escalated
         && t.lastInboundId == "" && t.lastOutboundId == "" && t.lastActivityAt == ZERO_TIME
         && t.createdAt == ZERO_TIME && t.updatedAt == now
  }

  lemma EscalatedByField(db: Db, threadId: Id, now: Time)
    requires threadId in db.threads
    ensures var t := SparseThread(threadId, now);
            IsEscalated(db, threadId, now, db.SaveThread(t), EscalatedThread(db.Merged(t)))
  {
  }
}
