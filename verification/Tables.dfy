/**
 The tables of memory.Store as one value, and each store call as a function or a relation on it.
 A call is atomic: the source runs it under the store's mutex.
 */
module Tables {
  import opened Domain
  import opened Keys

  /** Save refills exactly these six fields from the stored thread when they come empty. */
  function Refilled(t: Thread, existing: Thread): Thread {
    t.(organizationId := if t.organizationId == "" then existing.organizationId else t.organizationId,
       agentId := if t.agentId == "" then existing.agentId else t.agentId,
       inboxId := if t.inboxId == "" then existing.inboxId else t.inboxId,
       contactId := if t.contactId == "" then existing.contactId else t.contactId,
       subjectNormalized := if t.subjectNormalized == "" then existing.subjectNormalized else t.subjectNormalized,
       state := if t.state.Unset? then existing.state else t.state)
  }

  /** Each of the six is t's own, or the stored one where t's is empty. */
  predicate HasPartsOf(t: Thread, stored: Thread, saved: Thread) {
    && saved.id == t.id
    && (if t.organizationId != "" then saved.organizationId == t.organizationId
        else saved.organizationId == stored.organizationId)
    && (if t.agentId != "" then saved.agentId == t.agentId else saved.agentId == stored.agentId)
    && (if t.inboxId != "" then saved.inboxId == t.inboxId else saved.inboxId == stored.inboxId)
    && (if t.contactId != "" then saved.contactId == t.contactId else saved.contactId == stored.contactId)
    && (if t.subjectNormalized != "" then saved.subjectNormalized == t.subjectNormalized
        else saved.subjectNormalized == stored.subjectNormalized)
    && (if t.state != Unset then saved.state == t.state else saved.state == stored.state)
  }

  /** Nothing else of the stored thread stays. */
  predicate IsFilledFrom(t: Thread, stored: Thread, saved: Thread) {
    && HasPartsOf(t, stored, saved)
    && saved.lastInboundId == t.lastInboundId && saved.lastOutboundId == t.lastOutboundId
    && saved.lastActivityAt == t.lastActivityAt && saved.createdAt == t.createdAt && saved.updatedAt == t.updatedAt
  }

  /** The stored form of t: t itself if there was no thread under its id, else filled from that one. */
  predicate IsSaved(threads: map<Id, Thread>, t: Thread, saved: Thread) {
    if t.id in threads then IsFilledFrom(t, threads[t.id], saved) else saved == t
  }

  /** What EscalateThread saves. */
  function SparseThread(threadId: Id, now: Time): Thread {
    Thread(threadId, "", "", "", "", "", Escalated, "", "", ZERO_TIME, ZERO_TIME, now)
  }

  datatype Db = Db(
    organizations: map<Id, Organization>,
    agents: map<Id, Agent>,
    inboxes: map<Id, Inbox>,
    inboxesByEmail: map<string, Inbox>,
    raw: map<string, string>,
    receipts: map<string, Receipt>,
    contacts: map<Id, Contact>,
    contactsByEmail: map<string, Contact>,
    threads: map<Id, Thread>,
    messages: map<Id, Message>,
    inboundKeys: map<string, Id>,
    byProvider: map<string, Message>,
    threadLists: map<Id, seq<Id>>,
    submissions: map<string, Id>,
    suppressions: map<Id, Suppression>,
    deliveries: map<Id, Delivery>)
  {
    function PutRaw(key: string, data: string): Db {
      this.(raw := raw[key := data])
    }

    function SaveReceipt(r: Receipt): Db {
      this.(receipts := receipts[r.rawKey := r])
    }

    function UpsertContact(c: Contact): Db {
      this.(contacts := contacts[c.id := c], contactsByEmail := contactsByEmail[c.emailAddress := c])
    }

    function Merged(t: Thread): Thread {
      if t.id in threads then Refilled(t, threads[t.id]) else t
    }

    function SaveThread(t: Thread): Db {
      this.(threads := threads[t.id := Merged(t)])
    }

    /** The message record and the two indexes that both Create and SaveMessage write. */
    function SaveMessage(digest: string -> string, m: Message): Db {
      this.(messages := messages[m.id := m],
            inboundKeys := if m.inboxId != "" && m.messageIdHeader != ""
                           then inboundKeys[InboundMessageKey(digest, m.inboxId, m.messageIdHeader) := m.id]
                           else inboundKeys,
            byProvider := if m.providerMessageId != "" then byProvider[m.providerMessageId := m] else byProvider)
    }

    function ThreadList(threadId: Id): seq<Id> {
      if threadId in threadLists then threadLists[threadId] else []
    }

    function CreateMessage(digest: string -> string, m: Message): Db {
      SaveMessage(digest, m).(
        threadLists := if m.threadId != "" then threadLists[m.threadId := ThreadList(m.threadId) + [m.id]]
                       else threadLists)
    }

    function SaveSubmission(key: string, messageId: Id): Db {
      this.(submissions := submissions[key := messageId])
    }

    function SaveSuppression(s: Suppression): Db {
      this.(suppressions := suppressions[s.id := s])
    }

    function SaveDelivery(d: Delivery): Db {
      this.(deliveries := deliveries[d.id := d])
    }

    function FindInboundByHeader(digest: string -> string, inboxId: Id, header: string): Option<Message> {
      var key := InboundMessageKey(digest, inboxId, header);
      if key in inboundKeys && inboundKeys[key] in messages then Some(messages[inboundKeys[key]]) else None
    }

    function FindReplyBySubmissionKey(key: string): Option<Message> {
      if key in submissions && submissions[key] in messages then Some(messages[submissions[key]]) else None
    }

    ghost predicate Suppressed(organizationId: Id, email: string) {
      exists id :: id in suppressions
        && suppressions[id].organizationId == organizationId && suppressions[id].emailAddress == email
    }

    function ThreadOf(m: Message): Option<Thread> {
      if m.threadId in threads then Some(threads[m.threadId]) else None
    }

    /** FindByMessageID scans the messages in no fixed order and answers for the first with this header. */
    ghost predicate FoundByHeader(header: string, r: Option<Thread>) {
      if exists id :: id in messages && messages[id].messageIdHeader == header
      then exists id :: id in messages && messages[id].messageIdHeader == header && r == ThreadOf(messages[id])
      else r.None?
    }

    predicate SubjectMatch(t: Thread, organizationId: Id, inboxId: Id, contactId: Id, subject: string) {
      && t.organizationId == organizationId && t.inboxId == inboxId && t.contactId == contactId
      && t.subjectNormalized == subject
    }

    /** FindMostRecentBySubject: some match with the latest activity, if there is a match at all. */
    ghost predicate MostRecent(
        organizationId: Id, inboxId: Id, contactId: Id, subject: string, r: Option<Thread>) {
      match r
      case None =>
        forall id :: id in threads ==> !SubjectMatch(threads[id], organizationId, inboxId, contactId, subject)
      case Some(best) =>
        && (exists id :: id in threads && threads[id] == best)
        && SubjectMatch(best, organizationId, inboxId, contactId, subject)
        && forall id :: id in threads && SubjectMatch(threads[id], organizationId, inboxId, contactId, subject)
                        ==> threads[id].lastActivityAt <= best.lastActivityAt
    }

    /** Every record is filed under its own id. */
    ghost predicate Keyed() {
      && ReceiptsKeyed(receipts) && ContactsKeyed(contacts) && ThreadsKeyed(threads) && MessagesKeyed(messages)
      && SuppressionsKeyed(suppressions) && DeliveriesKeyed(deliveries)
    }
  }

  ghost predicate ReceiptsKeyed(m: map<string, Receipt>) { forall k :: k in m ==> m[k].rawKey == k }
  ghost predicate ContactsKeyed(m: map<Id, Contact>) { forall id :: id in m ==> m[id].id == id }
  ghost predicate ThreadsKeyed(m: map<Id, Thread>) { forall id :: id in m ==> m[id].id == id }
  ghost predicate MessagesKeyed(m: map<Id, Message>) { forall id :: id in m ==> m[id].id == id }
  ghost predicate SuppressionsKeyed(m: map<Id, Suppression>) { forall id :: id in m ==> m[id].id == id }
  ghost predicate DeliveriesKeyed(m: map<Id, Delivery>) { forall id :: id in m ==> m[id].id == id }
}
