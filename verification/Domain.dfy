/** The records of internal/domain and internal/core, as values. */
module Domain {

  datatype Option<+T> = None | Some(value: T)

  type Id = string

  /** A time.Time, as nanoseconds after Go's zero time; ZERO_TIME is the zero time itself. */
  type Time = int

  const ZERO_TIME: Time := 0
  const MINUTE: int := 60_000_000_000
  const MAX_DURATION: int := 0x7FFF_FFFF_FFFF_FFFF
  const MIN_DURATION: int := -0x8000_0000_0000_0000

  /** time.Time.Sub: the difference saturates at the 64-bit range of a Duration. */
  function Elapsed(later: Time, earlier: Time): (d: int)
    ensures MIN_DURATION <= d <= MAX_DURATION
    ensures MIN_DURATION <= later - earlier <= MAX_DURATION ==> d == later - earlier
  {
    if later - earlier > MAX_DURATION then MAX_DURATION
    else if later - earlier < MIN_DURATION then MIN_DURATION
    else later - earlier
  }

  /** Unset stands for the empty state string, which Save takes as "keep the stored one". */
  datatype ThreadState = Unset | Active | Waiting | Escalated | Resolved | Dormant

  datatype Direction = Inbound | Outbound

  /** NoState stands for the empty delivery state of an inbound message. */
  datatype DeliveryState = NoState | Queued | Sent | Delivered | HardBounce | SoftBounce | Complaint

  /** The statuses a provider callback can carry. */
  type CallbackStatus = s: DeliveryState | s.Delivered? || s.HardBounce? || s.SoftBounce? || s.Complaint?
    witness Delivered

  datatype Organization = Organization(id: Id, name: string)

  datatype Agent = Agent(id: Id, organizationId: Id, name: string)

  datatype Inbox = Inbox(id: Id, organizationId: Id, agentId: Id, emailAddress: string, displayName: string)

  datatype Contact = Contact(
    id: Id,
    organizationId: Id,
    emailAddress: string,
    displayName: string,
    lastSeenAt: Time,
    createdAt: Time,
    updatedAt: Time)

  datatype Thread = Thread(
    id: Id,
    organizationId: Id,
    agentId: Id,
    inboxId: Id,
    contactId: Id,
    subjectNormalized: string,
    state: ThreadState,
    lastInboundId: Id,
    lastOutboundId: Id,
    lastActivityAt: Time,
    createdAt: Time,
    updatedAt: Time)

  datatype Message = Message(
    id: Id,
    organizationId: Id,
    threadId: Id,
    inboxId: Id,
    contactId: Id,
    direction: Direction,
    subject: string,
    subjectNormalized: string,
    messageIdHeader: string,
    inReplyTo: string,
    references: seq<string>,
    textBody: string,
    htmlBody: string,
    rawKey: string,
    deliveryState: DeliveryState,
    providerMessageId: string,
    sentAt: Time,
    deliveredAt: Time,
    bouncedAt: Time,
    createdAt: Time)

  datatype Suppression = Suppression(
    id: Id,
    organizationId: Id,
    emailAddress: string,
    reason: DeliveryState,
    createdAt: Time,
    updatedAt: Time)

  datatype DeliveryStatus = Pending | Succeeded | Retrying | DeadLetter

  datatype Delivery = Delivery(
    id: Id,
    organizationId: Id,
    agentId: Id,
    eventId: Id,
    requestUrl: string,
    requestPayload: seq<bv8>,
    requestHeaders: map<string, string>,
    status: DeliveryStatus,
    attemptCount: int,
    responseCode: int,
    responseBody: seq<bv8>,
    lastAttemptAt: Time,
    nextAttemptAt: Time,
    createdAt: Time,
    updatedAt: Time)

  /** inbound.DurableReceiptRequest, which core.InboundReceipt repeats field by field. */
  datatype Receipt = Receipt(
    transactionId: string,
    organizationId: Id,
    agentId: Id,
    inboxId: Id,
    envelopeSender: string,
    envelopeRecipients: seq<string>,
    rawKey: string,
    receivedAt: Time)

  datatype Address = Address(email: string, displayName: string)

  datatype Attachment = Attachment(
    fileName: string,
    contentType: string,
    sizeBytes: nat,
    contentId: string,
    disposition: string)

  datatype ParsedMessage = ParsedMessage(
    messageIdHeader: string,
    inReplyTo: string,
    references: seq<string>,
    subject: string,
    subjectNormalized: string,
    textBody: string,
    htmlBody: string,
    from: Address,
    replyTo: seq<Address>,
    to: seq<Address>,
    cc: seq<Address>,
    rawHeaders: map<string, seq<string>>,
    attachments: seq<Attachment>)
}
