# agent-layer: the in-memory runtime, verified

A model of agent-layer's in-memory runtime and proofs about it. The store, the inbound pipeline, the reply and
callback pipeline, the webhook retry machine and the text functions they use are modelled file by file.

## How the model is laid out

- `Domain`, `Keys`, `Text`, `Mime`, `Parser`, `Assembler`, `Attempts`: records, digests, subject and reference
  lists, the MIME walk, the reply text, backoff and attempt recording. `RawMessages` reads such a text back.
- `Tables` gives the tables of `memory.Store` as one value and each store call as a function or relation on it.
  `Store` is the class with the source's maps; each method is proved to do what `Tables` says. A call is atomic, as
  it is under the store's mutex. `Recency` is the sorted listing.
- `Threading` is the thread resolver over that store.
- `Machine` is the runtime as a transition system. A process is one workflow call, and its program counter is the
  call it makes next with the locals it still needs. A step is one store call, one call to the provider or the
  webhook receiver, or local work between two of them. A run is any interleaving of any number of processes.
- `Integrity`, `Interleaving`, `Runs`: what holds in every state of every interleaving.
- `Deduplication`, `Contacts`, `Idempotency`: what holds in every interleaving in which handlings of one Message-ID,
  of one sender, or calls under one key do not overlap. `Races` shows why that is needed. `Conversations`: what holds
  in every sequential run, in which a workflow starts only when the one before has ended.
- `Workflows` and `Smtp` hold the services as methods over the store, each proved to be a run of the machine (`Solo`).
  `Effects` says what they leave in the tables, field by field, without the machine.
  `Refinement` and `InTurn` show that calling them one after another on one store is a sequential run.
- `Webhooks` holds the delivery services as methods, `Retries` the runs of first attempts, sweeps and replays.

## Hypotheses

- Every run starts with empty tables, apart from organizations, agents and inboxes, which no modelled workflow
  writes. A generated id is nonempty and was never generated before; this is the only condition on an interleaving.
- The digest, the parse of raw bytes, the lower-casing table and the provider's and receiver's answers are arbitrary.
  Where a claim needs more it says so: `CollisionFree`, `Apart`, `CaseFold`, `FreshProviderIds`, `ClocksAhead`.
- Conversations, and the uniqueness of outbound messages, need a Message-ID generator that does not repeat
  (`GeneratesFreshHeaders`, `RepliesGetNewIds`). The wiring at cmd/agentlayer/main.go:537 passes a constant, so these
  results speak of a generator that is what the parameter promises; `RepeatedHeaderCollides` is the run in which the
  constant one fails. Uniqueness of inbound messages, contacts, redelivery and idempotency need nothing of it.
- Conversations need Message-IDs that are globally unique and reply targets inside the given thread
  (`WellAddressed`). The reply adapter does not check the latter (cmd/agentlayer/main.go:918-935).
- Subject matching cuts off three or four characters where the source cuts bytes: the same thing as long as no
  non-ASCII character lower-cases to a letter of `re:`, `fw:` or `fwd:`.
- Times are nanoseconds since Go's zero time, unbounded; differences saturate and backoff wraps at 64 bits as in Go.

## Where the code departs from what one might expect

Each has a lemma with the failing case and one that says when the code does meet the expectation.

- A part without a usable content type overwrites a text body already found: `TextBodyOverwritten`,
  `TextIsFirstPlainExactly`.
- Escalating a thread clears its pointers and its activity time, so subject matching ranks it last:
  `ClearedThreadIsHidden`; `LatestSpeaksExactly` and `MarkedLatestSpeaksExactly` say when nothing is lost.
- The recipient of a session outlives its transaction: `RecipientOutlivesTransaction`, `TransactionOrderExactly`.
  This is `Session` as written; the go-smtp server in front of it asks for a recipient in each transaction.
- Keys join their parts with a colon: `ScopedKeyAmbiguous`, `UnambiguousExactly`.
- Duplicate check and recording, contact lookup and upsert, and idempotency lookup and submission are separate store
  calls: `OverlappingDeliveriesRecordTwice`, `OverlappingDeliveriesSplitSender`, `OverlappingRepliesSendTwice`; without
  overlap `MessagesStayUnique`, `ContactsStayInverse` and `AtMostOneSend` hold.
- The wired Message-ID generator is a constant: `RepeatedHeaderCollides`. One more message keeps Message-IDs unique
  exactly when `UniqueExactly` says, and a Message-ID settles a thread exactly when `LookupSettledExactly` says.
- Backoff overflows from the 29th attempt on: `BackoffExact`. The recorder asks for at most the third.

## Model

| member | source | states |
|---|---|---|
| Runs.EveryStateIsSound | internal/store/memory/store.go:226-305 | In every state of every interleaving of any number of SMTP, inbound, reprocess, reply, callback and escalate workflows: no message, thread, submission, inbound key or receipt refers to something absent; the thread lists hold each message exactly once under its own thread; every nonempty last-message pointer names a message of that thread and direction; the provider-id copy equals the record |
| Runs.LabelKeeps | internal/store/memory/store.go:226-318 | One store call of any process keeps the tables healthy and keeps what every other process has loaded usable |
| Interleaving.StepKeeps | internal/inbound/recorder.go:44-90 | Each single step of each workflow keeps the tables healthy, leaves its own locals valid, and only grows the tables |
| Interleaving.LocalStable | cmd/agentlayer/main.go:918-957 | What a waiting process holds (loaded thread, contact, target, queued message) stays valid under whatever other processes write |
| Integrity.SaveThreadKeeps | internal/store/memory/store.go:226-251 | Saving a thread, sparse or full, keeps every reference and pointer right, because the merge refills the contact |
| Integrity.CreateKeeps | internal/store/memory/store.go:291-305 | Creating a message under a new id keeps both indexes and the thread lists in agreement with the messages |
| Integrity.SaveMessageKeeps | internal/store/memory/store.go:307-318 | Rewriting a stored message to a later version keeps both indexes right and leaves the thread lists alone |
| Runs.RunsGrow | internal/outbound/delivery_recorder.go:35-47 | Along every interleaving nothing is lost: messages move queued, sent, confirmed and never back, suppressions stay unchanged, and no thread, contact, receipt or submission key disappears |
| Runs.SendingIsFinal | internal/outbound/status_recorder.go:29-36 | Between any two states of any interleaving a message keeps its thread and linkage, its state never goes back, and once it is no longer queued its provider id and sending time never change |
| Runs.CallbacksSeeTheRecord | internal/store/memory/store.go:307-352 | With fresh provider ids, in every interleaving every sent message is filed under its provider id and the filed copy is the record itself |
| Runs.BounceStopsReplies | internal/outbound/callback_flow.go:40-61 | After a hard-bounce or complaint callback for an address was applied, in every interleaving a reply to it for the message organization that had not passed its check by then changes and creates no message and reaches no provider; when it acts it ends at its check |
| Runs.AppliedIsSuppressed | internal/outbound/suppression.go:31-52 | Along every interleaving a callback ends suppressed for its address and the message organization if and only if it is a hard bounce or a complaint, and the pair stays suppressed |
| Runs.NoReplyAfterSuppression | internal/outbound/service.go:85-94 | Once (organization, address) is suppressed, in every continuation no process that had not yet passed its check ever gets past it; what that means for messages and sends is BounceStopsReplies |
| Runs.OnlyThePassedSend | internal/outbound/service.go:85-151 | A reply creates or changes a message, or reaches the provider, only after passing the check of its own organization and address |
| Runs.SuppressedForCause | internal/outbound/suppression.go:31-52 | In every run every suppression has a hard bounce or a complaint as its reason |
| Deduplication.MessagesStayUnique | internal/inbound/service.go:55-101 | In every interleaving in which no two processes are about to create a message under one inbox and Message-ID, no two inbound messages share an inbox and a nonempty Message-ID; and if replies get Message-IDs new to their inbox, no two messages whatever do |
| Deduplication.SequentialIsSingle | internal/inbound/service.go:55-101 | In every sequential run inbound messages are so unique, whatever generator is wired; and all messages are where replies get Message-IDs new to their inbox |
| Deduplication.SequentialClaimsApart | internal/inbound/service.go:55-101 | Sequential runs are such interleavings |
| Deduplication.FreshHeadersAreNew | internal/outbound/assembler.go:59-81 | A generator that never repeats gives such Message-IDs |
| Contacts.ContactsStayInverse | internal/store/memory/store.go:191-204 | In every interleaving in which no two handlings have a contact of one address at hand together, contacts-by-id and contacts-by-email are mutually inverse, one contact per sender |
| Contacts.SequentialContacts | internal/contacts/resolver.go:24-55 | So in every sequential run, whatever generator is wired |
| Deduplication.LookupIsExact | internal/store/memory/store.go:320-331 | With a collision-free digest and stored inbox ids that neither extend the asked one by a colon nor are extended by it, the lookup finds a message if and only if one bears this inbox and Message-ID; what it finds bears them, and is the only bearer if there is just one |
| Deduplication.UniqueIsOnlyBearer | internal/store/memory/store.go:320-331 | A message is the only bearer where all are unique; an inbound one is where inbound ones are, unless a reply took its Message-ID |
| Deduplication.DuplicateExactly | internal/inbound/service.go:61-87 | Mail is taken for a duplicate if and only if a message with its inbox and nonempty Message-ID is stored |
| Deduplication.UniqueExactly | internal/store/memory/store.go:291-318 | A new message keeps Message-IDs unique per inbox if and only if none with its inbox and Message-ID is stored |
| Deduplication.RedeliveryIsNoOp | internal/inbound/service.go:61-87 | In every interleaving, once recorded, whatever happened since, handling or reprocessing the same mail changes no table and ends, within a computed number of steps, as a duplicate answered with a stored message of its inbox and Message-ID, its thread and its contact: the recorded one, if no other bears them |
| Deduplication.RedeliveryAnswers | internal/app/inbound_reprocess_service.go:26-44 | Every outcome such a handling can reach is that successful answer, over unchanged tables |
| Contacts.UpsertKeepsInverse | internal/store/memory/store.go:191-204 | Upserting the resolved contact keeps contacts-by-id and contacts-by-email inverse |
| Conversations.AnswersJoinTheThread | internal/threading/resolver.go:51-64 | In every sequential run with unique Message-IDs and replies aimed inside their thread, a message whose In-Reply-To is the Message-ID of an earlier stored one has its ThreadID |
| Conversations.ChainsStayTogether | internal/outbound/assembler.go:76-81 | Hence a whole chain of answers, inbound and outbound mixed, lies in one thread |
| Idempotency.OnceThroughout | cmd/agentlayer/main.go:867-960 | The send discipline (every accepted send settled or being recorded, one per key, submissions grounded in sends, callers told the truth) holds in every state of every interleaving in which calls under one key do not overlap |
| Idempotency.SequentialDoesNotOverlap | cmd/agentlayer/main.go:867-960 | Sequential runs are such interleavings |
| Idempotency.AtMostOneSend | cmd/agentlayer/main.go:867-960 | In every such interleaving the provider accepts at most one send per thread and nonempty idempotency key |
| Idempotency.SameAnswerForEver | cmd/agentlayer/main.go:868-888 | All calls under one thread and key that are told of a send are told the same message id, provider id and accepted time, whatever callbacks came between |
| Idempotency.LaterCallIsAnswered | cmd/agentlayer/main.go:868-888 | Once a call was told of its send, each later call under its thread and key succeeds in exactly two steps, writes nothing, sends nothing, and tells the same message id, provider id and accepted time |
| Idempotency.LaterCallStaysAnswered | cmd/agentlayer/main.go:868-888 | Interleaved with other processes, too, such a call is always on its way to that answer or has it |
| Idempotency.KeysDoNotMix | internal/platform/idempotency/keys.go:12-19 | With a collision-free digest and thread ids that do not extend one another by a colon, a submission key resolves only to a send under that very thread and key |
| Races.OverlappingRepliesSendTwice | cmd/agentlayer/main.go:868-957 | After every run, two overlapping calls of one deliverable reply under a new key can both be accepted: AtMostOneSend needs its hypothesis |
| Races.OverlappingDeliveriesRecordTwice | internal/inbound/service.go:61-90 | After every run, two overlapping deliveries of one new message to one inbox, from their raw bytes on, can both be recorded: MessagesStayUnique needs its hypothesis |
| Races.WritesSend | internal/outbound/service.go:110-151 | From its first write on nothing keeps a reply from the provider |
| Races.OverlappingDeliveriesSplitSender | internal/contacts/resolver.go:24-55 | After every run, two overlapping deliveries from one new sender can both file a contact for the address: ContactsStayInverse needs its hypothesis |
| Races.RepeatedHeaderCollides | cmd/agentlayer/main.go:537 | With a generator that answers twice with one Message-ID, two replies from one inbox, one after the other, end the uniqueness of Message-IDs |
| Refinement.WorkflowExtendsRun | internal/inbound/service.go:55-102 | A workflow that, alone and with new ids, reaches an outcome from the end of an idle sequential run extends that run by one workflow with that outcome, those tables and that history |
| Refinement.ProcessExtendsRun | internal/inbound/service.go:55-102 | Whatever a process can do left to itself it can do as the next steps of any run |
| InTurn.Begin | internal/store/memory/store.go:45-66 | A store with only its configuration holds the one state of a run that has not begun |
| InTurn.ThreadsAreThere | internal/store/memory/store.go:226-305 | At the end of every such run every message has its thread, so the resolver answers field by field |
| InTurn.ReceiveNext | internal/smtpedge/receipt_sink.go:34-54 | Called on a store that holds the end of a sequential run, it leaves the store at the end of a longer one, in which the call was the next workflow, with the effect that HandleStoredMessage states; a webhook goes out exactly for a message just recorded |
| InTurn.ReprocessNext | internal/app/inbound_reprocess_service.go:26-44 | The same for reprocessing a stored receipt |
| InTurn.SendReplyNext | cmd/agentlayer/main.go:867-960 | The same for a reply; and a call whose thread and key an earlier call was told of succeeds with that message id, provider id and accepted time, changes no table and sends nothing |
| InTurn.ApplyCallbackNext | internal/outbound/callback_flow.go:40-61 | The same for a callback; a hard bounce or complaint leaves its address suppressed for the message organization |
| InTurn.EscalateNext | cmd/agentlayer/main.go:962-967 | The same for an escalation |
| InTurn.HandleAgain | internal/app/inbound_runtime_service.go:74-82 | Called at the end of a sequential run, handling recorded mail again changes no table, sends no webhook, and answers with a stored message of its inbox and Message-ID: the recorded one, with its thread id and contact id, if no other bears them |
| InTurn.ReprocessAgain | internal/app/inbound_reprocess_service.go:26-44 | The same for reprocessing its receipt |
| Workflows.LookupsArrive | internal/threading/resolver.go:51-116 | The thread resolver, one atomic answer in the methods, is what the step machine reaches one store lookup at a time |
| Store.Store.Put | internal/store/memory/store.go:127-132 | Files the raw bytes under the key and changes nothing else |
| Store.Store.SaveInboundReceipt | internal/store/memory/store.go:144-149 | Files the receipt under its object key and changes nothing else |
| Store.Store.UpsertByEmail | internal/store/memory/store.go:198-204 | Writes the contact to both contact tables |
| Store.Store.Save | internal/store/memory/store.go:226-251 | Stores the thread and returns it: organization, agent, inbox, contact, subject and state its own or, where empty, the stored ones; all else its own |
| Store.Store.SaveMessage | internal/store/memory/store.go:307-318 | Files the record under its id, under its inbox and Message-ID and under its provider id if it has them, and leaves the thread lists |
| Store.Store.Create | internal/store/memory/store.go:291-305 | The same, and appends the id to its thread list |
| Store.Store.SaveReplySubmission | internal/store/memory/store.go:364-369 | Maps the submission key to the message |
| Store.Store.SaveSuppression | internal/store/memory/store.go:406-411 | Files the suppression under its id |
| Store.Store.SaveWebhookDelivery | internal/store/memory/store.go:457-462 | Files the delivery under its id |
| Store.Store.FindInboundByHeader | internal/store/memory/store.go:320-331 | The stored message that the inbound-key index leads to, if it does |
| Store.Store.FindReplyBySubmissionKey | internal/store/memory/store.go:371-380 | The stored message that the submission index leads to, if it does |
| Store.Store.FindByMessageId | internal/store/memory/store.go:253-263 | The stored thread of some message bearing the header; nothing only if none bears it or a bearer has no thread |
| Store.Store.FindMostRecentBySubject | internal/store/memory/store.go:265-289 | Some stored thread with these four values and the latest activity of all such; nothing exactly if there is none |
| Store.Store.IsSuppressed | internal/store/memory/store.go:413-422 | True if and only if some record has this organization and address |
| Store.Store.ListByThreadId | internal/store/memory/store.go:333-345 | The records of the first ids of the thread list, in order, with the zero message for an id without a record |
| Store.Store.ListInboundReceipts | internal/store/memory/store.go:161-182 | Newest first by ReceivedAt, then by key, and none left out is newer than one listed |
| Store.Store.ListSuppressions | internal/store/memory/store.go:434-455 | Newest first by UpdatedAt, then by id, and none left out is newer than one listed |
| Store.Store.ListWebhookDeliveries | internal/store/memory/store.go:474-495 | Newest first by UpdatedAt, then by id, and none left out is newer than one listed |
| Store.Store.SaveOrganization | internal/store/memory/store.go:75-80 | Files the organization under its id |
| Store.Store.SaveAgent | internal/store/memory/store.go:92-97 | Files the agent under its id |
| Store.Store.SaveInbox | internal/store/memory/store.go:109-115 | Files the inbox under its id and under its address |
| Store.Store.constructor | internal/store/memory/store.go:45-66 | A new store is empty |
| Store.Refill | internal/store/memory/store.go:229-248 | Exactly six fields are refilled from the stored thread when they come empty; the pointers and the activity time are not |
| Store.DeliveryListUnique | internal/store/memory/store.go:474-495 | Two listings of one delivery table with one limit are equal, so map iteration order never shows |
| Recency.Recent | internal/store/memory/store.go:161-182 | Sorting then cutting yields the descending top of the table |
| Recency.SortSlice | internal/store/memory/store.go:171-181 | The sorted slice is descending and a permutation of the input |
| Recency.LessByFirstDifference | internal/store/memory/store.go:171-181 | A key sorts before another if and only if it is a proper start of it or has the smaller character where they first differ |
| Recency.RecentListUnique | internal/store/memory/store.go:161-182 | With distinct ranks there is exactly one such list for every table and limit |
| Recency.FullListIsTable | internal/store/memory/store.go:474-495 | A list with limit 0 or at least the table size holds the whole table |
| Threading.Resolve | internal/threading/resolver.go:51-116 | For every store and input: the thread of the first known id in In-Reply-To then References, else the most recent subject match if not dormant, else a fresh thread; and, while messages have their threads, the same in the fields of the stored messages and threads |
| Threading.ResolvesByField | internal/threading/resolver.go:51-126 | Field by field: a known In-Reply-To gives its stored thread, else the first known reference does; else the stored thread with this organization, inbox, contact and subject and the latest activity, if it is not marked Dormant and has no activity time or one at most the threshold before; else a new Active thread with the given id, the input values and the receipt time in all three times |
| Threading.FirstKnownLinkDecides | internal/threading/resolver.go:51-78 | A known link id always decides, and the first known one does |
| Threading.LookupMissesUnknown | internal/store/memory/store.go:253-263 | While messages have their threads, an id is passed over if and only if no message bears it |
| Threading.LookupSettledExactly | internal/store/memory/store.go:253-263 | An id settles the thread if and only if all its bearers lie in one thread |
| Threading.ResolveBySubject | internal/threading/resolver.go:80-116 | The subject half of that, in both forms |
| Threading.LatestSpeaksExactly | internal/threading/resolver.go:80-126 | If the most recent match is not marked dormant, a new thread is opened exactly when every match is stale, if and only if that match is fresh or every match without activity time is marked |
| Threading.MarkedLatestSpeaksExactly | internal/threading/resolver.go:80-126 | If it is marked dormant, that is so if and only if every match without activity time is marked and the most recent unmarked match, if any, is stale |
| Threading.LatestSpeaksForAll | internal/threading/resolver.go:80-126 | When no match is marked dormant or lacks an activity time, a new thread is opened if and only if every matching thread is stale |
| Threading.ClearedThreadIsHidden | internal/app/write_services.go:36-43 | After escalating either of two matching threads of which the other is stale, the subject path opens a new thread although the escalated one still matches and is not stale |
| Keys.UnambiguousExactly | internal/platform/idempotency/keys.go:16-19 | With a collision-free digest the keys of a set of owner ids stand for one pair each if and only if no id of the set extends another by a colon |
| Keys.ScopedKeyInjective | internal/platform/idempotency/keys.go:16-19 | Equal keys mean equal parts for two owner ids neither of which extends the other by a colon |
| Keys.ScopedKeyAmbiguous | internal/platform/idempotency/keys.go:16-19 | An owner id that extends another by a colon shares keys with it, for any digest |
| Keys.ColonFreeAreApart | internal/platform/idempotency/keys.go:16-19 | Ids without colons never extend one another |
| Text.NormalizeSubject | internal/parser/parser.go:182-197 | The loop terminates and computes the normal form of the four laws below |
| Text.PlainSubjectKept | internal/parser/parser.go:182-197 | A subject that does not open with re:, fw: or fwd: in any case normalises to itself, trimmed and lower-cased |
| Text.NormalFormIsTheRest | internal/parser/parser.go:182-197 | Every trimmed subject is a stack of markers and a rest whose trimmed form opens with none; the normal form is that trimmed rest in lower case |
| Text.TrimSplit | internal/parser/parser.go:183 | Trimming cuts blanks off both ends and nothing else |
| Text.NormalizeIdempotent | internal/parser/parser.go:182-197 | Normalising twice is normalising once |
| Text.StackIgnored | internal/parser/parser.go:182-197 | Any stack of re:, fw: and fwd: markers, in any case and spacing, leaves the normal form unchanged |
| Text.ReplyKeepsSubject | internal/outbound/assembler.go:84-94 | A reply subject normalises to what its parent subject does |
| Text.ReplySubjectOpens | internal/outbound/assembler.go:84-94 | A reply subject opens with re: in some case; one that did so stays, a blank one becomes Re:, any other gets Re: and a blank in front |
| Text.RepliesKeepSubject | internal/outbound/assembler.go:84-94 | So it does after any number of replies |
| Text.AsciiLowerFolds | internal/parser/parser.go:185 | Plain ASCII lower-casing meets the conditions put on the lower-casing table |
| Text.FieldsOfJoin | internal/parser/parser.go:43 | Joining nonempty whitespace-free ids with spaces and splitting on whitespace gives the same list back |
| Text.FieldsSplitAtBlank | internal/parser/parser.go:43 | Splitting at a blank gives the fields before it and the fields after it |
| Text.FieldsOfOne | internal/parser/parser.go:43 | A blank string has no fields, a nonempty one without blanks is its own field |
| Assembler.ReferencesRoundTrip | internal/outbound/assembler.go:59-81 | The reply refers to the parent list followed by the parent Message-ID, and that list survives printing and parsing |
| Assembler.ReplyReadsBack | internal/outbound/assembler.go:44-81 | Cut at line breaks up to the empty line, the text of a reply whose values contain none reads back: From is the inbox, To the contact, then the reply subject, the generated Message-ID, the target id as In-Reply-To, the reference list, and the fixed headers; what follows the empty line is the body text |
| RawMessages.LetterReadsBack | internal/outbound/assembler.go:60-76 | Any header lines, an empty line and any body, joined by line breaks, read back as those headers and that body |
| RawMessages.AddressReadsBack | internal/outbound/assembler.go:96-101 | An address printed after a name in angle brackets, or alone, reads back as that name and address |
| Assembler.ChainListsAncestors | internal/outbound/assembler.go:59-69 | Down a chain of replies the last refers to every ancestor, in order |
| Mime.Parsed.Populate | internal/parser/parser.go:61-128 | The recursive in-place walk equals one left fold over the leaves in document order, given up at the first unreadable leaf |
| Mime.Parsed.PopulateParts | internal/parser/parser.go:70-107 | The same for the parts of one multipart body: attachments are recorded and not descended into |
| Mime.WalkReadsTree | internal/parser/parser.go:61-128 | Read off the tree itself: the walk succeeds if and only if every entity and attachment it has to read can be read; then the HTML body is the first nonempty text/html payload, the attachments are all of them with name, type, size and ids, and the text body is the first nonempty text from the last body without a media type on |
| Mime.HtmlAndAttachments | internal/parser/parser.go:61-128 | The HTML body is the first nonempty text/html payload and the attachments are all of them, in order |
| Mime.TextWellTyped | internal/parser/parser.go:118-126 | Without leaves of unusable content type the text body is the first nonempty text/plain payload |
| Mime.TextAfterUnparsable | internal/parser/parser.go:62-69 | The last leaf of unusable content type overwrites the text body, and only an empty one lets a later text/plain in |
| Mime.TextIsFirstPlainExactly | internal/parser/parser.go:61-128 | The text body is the first nonempty text/plain payload if and only if no leaf has an unusable content type, or the last such leaf holds that very text, or it is empty and that payload comes first after it |
| Mime.TextBodyOverwritten | internal/parser/parser.go:62-69 | A concrete tree whose text/plain body is replaced by a later part without a content type |
| Parser.Parse | internal/parser/parser.go:29-59 | The parsed message: headers taken over, address lists and the first sender, References split, subject normalised, bodies and attachments as the tree has them; nothing exactly when some of it cannot be read |
| Attempts.DefaultBackoff | internal/webhooks/recorder.go:65-74 | The doubling loop, in wrapping 64-bit nanoseconds |
| Attempts.BackoffExact | internal/webhooks/recorder.go:65-74 | For n of at least 1 the delay is 2^(n-1) minutes if and only if n is at most 28 |
| Attempts.RecordedByField | internal/webhooks/recorder.go:41-63 | An answered attempt counts one more; only a status from 200 to 299 succeeds; else up to the third attempt the next is due 2^(n-1) minutes after the answer, and after it the delivery is dead; request, ids and creation time stay |
| Webhooks.CopyHeaders | internal/webhooks/delivery_service.go:62-71 | The copy has exactly the same headers |
| Webhooks.RecordAttempt | internal/webhooks/recorder.go:41-63 | Stores the delivery with that record |
| Webhooks.DeliverAndRecord | internal/webhooks/delivery_service.go:36-60 | The snapshot stored is the request sent; a transport failure stores nothing |
| Webhooks.ReplayDelivery | internal/webhooks/replay_service.go:31-68 | Sends the stored request again, records the attempt only when answered, and succeeds exactly then |
| Webhooks.ReplayedByField | internal/webhooks/replay_service.go:31-68 | In fields: a stored delivery with URL and payload is sent with exactly these and its headers, and its record replaced only when answered; any other call changes nothing |
| Webhooks.RetryDueDeliveries | internal/webhooks/retry_sweep_service.go:43-69 | Replays the due deliveries of its listing; Attempted is the number of listed deliveries that are Retrying with a nonzero NextAttemptAt not after the time of the sweep; Attempted + Skipped is the listing, Attempted is Succeeded + Failed, and the reported deliveries are the new records of the answered replays, in order |
| Retries.SweepEffect | internal/webhooks/retry_sweep_service.go:43-69 | A sweep sends each listed due delivery once, in order, records those answered, and leaves every other delivery unchanged |
| Retries.WholeSweepSendsTheDue | internal/webhooks/retry_sweep_service.go:43-79 | With limit 0 or at least the table size a sweep sends exactly one request for each stored delivery that is Retrying with a nonzero NextAttemptAt not after its time and has URL and payload, and none for any other |
| Retries.SweepReports | internal/webhooks/retry_sweep_service.go:51-66 | The reported deliveries are exactly the listed ones that were due and answered |
| Retries.HistoryIsCounted | internal/webhooks/recorder.go:41-63 | In every run, manual replays included, every stored delivery has an answered attempt and every retrying one at most three |
| Retries.NothingAnsweredStaysDue | internal/webhooks/retry_sweep_service.go:43-79 | After a sweep of the whole table a delivery whose receiver clock is not behind is due at its time if and only if it was due and got no answer |
| Retries.UnansweredStaysDue | internal/webhooks/retry_sweep_service.go:71-79 | A delivery due at one time that a sweep does not list, or gets no answer for, is unchanged and due at every later time |
| Retries.OneRequestForEver | internal/webhooks/replay_service.go:31-68 | Every attempt of a delivery, first, swept or replayed by hand, in any run, sends the same URL, payload and headers |
| Retries.AttemptsAreFewAndSpaced | internal/webhooks/recorder.go:41-74 | A delivery not replayed by hand, whatever happens to others, gets at most 4 answered attempts; where its receiver clock has reached the times of the sweeps, the k-th comes at least 2^(k-1) - 1 minutes after the first |
| Retries.DueReplaySpends | internal/webhooks/recorder.go:41-63 | Each answered retry strictly lowers the sum of (4 - AttemptCount) over retrying deliveries; an unanswered one leaves it |
| Retries.SweepSpends | internal/webhooks/retry_sweep_service.go:51-66 | Over one sweep the answered retries are at most the fall of that sum |
| Retries.RetriesAreBounded | internal/webhooks/retry_sweep_service.go:43-69 | After any run, manual replays included, however many sweeps follow, N deliveries use at most 3N answered retries |
| Workflows.Process | internal/inbound/processor.go:44-78 | Reads only: mail is taken exactly when its raw bytes are stored and can be parsed; then its sender and its thread, field by field; run alone, with new ids, it is a run of the step machine to that point |
| Workflows.ResolveContact | internal/contacts/resolver.go:24-55 | The stored contact of the sender address with the new times and any new name, else a new contact with the sender values; all fields |
| Workflows.RecordThread | internal/inbound/recorder.go:45-53 | Contact then thread, in that order, and no other table; run alone, with new ids, it is a run of the step machine to that point |
| Workflows.RecordMessage | internal/inbound/recorder.go:55-83 | The stored message has every field of the mail and of its receipt; the stored thread points to it, has the receipt time as activity and update time, and keeps its other fields; no other table changes; run alone, with new ids, it is a run of the step machine to that point |
| Workflows.RecordMail | internal/inbound/recorder.go:44-90 | Both halves together: sender, resolved thread pointing to the message, message, and exactly the tables that hold them; run alone, with new ids, it is a run of the step machine to that point |
| Workflows.AnswerDuplicate | internal/inbound/service.go:66-86 | Answers with the recorded message, its thread and its contact, or fails for want of either; run alone, with new ids, it is a run of the step machine to that point |
| Workflows.LookForDuplicate | internal/inbound/service.go:61-65 | The stored message its inbox and Message-ID are indexed to, if the mail has a Message-ID; run alone, with new ids, it is a run of the step machine to that point |
| Workflows.NotifyReceived | internal/app/inbound_runtime_service.go:84-114 | One webhook request when there is somebody to notify; its record is filed when answered, a transport failure fails the call; run alone, with new ids, it is a run of the step machine to that point |
| Workflows.HandleStoredMessage | internal/app/inbound_runtime_service.go:74-117 | In the fields of the tables before and after: unreadable mail fails and changes nothing; mail whose inbox and Message-ID are indexed is answered with that message and changes nothing; other mail is recorded as RecordMail says and told of as NotifyReceived says. A webhook goes out exactly for messages just recorded; run alone, with new ids, it is a run of the step machine to that point |
| Workflows.ReprocessByObjectKey | internal/app/inbound_reprocess_service.go:26-44 | Handles the message of a stored receipt again, with that effect; without the receipt fails and changes nothing; run alone, with new ids, it is a run of the step machine to that point |
| Workflows.Receive | internal/smtpedge/receipt_sink.go:34-54 | Raw bytes and receipt filed, then handled, with that effect; run alone, with new ids, it is a run of the step machine to that point |
| Workflows.LoadParties | cmd/agentlayer/main.go:890-916 | The default ids org-local, agent-local and inbox-local where none is given, and the three lookups; fails exactly when one misses; run alone, with new ids, it is a run of the step machine to that point |
| Workflows.LoadReplyContext | cmd/agentlayer/main.go:890-935 | The context the input leads to, writing nothing; fails exactly when there is none; run alone, with new ids, it is a run of the step machine to that point |
| Workflows.RecordQueuedReply | internal/outbound/recorder.go:72-118 | Raw bytes under the object key; a queued message with all fields of the context and the linkage; the thread pointing to it and active then; no other table; run alone, with new ids, it is a run of the step machine to that point |
| Workflows.RecordSentReply | internal/outbound/status_recorder.go:29-36 | The accepted send, its provider id and time, on the message and nothing else of it; then the submission key, if there is one; run alone, with new ids, it is a run of the step machine to that point |
| Workflows.SendAssembled | internal/outbound/service.go:85-151 | A reply is filed if and only if inbox, contact, target id and object key are there and no suppression has the pair; then the bytes under its key read back as that reply, message and thread have the fields they should, and it is sent or queued as the provider answers; otherwise it fails and changes nothing. At most one message and one send; run alone, with new ids, it is a run of the step machine to that point |
| Workflows.DeliverableByField | internal/outbound/service.go:85-110 | The reasons that stop a reply before its first write, listed in the fields of the stored records |
| Workflows.SendReply | cmd/agentlayer/main.go:867-960 | A key that leads to a stored message is answered with it and changes nothing; else without the context the input names it fails and changes nothing; else SendAssembled decides. At most one message and one send; run alone, with new ids, it is a run of the step machine to that point |
| Workflows.LookForSubmission | cmd/agentlayer/main.go:868-876 | The stored message that the thread and key of the input lead to, if there is a key; run alone, with new ids, it is a run of the step machine to that point |
| Workflows.ApplyCallback | internal/outbound/callback_flow.go:40-61 | An unknown provider id fails and changes nothing; else the message under it has the new state, the delivery or bounce time that goes with it, and all its other fields; a hard bounce or complaint, and nothing else, files a suppression for the pair with that reason and time; run alone, with new ids, it is a run of the step machine to that point |
| Workflows.EscalateThread | cmd/agentlayer/main.go:962-967 | An unknown thread fails; a known one is Escalated, keeps its parties and subject, loses pointers, activity and creation time, and is updated now; run alone, with new ids, it is a run of the step machine to that point |
| Smtp.Session.constructor | internal/smtpedge/session.go:40-65 | A session starts without sender, recipient or inbox |
| Smtp.Session.MailFrom | internal/smtpedge/session.go:67-73 | Takes a nonempty sender and touches nothing else |
| Smtp.Session.RcptTo | internal/smtpedge/session.go:75-91 | Takes the address and its inbox together, or changes nothing |
| Smtp.Session.Data | internal/smtpedge/session.go:93-122 | Refused without effect unless there is a sender and a recipient; else the bytes and a receipt with the session id, sender, recipient and target inbox are filed and the mail is handled |
| Smtp.EnvelopeIsLastAccepted | internal/smtpedge/session.go:67-122 | Over any session the envelope is the last accepted sender and the last accepted recipient with its inbox, and DATA is taken exactly when there is one of each |
| Smtp.RecipientOutlivesTransaction | internal/smtpedge/session.go:67-101 | A concrete session in which a second message goes to the inbox named for the first |
| Smtp.TransactionOrderExactly | internal/smtpedge/session.go:67-101 | DATA implies a recipient since the last MAIL (RFC 5321 section 3.3) if and only if none was accepted before it or one was after it |

## Left out

- HTTP handlers, JSON decoding, readiness checks, the command line and environment configuration: plumbing.
- Postgres, S3 and filesystem stores: foreign engines whose list order and thread save differ from the memory store.
- Errors a store call could return for reasons other than a missing record: the memory store has none.
- net/mail, mime, base64 and quoted-printable decoding: a message arrives as headers and an already split MIME tree,
  in which decoding a payload or finding a part may fail; address headers arrive as parsed lists.
- SHA-256 and HMAC signing: the digest is a parameter; building and signing the webhook payload happens before the
  request is handed to the model as URL, payload bytes and headers.
- Email providers and the HTTP dispatcher: an accepted send or a status code and time, or an error, as inputs.
- Contact memory: its table, its writes, and its read when a webhook payload is built.
- Organizations, agents and inboxes are configured before a run begins; the three configuration lookups of a reply
  are one step.
- Contact claims across organizations: the lookup by address ignores the organization
  (internal/store/memory/store.go:191-196), so the contact of another organization may be taken over.
- The ticker goroutine and server start-up: the retry worker is an arbitrary sequence of sweeps. Sweeps, replays and
  first attempts do not overlap one another in the model, and neither do the steps within one.
- Fairness of limited sweeps: a limited sweep sees only the most recently updated deliveries, so nothing is claimed
  of small limits beyond what each sweep does with its listing.
- Session reset and logout, which change nothing in the source, and the command order go-smtp itself enforces.
- Validation of receipts and requests at the HTTP edge, and invalid UTF-8 in subjects.
- Read and list services, bootstrap and field-by-field copies: straight-line members only.
- Idempotency.AtMostOneSend: not claimed where calls under one key overlap, because they can send twice (`OverlappingRepliesSendTwice`).
- Deduplication.MessagesStayUnique: not claimed where handlings of one Message-ID overlap, because they can record twice (`OverlappingDeliveriesRecordTwice`).
- Retries.AttemptsAreFewAndSpaced: not claimed of a delivery replayed by hand, because a replay is not held back by attempt counts or times.
