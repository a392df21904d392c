/** Why the hypotheses matter: overlapping calls, and a Message-ID generator that repeats. */
module Races {
  import opened Domain
  import opened Keys
  import opened Tables
  import opened Threading
  import opened Machine
  import opened Assembler
  import opened Solo
  import opened Integrity
  import opened Interleaving
  import opened Runs
  import opened Deduplication
  import opened Contacts
  import opened Idempotency
  import opened Refinement

  // ---------------------------------------------------------------- a reply, step by step

  function InboxIdOf(input: ReplyInput): Id {
    OrDefault(input.inboxId, "inbox-local")
  }

  /** Nothing a reply looks up before its first write stands in its way. */
  ghost predicate Deliverable(db: Db, input: ReplyInput) {
    var o, a, i := OrDefault(input.organizationId, "org-local"), OrDefault(input.agentId, "agent-local"),
                   InboxIdOf(input);
    && o in db.organizations && a in db.agents && i in db.inboxes && db.inboxes[i].emailAddress != ""
    && input.objectKey != "" && input.threadId in db.threads
    && input.targetId in db.messages && db.messages[input.targetId].messageIdHeader != ""
    && var id := OrDefault(input.contactId, db.threads[input.threadId].contactId);
       && id in db.contacts && db.contacts[id].emailAddress != ""
       && !db.Suppressed(db.organizations[o].id, db.contacts[id].emailAddress)
  }

  ghost function Loaded(db: Db, input: ReplyInput): Context
    requires Deliverable(db, input)
  {
    var t := db.threads[input.threadId];
    Context(input, db.organizations[OrDefault(input.organizationId, "org-local")],
            db.agents[OrDefault(input.agentId, "agent-local")], db.inboxes[InboxIdOf(input)],
            t, db.contacts[OrDefault(input.contactId, t.contactId)], db.messages[input.targetId])
  }

  /** Where a deliverable reply stands after k lookups. */
  ghost function LookedUp(env: Env, db: Db, input: ReplyInput, c: Choice, k: nat): Pc
    requires Deliverable(db, input)
  {
    var x := Loaded(db, input);
    if k == 0 then Replying(FindSubmission(input))
    else if k == 1 then Replying(LoadConfig(input))
    else if k == 2 then Replying(LoadThread(input, x.organization, x.agent, x.inbox))
    else if k == 3 then Replying(LoadContact(input, x.organization, x.agent, x.inbox, x.thread))
    else if k == 4 then Replying(LoadTarget(input, x.organization, x.agent, x.inbox, x.thread, x.contact))
    else if k == 5 then Replying(CheckSuppression(x))
    else AfterCheck(env, x, c)
  }

  lemma LookUp(env: Env, db: Db, input: ReplyInput, c: Choice, k: nat, past: Past)
    requires Deliverable(db, input) && Unsent(env, db, input) && k < 6
    ensures var here := Place(db, LookedUp(env, db, input, c, k), past);
            && CanStep(here, c)
            && Stepped(env, here, c) == here.(pc := LookedUp(env, db, input, c, k + 1))
  {
    hide ReplyKey, NextHandling, NextUpdating, AfterCheck;
  }

  lemma {:induction false} LooksUp(env: Env, db: Db, input: ReplyInput, c: Choice, k: nat, past: Past)
    requires Deliverable(db, input) && Unsent(env, db, input) && k <= 6
    ensures Reaches(env, Place(db, Replying(FindSubmission(input)), past),
                    Place(db, LookedUp(env, db, input, c, k), past))
  {
    hide Reaches, Deliverable, Unsent, Stepped, CanStep;
    var start := Place(db, Replying(FindSubmission(input)), past);
    if k == 0 {
      ReachesItself(env, start);
    } else {
      LooksUp(env, db, input, c, k - 1, past);
      LookUp(env, db, input, c, k - 1, past);
      ReachesNext(env, start, Place(db, LookedUp(env, db, input, c, k - 1), past), c);
    }
  }

  /** The lookups change nothing and lead to the first write, under the generated Message-ID. */
  lemma LookupsPass(env: Env, db: Db, input: ReplyInput, c: Choice, past: Past) returns (x: Context, reply: Reply)
    requires Deliverable(db, input) && Unsent(env, db, input)
    ensures x == Loaded(db, input) && reply.metadata.messageIdHeader == c.header
    ensures Reaches(env, Place(db, Replying(FindSubmission(input)), past),
                    Place(db, Replying(PutReply(x, reply, c.now)), past))
  {
    hide Reaches, Unsent;
    LooksUp(env, db, input, c, 6, past);
    x := Loaded(db, input);
    reply := AssembleReply(env.fold, x.inbox, x.contact, x.target, x.input.bodyText, c.header).value;
  }

  /** The tables after a reply's writes up to the send. */
  ghost function WithQueued(env: Env, db: Db, x: Context, reply: Reply, at: Time, id: Id): Db {
    var m := OutboundMessage(x, reply, at, id);
    db.PutRaw(x.input.objectKey, reply.rawMime).CreateMessage(env.digest, m).SaveThread(RepliedThread(x.thread, id, at))
  }

  /** From its first write on, nothing keeps a reply from the provider. */
  lemma WritesSend(env: Env, db: Db, x: Context, reply: Reply, at: Time, past: Past, c: Choice)
    returns (t: Thread)
    requires c.id != "" && c.id !in past.issued && c.sent.Some?
    ensures var m := OutboundMessage(x, reply, at, c.id);
            Reaches(env, Place(db, Replying(PutReply(x, reply, at)), past),
                    Place(WithQueued(env, db, x, reply, at, c.id), Replying(RecordSent(x, t, m, c.sent.value)),
                          NotedMessage(past, c.id).(
                            dispatched := past.dispatched + [Dispatch(x.input, c.id, c.sent.value)])))
  {
    hide Reaches, NextHandling, NextUpdating, Db.PutRaw, Db.CreateMessage, Db.SaveThread, Db.Merged, AssembleReply;
    var start := Place(db, Replying(PutReply(x, reply, at)), past);
    var m := OutboundMessage(x, reply, at, c.id);
    var db1 := db.PutRaw(x.input.objectKey, reply.rawMime);
    var db2 := db1.CreateMessage(env.digest, m);
    var db3 := db2.SaveThread(RepliedThread(x.thread, c.id, at));
    t := db2.Merged(RepliedThread(x.thread, c.id, at));
    ReachesItself(env, start);
    ReachesNext(env, start, start, c);
    ReachesNext(env, start, Place(db1, Replying(CreateReply(x, reply, at)), past), c);
    ReachesNext(env, start, Place(db2, Replying(SaveReplyThread(x, reply, m)), NotedMessage(past, c.id)), c);
    ReachesNext(env, start, Place(db3, Replying(Send(x, t, m)), NotedMessage(past, c.id)), c);
  }

  // ---------------------------------------------------------------- overlapping replies

  lemma LooksUpInRun(env: Env, r: Run, pid: nat, input: ReplyInput, c: Choice)
    returns (r': Run, x: Context, reply: Reply)
    requires r.states != [] && IsRun(env, r) && pid < |Last(r).procs|
    requires Last(r).procs[pid] == Replying(FindSubmission(input))
    requires Unsent(env, Last(r).db, input) && Deliverable(Last(r).db, input)
    ensures r'.states != [] && IsRun(env, r') && ExtendsRun(r, r') && x.input == input
    ensures Last(r') == Last(r).(procs := Last(r).procs[pid := Replying(PutReply(x, reply, c.now))])
  {
    hide IsRun, Reaches, Unsent;
    x, reply := LookupsPass(env, Last(r).db, input, c, PastOf(Last(r)));
    r' := ReachingExtendsRun(env, r, pid, PlaceOf(Last(r), pid).(pc := Replying(PutReply(x, reply, c.now))));
  }

  lemma SendsInRun(env: Env, r: Run, pid: nat, x: Context, reply: Reply, at: Time, c: Choice) returns (r': Run)
    requires r.states != [] && IsRun(env, r) && pid < |Last(r).procs|
    requires Last(r).procs[pid] == Replying(PutReply(x, reply, at))
    requires c.id != "" && c.id !in Last(r).issued && c.sent.Some?
    ensures r'.states != [] && IsRun(env, r') && ExtendsRun(r, r')
    ensures |Last(r').procs| == |Last(r).procs|
    ensures forall i :: 0 <= i < |Last(r).procs| && i != pid ==> Last(r').procs[i] == Last(r).procs[i]
    ensures Last(r').issued == Last(r).issued + {c.id}
    ensures Last(r').dispatched == Last(r).dispatched + [Dispatch(x.input, c.id, c.sent.value)]
  {
    hide IsRun, Reaches, WithQueued;
    var past := PastOf(Last(r));
    var t := WritesSend(env, Last(r).db, x, reply, at, past, c);
    r' := ReachingExtendsRun(
      env, r, pid,
      Place(WithQueued(env, Last(r).db, x, reply, at, c.id),
            Replying(RecordSent(x, t, OutboundMessage(x, reply, at, c.id), c.sent.value)),
            NotedMessage(past, c.id).(dispatched := past.dispatched + [Dispatch(x.input, c.id, c.sent.value)])));
  }

  /**
   After every run, two overlapping calls of one deliverable reply under a new key can both be sent: the
   lookup and the saved submission are separate store calls, and nothing in between asks again.
   */
  lemma OverlappingRepliesSendTwice(env: Env, r: Run, input: ReplyInput, c: Choice, d: Choice) returns (r': Run)
    requires r.states != [] && IsRun(env, r) && HasKey(input)
    requires ReplyKey(env, input) !in Last(r).db.submissions && Deliverable(Last(r).db, input)
    requires c.id != "" && d.id != "" && c.id != d.id && c.id !in Last(r).issued && d.id !in Last(r).issued
    requires c.sent.Some? && d.sent.Some?
    ensures r'.states != [] && IsRun(env, r') && ExtendsRun(r, r')
    ensures Last(r').dispatched
         == Last(r).dispatched + [Dispatch(input, c.id, c.sent.value), Dispatch(input, d.id, d.sent.value)]
    ensures !OncePerKey(env, Last(r').dispatched)
  {
    hide IsRun, Deliverable, ReplyKey, Next, AssembleReply;
    var pid, start := |Last(r).procs|, Spawn(Replying(FindSubmission(input)));
    r' := RunPlusLabel(env, r, start);
    r' := RunPlusLabel(env, r', start);
    var x, y, first, second;
    r', x, first := LooksUpInRun(env, r', pid, input, c);
    r', y, second := LooksUpInRun(env, r', pid + 1, input, d);
    r' := SendsInRun(env, r', pid, x, first, c.now, c);
    r' := SendsInRun(env, r', pid + 1, y, second, d.now, d);
    var log, n := Last(r').dispatched, |Last(r).dispatched|;
    assert log[n].input == input && log[n + 1].input == input;
  }

  // ---------------------------------------------------------------- a Message-ID generator that repeats

  /** What a finished reply without a key leaves behind. */
  ghost function Finished(env: Env, db: Db, x: Context, reply: Reply, at: Time, id: Id, sent: SendResult): Db {
    WithQueued(env, db, x, reply, at, id).SaveMessage(env.digest, SentMessage(OutboundMessage(x, reply, at, id), sent))
  }

  lemma KeylessReplies(env: Env, db: Db, input: ReplyInput, past: Past, c: Choice)
    returns (x: Context, reply: Reply, o: Outcome)
    requires Deliverable(db, input) && !HasKey(input)
    requires c.id != "" && c.id !in past.issued && c.sent.Some?
    ensures x == Loaded(db, input) && reply.metadata.messageIdHeader == c.header
    ensures Reaches(env, Place(db, Replying(FindSubmission(input)), past),
                    Place(Finished(env, db, x, reply, c.now, c.id, c.sent.value), Done(o),
                          NotedMessage(past, c.id).(
                            dispatched := past.dispatched + [Dispatch(input, c.id, c.sent.value)])))
  {
    hide Reaches, Deliverable, WithQueued, Loaded, NextHandling, NextUpdating;
    x, reply := LookupsPass(env, db, input, c, past);
    assert x.input == input by {
      LoadedFor(db, input);
    }
    var start := Place(db, Replying(FindSubmission(input)), past);
    var t := WritesSend(env, db, x, reply, c.now, past, c);
    var m := OutboundMessage(x, reply, c.now, c.id);
    var past' := NotedMessage(past, c.id).(dispatched := past.dispatched + [Dispatch(input, c.id, c.sent.value)]);
    var sent := Place(WithQueued(env, db, x, reply, c.now, c.id), Replying(RecordSent(x, t, m, c.sent.value)), past');
    ReachesOn(env, start, Place(db, Replying(PutReply(x, reply, c.now)), past), sent);
    ReachesNext(env, start, sent, c);
    o := Replied(input, t, SentMessage(m, c.sent.value), c.sent.value);
  }

  lemma LoadedFor(db: Db, input: ReplyInput)
    requires Deliverable(db, input)
    ensures Loaded(db, input).input == input && Loaded(db, input).inbox == db.inboxes[InboxIdOf(input)]
  {
  }

  /** A finished reply can be made again. */
  lemma StillDeliverable(env: Env, db: Db, input: ReplyInput, reply: Reply, at: Time, id: Id, sent: SendResult)
    requires Deliverable(db, input) && ThreadsKeyed(db.threads) && id !in db.messages
    ensures var x := Loaded(db, input);
            var db' := Finished(env, db, x, reply, at, id, sent);
            && Deliverable(db', input) && db'.inboxes == db.inboxes
            && db'.messages == db.messages[id := SentMessage(OutboundMessage(x, reply, at, id), sent)]
  {
    hide InboundMessageKey;
  }

  lemma IssuedAreUnused(env: Env, s: State, id: Id)
    requires Sound(env, s) && id !in s.issued
    ensures id !in s.db.messages && ThreadsKeyed(s.db.threads)
  {
    SoundIsHealthy(env, s);
    assert id !in s.db.messages.Keys;
  }

  lemma InboxesAreKeyed(env: Env, r: Run, id: Id)
    requires r.states != [] && IsRun(env, r) && id in Last(r).db.inboxes
    ensures Last(r).db.inboxes[id].id == id
  {
    hide After, Legal;
    RunsGrow(env, r, 0, |r.states| - 1);
  }

  lemma KeylessReplyExtendsRun(env: Env, r: Run, input: ReplyInput, c: Choice) returns (r': Run)
    requires r.states != [] && IsSequentialRun(env, r) && Idle(Last(r))
    requires !HasKey(input) && Deliverable(Last(r).db, input)
    requires c.id != "" && c.id !in Last(r).issued && c.sent.Some?
    ensures r'.states != [] && IsSequentialRun(env, r') && ExtendsRun(r, r') && Idle(Last(r'))
    ensures Last(r').issued == Last(r).issued + {c.id} && Deliverable(Last(r').db, input)
    ensures forall id :: id in Last(r).db.messages ==>
              id in Last(r').db.messages && Last(r').db.messages[id] == Last(r).db.messages[id]
    ensures c.id in Last(r').db.messages
         && Last(r').db.messages[c.id].messageIdHeader == c.header
         && Last(r').db.messages[c.id].inboxId == InboxIdOf(input) != ""
  {
    hide IsRun, IsSequential, Idle, Reaches, Deliverable, Finished, Loaded, Sound, ThreadsKeyed;
    var past := PastOf(Last(r));
    EveryStateIsSound(env, r, |r.states| - 1);
    IssuedAreUnused(env, Last(r), c.id);
    var x, reply, o := KeylessReplies(env, Last(r).db, input, past, c);
    StillDeliverable(env, Last(r).db, input, reply, c.now, c.id, c.sent.value);
    LoadedFor(Last(r).db, input);
    DeliverableInbox(Last(r).db, input);
    InboxesAreKeyed(env, r, InboxIdOf(input));
    r' := WorkflowExtendsRun(env, r, Replying(FindSubmission(input)),
                             Finished(env, Last(r).db, x, reply, c.now, c.id, c.sent.value), o,
                             NotedMessage(past, c.id).(
                               dispatched := past.dispatched + [Dispatch(input, c.id, c.sent.value)]));
  }

  lemma DeliverableInbox(db: Db, input: ReplyInput)
    requires Deliverable(db, input)
    ensures InboxIdOf(input) in db.inboxes
  {
  }

  /**
   With a generator that answers twice with the same Message-ID, as the constant one of the wiring does, two
   replies from one inbox, one after the other, end the uniqueness of Message-IDs.
   */
  lemma RepeatedHeaderCollides(env: Env, r: Run, input: ReplyInput, c: Choice, d: Choice) returns (r': Run)
    requires r.states != [] && IsSequentialRun(env, r) && Idle(Last(r))
    requires !HasKey(input) && Deliverable(Last(r).db, input) && c.header == d.header != ""
    requires c.id != "" && d.id != "" && c.id != d.id && c.id !in Last(r).issued && d.id !in Last(r).issued
    requires c.sent.Some? && d.sent.Some?
    ensures r'.states != [] && IsSequentialRun(env, r') && ExtendsRun(r, r') && Idle(Last(r'))
    ensures !UniqueHeaders(Last(r').db.messages)
  {
    hide IsSequentialRun, Idle, Deliverable;
    r' := KeylessReplyExtendsRun(env, r, input, c);
    r' := KeylessReplyExtendsRun(env, r', input, d);
    var ms := Last(r').db.messages;
    assert c.id in ms && d.id in ms && Indexable(ms[c.id]) && SameHeader(ms[c.id], ms[d.id]);
  }

  // ---------------------------------------------------------------- overlapping deliveries

  lemma SomeFound(db: Db, header: string) returns (found: Option<Thread>)
    ensures db.FoundByHeader(header, found)
  {
    if id :| id in db.messages && db.messages[id].messageIdHeader == header {
      found := db.ThreadOf(db.messages[id]);
    } else {
      found := None;
    }
  }

  lemma {:induction false} Latest(threads: map<Id, Thread>, ids: set<Id>) returns (best: Id)
    requires ids != {} && ids <= threads.Keys
    ensures best in ids && forall id :: id in ids ==> threads[id].lastActivityAt <= threads[best].lastActivityAt
    decreases ids
  {
    var one :| one in ids;
    if ids == {one} {
      best := one;
    } else {
      var rest := ids - {one};
      assert ids == rest + {one} && rest != {};
      best := Latest(threads, rest);
      if threads[one].lastActivityAt > threads[best].lastActivityAt {
        best := one;
      }
    }
  }

  lemma SomeRecent(db: Db, input: ThreadInput) returns (recent: Option<Thread>)
    ensures RecentMatch(db, input, recent)
  {
    var ids := set id | id in db.threads && Matches(db, input, id);
    if ids == {} {
      assert forall id :: id in db.threads ==> id !in ids;
      recent := None;
    } else {
      var best := Latest(db.threads, ids);
      recent := Some(db.threads[best]);
      assert forall id :: Matches(db, input, id) ==> id in ids;
    }
  }

  /** Whatever is stored, the lookups of an inbound message lead to its duplicate check. */
  lemma {:induction false} LinksFollowed(env: Env, from: Place, db: Db, w: Work, k: nat, past: Past, c: Choice)
    returns (t: Thread, past': Past)
    requires Reaches(env, from, Place(db, Handling(FindLink(w, k)), past)) && k <= |LinkIds(w.parsed)|
    requires c.id != "" && c.id !in past.issued
    ensures Reaches(env, from, Place(db, Handling(FindDuplicate(w, t)), past'))
    ensures past'.issued <= past.issued + {c.id}
    decreases |LinkIds(w.parsed)| - k
  {
    hide Reaches, NextReplying, NextUpdating, Db.FoundByHeader, RecentMatch, BySubject;
    past' := past;
    if k == |LinkIds(w.parsed)| {
      var recent := SomeRecent(db, ThreadInputOf(w));
      ReachesNext(env, from, Place(db, Handling(FindLink(w, k)), past), c);
      ReachesNext(env, from, Place(db, Handling(FindSubject(w)), past), c.(found := recent));
      t := BySubject(env.threshold, ThreadInputOf(w), c.id,
                     if w.parsed.subjectNormalized == "" then None else recent).thread;
      past' := Noted(past, c.id);
    } else {
      var found := SomeFound(db, LinkIds(w.parsed)[k]);
      ReachesNext(env, from, Place(db, Handling(FindLink(w, k)), past), c.(found := found));
      if found.Some? {
        t := found.value;
      } else {
        t, past' := LinksFollowed(env, from, db, w, k + 1, past, c);
      }
    }
  }

  /** New mail for an inbox, and what handling it generates and parses. */
  datatype Incoming = Incoming(receipt: Receipt, data: string, contact: Choice, thread: Choice, message: Choice)

  /** The bytes parse to a message with a Message-ID that the inbox does not know. */
  ghost predicate Unknown(env: Env, db: Db, mail: Incoming) {
    && mail.receipt.inboxId != "" && env.parse(mail.data).Some? && HeaderOf(env, mail) != ""
    && db.FindInboundByHeader(env.digest, mail.receipt.inboxId, HeaderOf(env, mail)).None?
  }

  function HeaderOf(env: Env, mail: Incoming): string {
    match env.parse(mail.data)
    case None => ""
    case Some(parsed) => parsed.messageIdHeader
  }

  function SenderOf(env: Env, mail: Incoming): string {
    match env.parse(mail.data)
    case None => ""
    case Some(parsed) => parsed.from.email
  }

  /** The contact at hand is the sender's: the stored one, or a new one under the generated id. */
  predicate OfSender(env: Env, db: Db, mail: Incoming, c: Contact) {
    && (SenderOf(env, mail) in db.contactsByEmail ==> c.id == db.contactsByEmail[SenderOf(env, mail)].id)
    && (SenderOf(env, mail) !in db.contactsByEmail ==>
          c.id == mail.contact.id && c.emailAddress == SenderOf(env, mail))
  }

  /** The tables once the mail and its receipt are stored. */
  function Arrived(db: Db, mail: Incoming): Db {
    db.PutRaw(mail.receipt.rawKey, mail.data).SaveReceipt(mail.receipt)
  }

  /** Its bytes and its receipt are written, it is parsed, and its contact is looked up. */
  lemma MailIsRead(env: Env, db: Db, mail: Incoming, past: Past) returns (w: Work)
    requires Unknown(env, db, mail) && mail.contact.id != "" && mail.contact.id !in past.issued
    ensures w.receipt == mail.receipt && w.parsed.messageIdHeader == HeaderOf(env, mail)
    ensures OfSender(env, db, mail, w.contact)
    ensures Reaches(env, Place(db, Handling(PutRaw(mail.receipt, mail.data)), past),
                    Place(Arrived(db, mail), Handling(FindLink(w, 0)), Noted(past, mail.contact.id)))
  {
    hide Reaches, NextReplying, NextUpdating, InboundMessageKey, Db.FindInboundByHeader;
    var start := Place(db, Handling(PutRaw(mail.receipt, mail.data)), past);
    var db1, db2, parsed := db.PutRaw(mail.receipt.rawKey, mail.data), Arrived(db, mail), env.parse(mail.data).value;
    ReachesItself(env, start);
    ReachesNext(env, start, start, mail.contact);
    ReachesNext(env, start, Place(db1, Handling(SaveReceipt(mail.receipt)), past), mail.contact);
    ReachesNext(env, start, Place(db2, Handling(ReadRaw(mail.receipt)), past), mail.contact);
    ReachesNext(env, start, Place(db2, Handling(FindContact(mail.receipt, parsed)), past), mail.contact);
    w := Work(mail.receipt, parsed, ResolvedContact(db2, mail.receipt, parsed, mail.contact.id));
  }

  /** Mail that is unknown gets past its duplicate check, with only its bytes and its receipt written. */
  lemma MailPassesCheck(env: Env, db: Db, mail: Incoming, past: Past) returns (w: Work, t: Thread, past': Past)
    requires Unknown(env, db, mail) && NewIds([mail.contact.id, mail.thread.id], past)
    ensures w.receipt == mail.receipt && w.parsed.messageIdHeader == HeaderOf(env, mail)
    ensures OfSender(env, db, mail, w.contact)
    ensures past'.issued <= past.issued + {mail.contact.id, mail.thread.id}
    ensures Reaches(env, Place(db, Handling(PutRaw(mail.receipt, mail.data)), past),
                    Place(Arrived(db, mail), Handling(UpsertContact(w, t)), past'))
  {
    hide Reaches, NextReplying, NextUpdating, InboundMessageKey;
    var start := Place(db, Handling(PutRaw(mail.receipt, mail.data)), past);
    assert [mail.contact.id, mail.thread.id][0] == mail.contact.id;
    assert [mail.contact.id, mail.thread.id][1] == mail.thread.id;
    w := MailIsRead(env, db, mail, past);
    t, past' := LinksFollowed(env, start, Arrived(db, mail), w, 0, Noted(past, mail.contact.id), mail.thread);
    ReachesNext(env, start, Place(Arrived(db, mail), Handling(FindDuplicate(w, t)), past'), mail.thread);
  }

  /** Past its check, mail is recorded whatever has been recorded since. */
  lemma PassedIsRecorded(env: Env, db: Db, w: Work, t: Thread, past: Past, c: Choice) returns (db': Db, pc': Pc)
    requires c.id != "" && c.id !in past.issued
    ensures Reaches(env, Place(db, Handling(UpsertContact(w, t)), past), Place(db', pc', NotedMessage(past, c.id)))
    ensures exists saved: Thread :: db'.messages == db.messages[c.id := InboundMessage(w, saved, c.id)]
  {
    hide Reaches, NextReplying, NextUpdating, Db.Merged, InboundMessageKey;
    var start := Place(db, Handling(UpsertContact(w, t)), past);
    var db1 := db.UpsertContact(w.contact);
    var db2, saved := db1.SaveThread(t), db1.Merged(t);
    var m := InboundMessage(w, saved, c.id);
    db', pc' := db2.CreateMessage(env.digest, m), Handling(TouchThread(w, saved, m));
    ReachesItself(env, start);
    ReachesNext(env, start, start, c);
    ReachesNext(env, start, Place(db1, Handling(SaveThread(w, t)), past), c);
    ReachesNext(env, start, Place(db2, Handling(CreateInbound(w, saved)), past), c);
    assert db'.messages == db.messages[c.id := InboundMessage(w, saved, c.id)];
  }

  lemma MailPassesInRun(env: Env, r: Run, pid: nat, mail: Incoming) returns (r': Run, w: Work, t: Thread)
    requires r.states != [] && IsRun(env, r) && pid < |Last(r).procs|
    requires Last(r).procs[pid] == Handling(PutRaw(mail.receipt, mail.data))
    requires Unknown(env, Last(r).db, mail) && NewIds([mail.contact.id, mail.thread.id], PastOf(Last(r)))
    ensures r'.states != [] && IsRun(env, r') && ExtendsRun(r, r')
    ensures w.receipt == mail.receipt && w.parsed.messageIdHeader == HeaderOf(env, mail)
    ensures OfSender(env, Last(r).db, mail, w.contact)
    ensures Last(r').procs == Last(r).procs[pid := Handling(UpsertContact(w, t))]
    ensures Last(r').db == Arrived(Last(r).db, mail)
    ensures Last(r').issued <= Last(r).issued + {mail.contact.id, mail.thread.id}
  {
    hide IsRun, Reaches, Unknown, NewIds, Arrived;
    var past';
    w, t, past' := MailPassesCheck(env, Last(r).db, mail, PastOf(Last(r)));
    r' := ReachingExtendsRun(env, r, pid, Place(Arrived(Last(r).db, mail), Handling(UpsertContact(w, t)), past'));
  }

  lemma RecordsInRun(env: Env, r: Run, pid: nat, w: Work, t: Thread, c: Choice) returns (r': Run)
    requires r.states != [] && IsRun(env, r) && pid < |Last(r).procs|
    requires Last(r).procs[pid] == Handling(UpsertContact(w, t)) && c.id != "" && c.id !in Last(r).issued
    ensures r'.states != [] && IsRun(env, r') && ExtendsRun(r, r')
    ensures |Last(r').procs| == |Last(r).procs| && Last(r').issued == Last(r).issued + {c.id}
    ensures forall i :: 0 <= i < |Last(r).procs| && i != pid ==> Last(r').procs[i] == Last(r).procs[i]
    ensures exists saved: Thread ::
              Last(r').db.messages == Last(r).db.messages[c.id := InboundMessage(w, saved, c.id)]
  {
    hide IsRun, Reaches, InboundMessage;
    var db', pc' := PassedIsRecorded(env, Last(r).db, w, t, PastOf(Last(r)), c);
    r' := ReachingExtendsRun(env, r, pid, Place(db', pc', NotedMessage(PastOf(Last(r)), c.id)));
  }

  /** The ids generated for two mails are all new and all different. */
  predicate AllNew(a: Incoming, b: Incoming, issued: set<Id>) {
    var ids := [a.contact.id, a.thread.id, a.message.id, b.contact.id, b.thread.id, b.message.id];
    NewIds(ids, Past(issued, [], []))
  }

  lemma FirstAreNew(a: Incoming, b: Incoming, past: Past)
    requires AllNew(a, b, past.issued)
    ensures NewIds([a.contact.id, a.thread.id], past)
  {
    var ids := [a.contact.id, a.thread.id, a.message.id, b.contact.id, b.thread.id, b.message.id];
    assert [a.contact.id, a.thread.id] == ids[..2];
  }

  lemma NextAreNew(a: Incoming, b: Incoming, issued: set<Id>, past: Past)
    requires AllNew(a, b, issued) && past.issued <= issued + {a.contact.id, a.thread.id}
    ensures NewIds([b.contact.id, b.thread.id], past)
  {
    var ids := [a.contact.id, a.thread.id, a.message.id, b.contact.id, b.thread.id, b.message.id];
    assert ids[0] == a.contact.id && ids[1] == a.thread.id && [b.contact.id, b.thread.id] == ids[3..5];
  }

  lemma MessagesAreNew(a: Incoming, b: Incoming, issued: set<Id>, seen: set<Id>)
    requires AllNew(a, b, issued)
    requires seen <= issued + {a.contact.id, a.thread.id} + {b.contact.id, b.thread.id}
    ensures a.message.id !in seen && b.message.id !in seen && a.message.id != b.message.id
    ensures a.message.id != "" && b.message.id != ""
  {
    var ids := [a.contact.id, a.thread.id, a.message.id, b.contact.id, b.thread.id, b.message.id];
    assert ids[0] == a.contact.id && ids[1] == a.thread.id && ids[2] == a.message.id;
    assert ids[3] == b.contact.id && ids[4] == b.thread.id && ids[5] == b.message.id;
  }

  lemma ReceivedKeepsUnknown(env: Env, db: Db, a: Incoming, b: Incoming)
    requires Unknown(env, db, b)
    ensures Unknown(env, Arrived(db, a), b)
  {
  }

  /** Both deliveries pass their checks before either is recorded. */
  lemma BothPass(env: Env, r: Run, a: Incoming, b: Incoming) returns (r': Run, v: Work, w: Work, t: Thread, u: Thread)
    requires r.states != [] && IsRun(env, r) && AllNew(a, b, Last(r).issued)
    requires Unknown(env, Last(r).db, a) && Unknown(env, Last(r).db, b)
    ensures r'.states != [] && IsRun(env, r') && ExtendsRun(r, r')
    ensures v.receipt == a.receipt && v.parsed.messageIdHeader == HeaderOf(env, a)
    ensures OfSender(env, Last(r).db, a, v.contact) && OfSender(env, Last(r).db, b, w.contact)
    ensures w.receipt == b.receipt && w.parsed.messageIdHeader == HeaderOf(env, b)
    ensures Last(r').procs == Last(r).procs + [Handling(UpsertContact(v, t)), Handling(UpsertContact(w, u))]
    ensures Last(r').issued <= Last(r).issued + {a.contact.id, a.thread.id} + {b.contact.id, b.thread.id}
    ensures Last(r').db.contacts == Last(r).db.contacts && Last(r').db.contactsByEmail == Last(r).db.contactsByEmail
  {
    hide IsRun, NewIds, AllNew, Unknown;
    var pid := |Last(r).procs|;
    r' := RunPlusLabel(env, r, Spawn(Handling(PutRaw(a.receipt, a.data))));
    r' := RunPlusLabel(env, r', Spawn(Handling(PutRaw(b.receipt, b.data))));
    FirstAreNew(a, b, PastOf(Last(r')));
    r', v, t := MailPassesInRun(env, r', pid, a);
    NextAreNew(a, b, Last(r).issued, PastOf(Last(r')));
    ReceivedKeepsUnknown(env, Last(r).db, a, b);
    r', w, u := MailPassesInRun(env, r', pid + 1, b);
  }

  lemma TwinsCollide(ms: map<Id, Message>, v: Work, w: Work, a: Id, b: Id, s: Thread, t: Thread)
    requires a != b && v.receipt.inboxId == w.receipt.inboxId != ""
    requires v.parsed.messageIdHeader == w.parsed.messageIdHeader != ""
    ensures !UniqueHeaders(ms[a := InboundMessage(v, s, a)][b := InboundMessage(w, t, b)])
  {
    var ms' := ms[a := InboundMessage(v, s, a)][b := InboundMessage(w, t, b)];
    assert Indexable(ms'[a]) && SameHeader(ms'[a], ms'[b]);
  }

  /**
   After every run, two overlapping deliveries of one new message, to one inbox under one Message-ID, can both
   be recorded: the duplicate check and the recording are separate store calls.
   */
  lemma OverlappingDeliveriesRecordTwice(env: Env, r: Run, a: Incoming, b: Incoming) returns (r': Run)
    requires r.states != [] && IsRun(env, r) && AllNew(a, b, Last(r).issued)
    requires Unknown(env, Last(r).db, a) && Unknown(env, Last(r).db, b)
    requires a.receipt.inboxId == b.receipt.inboxId && HeaderOf(env, a) == HeaderOf(env, b)
    ensures r'.states != [] && IsRun(env, r') && ExtendsRun(r, r') && !UniqueHeaders(Last(r').db.messages)
  {
    hide IsRun, AllNew, InboundMessage, UniqueHeaders, InboundMessageKey;
    var pid := |Last(r).procs|;
    var both, v, w, t, u := BothPass(env, r, a, b);
    MessagesAreNew(a, b, Last(r).issued, Last(both).issued);
    var one := RecordsInRun(env, both, pid, v, t, a.message);
    r' := RecordsInRun(env, one, pid + 1, w, u, b.message);
    var s: Thread :| Last(one).db.messages
                       == Last(both).db.messages[a.message.id := InboundMessage(v, s, a.message.id)];
    var s': Thread :| Last(r').db.messages
                        == Last(one).db.messages[b.message.id := InboundMessage(w, s', b.message.id)];
    TwinsCollide(Last(both).db.messages, v, w, a.message.id, b.message.id, s, s');
  }

  /** Filing the contact at hand takes one step. */
  lemma UpsertsInRun(env: Env, r: Run, pid: nat, w: Work, t: Thread, c: Choice) returns (r': Run)
    requires r.states != [] && IsRun(env, r) && pid < |Last(r).procs|
    requires Last(r).procs[pid] == Handling(UpsertContact(w, t))
    ensures r'.states != [] && IsRun(env, r') && ExtendsRun(r, r') && |Last(r').procs| == |Last(r).procs|
    ensures forall i :: 0 <= i < |Last(r).procs| && i != pid ==> Last(r').procs[i] == Last(r).procs[i]
    ensures Last(r').db.contacts == Last(r).db.contacts[w.contact.id := w.contact]
    ensures Last(r').db.contactsByEmail == Last(r).db.contactsByEmail[w.contact.emailAddress := w.contact]
  {
    hide IsRun, Reaches, NextReplying, NextUpdating;
    var here := PlaceOf(Last(r), pid);
    var there := Place(here.db.UpsertContact(w.contact), Handling(SaveThread(w, t)), here.past);
    ReachesItself(env, here);
    ReachesNext(env, here, here, c);
    r' := ReachingExtendsRun(env, r, pid, there);
  }

  /**
   After every run, two overlapping deliveries from one new sender can both file a contact for the address:
   looking it up and filing it are separate store calls.
   */
  lemma OverlappingDeliveriesSplitSender(env: Env, r: Run, a: Incoming, b: Incoming) returns (r': Run)
    requires r.states != [] && IsRun(env, r) && AllNew(a, b, Last(r).issued)
    requires Unknown(env, Last(r).db, a) && Unknown(env, Last(r).db, b)
    requires SenderOf(env, a) == SenderOf(env, b) && SenderOf(env, a) !in Last(r).db.contactsByEmail
    ensures r'.states != [] && IsRun(env, r') && ExtendsRun(r, r')
    ensures !ContactsInverse(Last(r').db.contacts, Last(r').db.contactsByEmail)
  {
    hide IsRun, AllNew, Unknown;
    var pid := |Last(r).procs|;
    var v, w, t, u;
    r', v, w, t, u := BothPass(env, r, a, b);
    SendersAreNew(a, b, Last(r).issued);
    r' := UpsertsInRun(env, r', pid, v, t, a.message);
    r' := UpsertsInRun(env, r', pid + 1, w, u, b.message);
    var contacts := Last(r').db.contacts;
    assert a.contact.id in contacts && contacts[a.contact.id] == v.contact;
  }

  lemma SendersAreNew(a: Incoming, b: Incoming, issued: set<Id>)
    requires AllNew(a, b, issued)
    ensures a.contact.id != b.contact.id
  {
    var ids := [a.contact.id, a.thread.id, a.message.id, b.contact.id, b.thread.id, b.message.id];
    assert ids[0] == a.contact.id && ids[3] == b.contact.id;
  }
}
