/** One contact per sender, in every interleaving in which handlings of one sender do not overlap. */
module Contacts {
  import opened Domain
  import opened Tables
  import opened Threading
  import opened Machine
  import opened Integrity
  import opened Interleaving
  import opened Runs
  import opened Deduplication

  // ---------------------------------------------------------------- which interleavings

  /** The contact a process has looked up and not yet written. */
  function ContactAtHand(pc: Pc): Option<Contact> {
    match pc
    case Handling(FindLink(w, _)) => Some(w.contact)
    case Handling(FindSubject(w)) => Some(w.contact)
    case Handling(FindDuplicate(w, _)) => Some(w.contact)
    case Handling(UpsertContact(w, _)) => Some(w.contact)
    case _ => None
  }

  /** No two processes have a contact of one address at hand. */
  predicate SendersApart(procs: seq<Pc>) {
    forall i, j :: 0 <= i < j < |procs| && ContactAtHand(procs[i]).Some? && ContactAtHand(procs[j]).Some? ==>
      ContactAtHand(procs[i]).value.emailAddress != ContactAtHand(procs[j]).value.emailAddress
  }

  ghost predicate SendersNeverOverlap(r: Run) {
    forall n :: 0 <= n < |r.states| ==> SendersApart(r.states[n].procs)
  }

  /** Sequential runs are such. */
  lemma SequentialSendersApart(env: Env, r: Run)
    requires IsRun(env, r) && IsSequential(r)
    ensures SendersNeverOverlap(r)
  {
    hide IsRun, IsSequential;
    forall n | 0 <= n < |r.states| ensures SendersApart(r.states[n].procs) {
      SequentialOneAtATime(env, r, n);
    }
  }

  // ---------------------------------------------------------------- the invariant

  /** contactsByID and contactsByEmail are mutually inverse: one contact per address. */
  ghost predicate ContactsInverse(contacts: map<Id, Contact>, byEmail: map<string, Contact>) {
    && (forall id :: id in contacts ==>
          contacts[id].emailAddress in byEmail && byEmail[contacts[id].emailAddress] == contacts[id])
    && (forall e :: e in byEmail ==>
          byEmail[e].emailAddress == e && byEmail[e].id in contacts && contacts[byEmail[e].id] == byEmail[e])
  }

  /** The contact at hand is the stored one brought up to date, or new with a new address. */
  ghost predicate Recognised(contacts: map<Id, Contact>, byEmail: map<string, Contact>, c: Contact) {
    if c.id in contacts then contacts[c.id].emailAddress == c.emailAddress else c.emailAddress !in byEmail
  }

  /** Every contact at hand is recognised, and no two are filed under one id. */
  ghost predicate ContactState(s: State) {
    && ContactsInverse(s.db.contacts, s.db.contactsByEmail)
    && (forall p :: 0 <= p < |s.procs| && ContactAtHand(s.procs[p]).Some? ==>
          Recognised(s.db.contacts, s.db.contactsByEmail, ContactAtHand(s.procs[p]).value))
    && (forall p, q :: 0 <= p < |s.procs| && 0 <= q < |s.procs| && p != q && ContactAtHand(s.procs[p]).Some?
                       && ContactAtHand(s.procs[q]).Some? ==>
          ContactAtHand(s.procs[p]).value.id != ContactAtHand(s.procs[q]).value.id)
  }

  // ---------------------------------------------------------------- the steps

  lemma UpsertKeepsInverse(contacts: map<Id, Contact>, byEmail: map<string, Contact>, c: Contact)
    requires ContactsInverse(contacts, byEmail) && ContactsKeyed(contacts) && Recognised(contacts, byEmail, c)
    ensures ContactsInverse(contacts[c.id := c], byEmail[c.emailAddress := c])
  {
  }

  lemma ResolvedIsRecognised(db: Db, issued: set<Id>, r: Receipt, parsed: ParsedMessage, id: Id)
    requires ContactsInverse(db.contacts, db.contactsByEmail) && db.contacts.Keys <= issued && id !in issued
    ensures Recognised(db.contacts, db.contactsByEmail, ResolvedContact(db, r, parsed, id))
  {
  }

  /** Filing one contact leaves another, of other id and address, as recognised as it was. */
  lemma UpsertKeepsRecognised(contacts: map<Id, Contact>, byEmail: map<string, Contact>, c: Contact, other: Contact)
    requires Recognised(contacts, byEmail, other) && c.id != other.id && c.emailAddress != other.emailAddress
    ensures Recognised(contacts[c.id := c], byEmail[c.emailAddress := c], other)
  {
  }

  /** A step keeps the contact at hand, drops it, or looks one up. */
  lemma ContactMoves(env: Env, db: Db, pc: Pc, c: Choice)
    ensures var next := ContactAtHand(Next(env, db, pc, c).pc);
            next.Some? ==>
              if pc.Handling? && pc.handle.FindContact?
              then next.value == ResolvedContact(db, pc.handle.receipt, pc.handle.parsed, c.id)
              else next == ContactAtHand(pc)
  {
    match pc {
      case Handling(h) => hide NextReplying, NextUpdating, ResolvedContact, BySubject, Db.FindInboundByHeader;
      case Replying(r) =>
        hide NextHandling, NextUpdating;
        ReplyingKeptKind(env, db, r, c);
      case Updating(u) =>
        hide NextHandling, NextReplying;
        UpdatingKeptKind(env, db, u, c);
      case Done(_) =>
    }
  }

  /** What is at hand after a step is recognised in the tables before it. */
  lemma MovedIsRecognised(env: Env, s: State, l: Label)
    requires ContactState(s) && Sound(env, s) && Legal(s, l) && l.Act?
    ensures var next := ContactAtHand(Next(env, s.db, s.procs[l.pid], l.choice).pc);
            next.Some? ==> Recognised(s.db.contacts, s.db.contactsByEmail, next.value)
  {
    hide Next, Possible, LocalOk, Healthy, ContactsInverse, Recognised, ResolvedContact;
    var pc := s.procs[l.pid];
    ContactMoves(env, s.db, pc, l.choice);
    SoundIsHealthy(env, s);
    HealthyParts(env, s.db, s.issued);
    if pc.Handling? && pc.handle.FindContact? {
      ResolvedIsRecognised(s.db, s.issued, pc.handle.receipt, pc.handle.parsed, l.choice.id);
    } else if ContactAtHand(pc).Some? {
      assert Recognised(s.db.contacts, s.db.contactsByEmail, ContactAtHand(s.procs[l.pid]).value);
    }
  }

  lemma AtHandIsIssued(db: Db, issued: set<Id>, pc: Pc)
    requires LocalOk(db, issued, pc) && ContactAtHand(pc).Some?
    ensures ContactAtHand(pc).value.id in issued
  {
  }

  /** A contact looked up is of another id than every contact at hand, their addresses being different. */
  lemma LookedUpIsApart(env: Env, s: State, l: Label, q: nat)
    requires ContactState(s) && Sound(env, s) && Legal(s, l) && l.Act? && q < |s.procs| && q != l.pid
    requires SendersApart(After(env, s, l).procs) && ContactAtHand(s.procs[q]).Some?
    ensures var next := ContactAtHand(Next(env, s.db, s.procs[l.pid], l.choice).pc);
            next.Some? ==> next.value.id != ContactAtHand(s.procs[q]).value.id
  {
    hide Next, Possible, LocalOk, Healthy, ResolvedContact;
    var pc, other := s.procs[l.pid], ContactAtHand(s.procs[q]).value;
    var s' := After(env, s, l);
    ContactMoves(env, s.db, pc, l.choice);
    MovedIsRecognised(env, s, l);
    AtHandIsIssued(s.db, s.issued, s.procs[q]);
    var next := Next(env, s.db, pc, l.choice).pc;
    assert s'.procs[q] == s.procs[q] && s'.procs[l.pid] == next;
    assert Recognised(s.db.contacts, s.db.contactsByEmail, other);
    assert ContactAtHand(next).Some? ==> ContactAtHand(next).value.emailAddress != other.emailAddress;
    if pc.Handling? && pc.handle.FindContact? {
      ResolvedIsKnownOrNew(s.db, pc.handle.receipt, pc.handle.parsed, l.choice.id);
    }
  }

  lemma ResolvedIsKnownOrNew(db: Db, r: Receipt, parsed: ParsedMessage, id: Id)
    requires ContactsInverse(db.contacts, db.contactsByEmail)
    ensures var c := ResolvedContact(db, r, parsed, id);
            c.id == id || c.id in db.contacts
  {
  }

  lemma TablesMove(env: Env, db: Db, pc: Pc, c: Choice)
    ensures var db' := Next(env, db, pc, c).db;
            if pc.Handling? && pc.handle.UpsertContact?
            then var at := pc.handle.work.contact;
                 && db'.contacts == db.contacts[at.id := at]
                 && db'.contactsByEmail == db.contactsByEmail[at.emailAddress := at]
            else SameContacts(db, db')
  {
    hide NextReplying, NextUpdating;
    if pc.Handling? && pc.handle.UpsertContact? {
    } else {
      hide NextHandling;
      StepFramed(env, db, pc, c);
    }
  }

  /** What was recognised by another process, or is after its own step, stays so in the tables after it. */
  lemma StaysRecognised(env: Env, s: State, l: Label, p: nat)
    requires ContactState(s) && Sound(env, s) && Legal(s, l) && l.Act? && SendersApart(s.procs)
    requires p < |s.procs|
    ensures var s' := After(env, s, l);
            ContactAtHand(s'.procs[p]).Some? ==>
              Recognised(s'.db.contacts, s'.db.contactsByEmail, ContactAtHand(s'.procs[p]).value)
  {
    hide Next, Possible, LocalOk, Healthy, ContactsInverse, Recognised;
    var s', pc := After(env, s, l), s.procs[l.pid];
    TablesMove(env, s.db, pc, l.choice);
    MovedIsRecognised(env, s, l);
    if pc.Handling? && pc.handle.UpsertContact? {
      UpsertedIsDropped(env, s.db, pc, l.choice);
      if p != l.pid && ContactAtHand(s.procs[p]).Some? {
        UpsertKeepsRecognised(s.db.contacts, s.db.contactsByEmail, pc.handle.work.contact,
                              ContactAtHand(s.procs[p]).value);
      }
    }
  }

  lemma UpsertedIsDropped(env: Env, db: Db, pc: Pc, c: Choice)
    requires pc.Handling? && pc.handle.UpsertContact?
    ensures ContactAtHand(Next(env, db, pc, c).pc).None?
  {
    hide NextReplying, NextUpdating;
  }

  lemma ActKeepsContacts(env: Env, s: State, l: Label)
    requires ContactState(s) && Sound(env, s) && Legal(s, l) && l.Act?
    requires SendersApart(s.procs) && SendersApart(After(env, s, l).procs)
    ensures ContactState(After(env, s, l))
  {
    hide Next, Possible, LocalOk, Healthy, Sound, SendersApart, ContactsInverse, Recognised;
    var s', pc := After(env, s, l), s.procs[l.pid];
    TablesMove(env, s.db, pc, l.choice);
    if pc.Handling? && pc.handle.UpsertContact? {
      SoundIsHealthy(env, s);
      HealthyParts(env, s.db, s.issued);
      assert Recognised(s.db.contacts, s.db.contactsByEmail, ContactAtHand(s.procs[l.pid]).value);
      UpsertKeepsInverse(s.db.contacts, s.db.contactsByEmail, pc.handle.work.contact);
    }
    forall p | 0 <= p < |s'.procs| && ContactAtHand(s'.procs[p]).Some?
      ensures Recognised(s'.db.contacts, s'.db.contactsByEmail, ContactAtHand(s'.procs[p]).value)
    {
      StaysRecognised(env, s, l, p);
    }
    forall p, q | 0 <= p < |s'.procs| && 0 <= q < |s'.procs| && p != q && ContactAtHand(s'.procs[p]).Some?
                  && ContactAtHand(s'.procs[q]).Some?
      ensures ContactAtHand(s'.procs[p]).value.id != ContactAtHand(s'.procs[q]).value.id
    {
      if p == l.pid {
        LookedUpIsApart(env, s, l, q);
      } else if q == l.pid {
        LookedUpIsApart(env, s, l, p);
      }
    }
  }

  // ---------------------------------------------------------------- whole runs

  lemma InitialContacts(s: State)
    requires Initial(s)
    ensures ContactState(s)
  {
  }

  lemma SpawnKeepsContacts(env: Env, s: State, pc: Pc)
    requires ContactState(s) && Starts(pc)
    ensures ContactState(After(env, s, Spawn(pc)))
  {
    hide ContactsInverse, Recognised;
    var s' := After(env, s, Spawn(pc));
    assert forall p :: 0 <= p < |s.procs| ==> s'.procs[p] == s.procs[p];
    assert ContactAtHand(s'.procs[|s.procs|]).None?;
  }

  /**
   In every interleaving in which no two handlings have a contact of one address at hand together, the two
   contact tables are mutually inverse: one contact per sender.
   */
  lemma {:induction false} ContactsStayInverse(env: Env, r: Run, n: nat)
    requires IsRun(env, r) && SendersNeverOverlap(r) && n < |r.states|
    ensures ContactState(r.states[n])
    ensures ContactsInverse(r.states[n].db.contacts, r.states[n].db.contactsByEmail)
  {
    hide ContactsInverse, Recognised, Sound, After, Initial, SendersApart, Possible;
    if n == 0 {
      InitialContacts(r.states[0]);
    } else {
      ContactsStayInverse(env, r, n - 1);
      EveryStateIsSound(env, r, n - 1);
      assert SendersApart(r.states[n - 1].procs) && SendersApart(r.states[n].procs);
      match r.labels[n - 1] {
        case Spawn(pc) => SpawnKeepsContacts(env, r.states[n - 1], pc);
        case Act(_, _) => ActKeepsContacts(env, r.states[n - 1], r.labels[n - 1]);
      }
    }
  }

  /** So in every sequential run, whatever its replies are sent under. */
  lemma SequentialContacts(env: Env, r: Run, n: nat)
    requires IsRun(env, r) && IsSequential(r) && n < |r.states|
    ensures ContactsInverse(r.states[n].db.contacts, r.states[n].db.contactsByEmail)
  {
    hide IsRun, IsSequential, SendersNeverOverlap;
    SequentialSendersApart(env, r);
    ContactsStayInverse(env, r, n);
  }
}
