/** smtpedge.Session: which mail is accepted, from whom, and for which inbox. */
module Smtp {
  import opened Domain
  import opened Store
  import opened Machine
  import opened Solo
  import opened Webhooks
  import opened Workflows

  datatype Envelope = Envelope(sender: string, recipient: string, target: Option<Inbox>)

  const NO_INBOX := Inbox("", "", "", "", "")

  function AfterMail(e: Envelope, from: string): (Envelope, bool) {
    if from == "" then (e, false) else (e.(sender := from), true)
  }

  function AfterRcpt(inboxes: map<string, Inbox>, e: Envelope, to: string): (Envelope, bool) {
    if to == "" || to !in inboxes then (e, false) else (e.(recipient := to, target := Some(inboxes[to])), true)
  }

  /** Data is taken when a sender and a recipient have been accepted. */
  predicate Ready(e: Envelope) {
    e.sender != "" && e.recipient != ""
  }

  function ReceiptFor(e: Envelope, sessionId: string, objectKey: string, receivedAt: Time): Receipt
    requires e.recipient != "" ==> e.target.Some?
  {
    var inbox := if e.target.Some? then e.target.value else NO_INBOX;
    Receipt(sessionId, inbox.organizationId, inbox.agentId, inbox.id, e.sender, [e.recipient], objectKey, receivedAt)
  }

  class Session {
    const store: Store
    const sessionId: string
    var sender: string
    var recipient: string
    var targetInbox: Inbox

    ghost function View(): Envelope
      reads this
    {
      Envelope(sender, recipient, if recipient == "" then None else Some(targetInbox))
    }

    constructor (store: Store, sessionId: string)
      ensures View() == Envelope("", "", None) && this.store == store && this.sessionId == sessionId
    {
      this.store, this.sessionId := store, sessionId;
      sender, recipient, targetInbox := "", "", NO_INBOX;
    }

    method MailFrom(from: string) returns (ok: bool)
      modifies this
      ensures (View(), ok) == AfterMail(old(View()), from)
    {
      if from == "" {
        return false;
      }
      sender := from;
      return true;
    }

    method RcptTo(to: string) returns (ok: bool)
      modifies this
      ensures (View(), ok) == AfterRcpt(store.View().inboxesByEmail, old(View()), to)
    {
      if to == "" {
        return false;
      }
      if to !in store.inboxesByEmail {
        return false;
      }
      recipient := to;
      targetInbox := store.inboxesByEmail[to];
      return true;
    }

    /** Data: refused outside a transaction, otherwise the mail is received for the target inbox. */
    method Data(receiver: Receiver, config: Config, data: string, objectKey: string, receivedAt: Time,
                outside: Outside, ghost past: Past)
      returns (r: Option<Outcome>, ghost past': Past)
      requires Wired(store, config) && New(outside, past)
      modifies store, receiver
      ensures Wired(store, config) && View() == old(View())
      ensures r.Some? <==> Ready(View())
      ensures r.None? ==> past' == past && store.View() == old(store.View()) && receiver.log == old(receiver.log)
      ensures r.Some? ==>
        Stands(config, Place(old(store.View()),
                             Handling(PutRaw(ReceiptFor(View(), sessionId, objectKey, receivedAt), data)), past),
               store.View(), Done(r.value), past')
      ensures r.Some? ==> Creations(past, past', outside, r.value)
      ensures r.Some? ==> Notified(config, outside, r.value, old(receiver.log), receiver.log)
      ensures r.Some? ==>
        var receipt := Receipt(sessionId, targetInbox.organizationId, targetInbox.agentId, targetInbox.id,
                               sender, [recipient], objectKey, receivedAt);
        IsHandled(config, WithReceipt(old(store.View()), receipt, data), receipt, outside, store.View(), r.value)
    {
      hide IsHandled, Stands, Creations, Notified;
      if sender == "" {
        return None, past;
      }
      if recipient == "" {
        return None, past;
      }
      var receipt := Receipt(sessionId, targetInbox.organizationId, targetInbox.agentId, targetInbox.id,
                             sender, [recipient], objectKey, receivedAt);
      var outcome, pastThen := Receive(store, receiver, config, receipt, data, outside, past);
      return Some(outcome), pastThen;
    }
  }

  // ---------------------------------------------------------------- whole sessions

  datatype Command = MailCommand(from: string) | RcptCommand(to: string) | DataCommand

  function AfterCommands(inboxes: map<string, Inbox>, commands: seq<Command>): Envelope {
    if commands == [] then Envelope("", "", None)
    else
      var e := AfterCommands(inboxes, commands[..|commands| - 1]);
      match commands[|commands| - 1]
      case MailCommand(from) => AfterMail(e, from).0
      case RcptCommand(to) => AfterRcpt(inboxes, e, to).0
      case DataCommand => e
  }

  predicate AcceptedMail(c: Command) {
    c.MailCommand? && c.from != ""
  }

  predicate AcceptedRcpt(inboxes: map<string, Inbox>, c: Command) {
    c.RcptCommand? && c.to != "" && c.to in inboxes
  }

  /** The last accepted MAIL of the session is command i. */
  predicate LastMail(commands: seq<Command>, i: nat) {
    && i < |commands| && AcceptedMail(commands[i])
    && forall j :: i < j < |commands| ==> !AcceptedMail(commands[j])
  }

  predicate LastRcpt(inboxes: map<string, Inbox>, commands: seq<Command>, i: nat) {
    && i < |commands| && AcceptedRcpt(inboxes, commands[i])
    && forall j :: i < j < |commands| ==> !AcceptedRcpt(inboxes, commands[j])
  }

  /**
   Over any session, the envelope is the last accepted sender and the last accepted recipient with its
   inbox, wherever in the session they came; DATA is taken exactly when there is one of each.
   */
  lemma {:induction false} EnvelopeIsLastAccepted(inboxes: map<string, Inbox>, commands: seq<Command>)
    ensures var e := AfterCommands(inboxes, commands);
            && (forall i: nat :: LastMail(commands, i) ==> e.sender == commands[i].from)
            && (forall i: nat :: LastRcpt(inboxes, commands, i) ==>
                  e.recipient == commands[i].to && e.target == Some(inboxes[commands[i].to]))
            && (e.sender != "" <==> exists i: nat :: i < |commands| && AcceptedMail(commands[i]))
            && (e.recipient != "" <==> exists i: nat :: i < |commands| && AcceptedRcpt(inboxes, commands[i]))
            && (e.recipient != "" <==> e.target.Some?)
  {
    SenderIsLastAccepted(inboxes, commands);
    RecipientIsLastAccepted(inboxes, commands);
  }

  lemma MailSnoc(init: seq<Command>, c: Command, i: nat)
    requires LastMail(init + [c], i)
    ensures if AcceptedMail(c) then i == |init| else LastMail(init, i)
  {
    var commands := init + [c];
    assert commands[|init|] == c;
    if i < |init| {
      assert forall j :: 0 <= j < |init| ==> init[j] == commands[j];
    }
  }

  lemma SomeMailSnoc(init: seq<Command>, c: Command)
    ensures (exists i: nat :: i < |init + [c]| && AcceptedMail((init + [c])[i]))
       <==> AcceptedMail(c) || exists i: nat :: i < |init| && AcceptedMail(init[i])
  {
    var commands := init + [c];
    assert commands[|init|] == c;
    if i: nat :| i < |init| && AcceptedMail(init[i]) {
      assert commands[i] == init[i];
    }
  }

  lemma {:induction false} SenderIsLastAccepted(inboxes: map<string, Inbox>, commands: seq<Command>)
    ensures var e := AfterCommands(inboxes, commands);
            && (forall i: nat :: LastMail(commands, i) ==> e.sender == commands[i].from)
            && (e.sender != "" <==> exists i: nat :: i < |commands| && AcceptedMail(commands[i]))
  {
    if commands == [] {
    } else {
      hide LastMail;
      var init, c := commands[..|commands| - 1], commands[|commands| - 1];
      assert commands == init + [c];
      SenderIsLastAccepted(inboxes, init);
      SomeMailSnoc(init, c);
      forall i: nat | LastMail(commands, i)
        ensures i < |commands| && AcceptedMail(commands[i])
        ensures AfterCommands(inboxes, commands).sender == commands[i].from
      {
        MailSnoc(init, c, i);
        LastMailIsThere(commands, i);
        if i < |init| {
          assert commands[i] == init[i];
        }
      }
    }
  }

  lemma LastMailIsThere(commands: seq<Command>, i: nat)
    requires LastMail(commands, i)
    ensures i < |commands| && AcceptedMail(commands[i])
  {
  }

  lemma RcptSnoc(inboxes: map<string, Inbox>, init: seq<Command>, c: Command, i: nat)
    requires LastRcpt(inboxes, init + [c], i)
    ensures if AcceptedRcpt(inboxes, c) then i == |init| else LastRcpt(inboxes, init, i)
  {
    var commands := init + [c];
    assert commands[|init|] == c;
    if i < |init| {
      assert forall j :: 0 <= j < |init| ==> init[j] == commands[j];
    }
  }

  lemma SomeRcptSnoc(inboxes: map<string, Inbox>, init: seq<Command>, c: Command)
    ensures (exists i: nat :: i < |init + [c]| && AcceptedRcpt(inboxes, (init + [c])[i]))
       <==> AcceptedRcpt(inboxes, c) || exists i: nat :: i < |init| && AcceptedRcpt(inboxes, init[i])
  {
    var commands := init + [c];
    assert commands[|init|] == c;
    if i: nat :| i < |init| && AcceptedRcpt(inboxes, init[i]) {
      assert commands[i] == init[i];
    }
  }

  lemma LastRcptIsThere(inboxes: map<string, Inbox>, commands: seq<Command>, i: nat)
    requires LastRcpt(inboxes, commands, i)
    ensures i < |commands| && AcceptedRcpt(inboxes, commands[i])
  {
  }

  lemma {:induction false} RecipientIsLastAccepted(inboxes: map<string, Inbox>, commands: seq<Command>)
    ensures var e := AfterCommands(inboxes, commands);
            && (forall i: nat :: LastRcpt(inboxes, commands, i) ==>
                  e.recipient == commands[i].to && e.target == Some(inboxes[commands[i].to]))
            && (e.recipient != "" <==> exists i: nat :: i < |commands| && AcceptedRcpt(inboxes, commands[i]))
            && (e.recipient != "" <==> e.target.Some?)
  {
    if commands == [] {
    } else {
      hide LastRcpt;
      var init, c := commands[..|commands| - 1], commands[|commands| - 1];
      assert commands == init + [c];
      RecipientIsLastAccepted(inboxes, init);
      SomeRcptSnoc(inboxes, init, c);
      forall i: nat | LastRcpt(inboxes, commands, i)
        ensures i < |commands| && AcceptedRcpt(inboxes, commands[i])
        ensures var e := AfterCommands(inboxes, commands);
                e.recipient == commands[i].to && e.target == Some(inboxes[commands[i].to])
      {
        RcptSnoc(inboxes, init, c, i);
        LastRcptIsThere(inboxes, commands, i);
        if i < |init| {
          assert commands[i] == init[i];
        }
      }
    }
  }

  /** A new MAIL command starts a new transaction at command n (RFC 5321 section 3.3). */
  predicate RcptSince(inboxes: map<string, Inbox>, commands: seq<Command>, n: nat) {
    exists i: nat :: n < i < |commands| && AcceptedRcpt(inboxes, commands[i])
  }

  /**
   "DATA needs a recipient accepted since the last MAIL" fails: nothing clears the recipient, so the second
   message below goes to the inbox named for the first.
   */
  lemma RecipientOutlivesTransaction(inboxes: map<string, Inbox>, to: string)
    requires to != "" && to in inboxes
    ensures var commands := [MailCommand("a"), RcptCommand(to), DataCommand, MailCommand("b"), DataCommand];
            && LastMail(commands, 3) && !RcptSince(inboxes, commands, 3)
            && Ready(AfterCommands(inboxes, commands))
            && AfterCommands(inboxes, commands) == Envelope("b", to, Some(inboxes[to]))
  {
    var commands := [MailCommand("a"), RcptCommand(to), DataCommand, MailCommand("b"), DataCommand];
    var e := AfterCommands(inboxes, commands);
    EnvelopeIsLastAccepted(inboxes, commands);
    assert AcceptedMail(commands[3]) && !AcceptedMail(commands[4]);
    assert LastMail(commands, 3);
    assert AcceptedRcpt(inboxes, commands[1]);
    assert LastRcpt(inboxes, commands, 1);
    assert e == Envelope(e.sender, e.recipient, e.target);
  }

  /** It holds exactly of the sessions in which no recipient was accepted before that MAIL, or one was after it. */
  lemma TransactionOrderExactly(inboxes: map<string, Inbox>, commands: seq<Command>, n: nat)
    requires LastMail(commands, n)
    ensures (Ready(AfterCommands(inboxes, commands)) ==> RcptSince(inboxes, commands, n))
       <==> (RcptSince(inboxes, commands, n) || forall i: nat :: i < n ==> !AcceptedRcpt(inboxes, commands[i]))
  {
    EnvelopeIsLastAccepted(inboxes, commands);
    assert !AcceptedRcpt(inboxes, commands[n]);
    if i: nat :| i < n && AcceptedRcpt(inboxes, commands[i]) {
      assert i < |commands|;
    }
  }
}
