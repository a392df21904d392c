/** outbound.Assembler: the text and the linkage of a reply. */
module Assembler {
  import opened Domain
  import opened Text
  import opened RawMessages

  datatype Metadata = Metadata(messageIdHeader: string, subject: string, inReplyTo: string, references: seq<string>)

  datatype Reply = Reply(rawMime: string, metadata: Metadata)

  function FormatAddress(name: string, email: string): string {
    if Trim(name) == "" then email else name + " <" + email + ">"
  }

  function Chain(target: Message): seq<string> {
    target.references + [target.messageIdHeader]
  }

  function AssembleReply(
      fold: char -> char, inbox: Inbox, contact: Contact, target: Message, bodyText: string, generated: string)
    : Option<Reply>
  {
    if inbox.emailAddress == "" || contact.emailAddress == "" || target.messageIdHeader == "" then None
    else
      var subject := ReplySubject(fold, target.subject);
      var references := Chain(target);
      Some(Reply(
             Join(["From: " + FormatAddress(inbox.displayName, inbox.emailAddress),
                   "To: " + FormatAddress(contact.displayName, contact.emailAddress),
                   "Subject: " + subject,
                   "Message-ID: " + generated,
                   "In-Reply-To: " + target.messageIdHeader,
                   "References: " + Join(references, " "),
                   "MIME-Version: 1.0",
                   "Content-Type: text/plain; charset=utf-8",
                   "",
                   bodyText], "\r\n"),
             Metadata(generated, subject, target.messageIdHeader, references)))
  }

  /** A reply's reference list survives being printed into its header and split again. */
  lemma ReferencesRoundTrip(
      fold: char -> char, inbox: Inbox, contact: Contact, target: Message, bodyText: string, generated: string)
    requires forall r :: r in target.references ==> Solid(r)
    requires Solid(target.messageIdHeader)
    ensures var reply := AssembleReply(fold, inbox, contact, target, bodyText, generated);
            reply.Some? ==>
              && Fields(Join(reply.value.metadata.references, " ")) == target.references + [target.messageIdHeader]
              && reply.value.metadata.references == target.references + [target.messageIdHeader]
              && forall r :: r in reply.value.metadata.references ==> Solid(r)
  {
    FieldsOfJoin(Chain(target));
  }

  /** The values that make up the reply keep to their lines. */
  predicate KeepToLines(inbox: Inbox, contact: Contact, target: Message, generated: string) {
    && OneLine(inbox.displayName) && OneLine(inbox.emailAddress)
    && OneLine(contact.displayName) && OneLine(contact.emailAddress)
    && OneLine(target.subject) && OneLine(target.messageIdHeader) && OneLine(generated)
    && forall r :: r in target.references ==> OneLine(r)
  }

  predicate ReadsAs(value: string, name: string, email: string) {
    '<' !in name && PlainAddress(email) ==> ReadAddress(value) == Address(email, if Blank(name) then "" else name)
  }

  /** The raw message reads back as this reply: from the inbox, to the contact, answering the target. */
  predicate IsLetterOf(
      fold: char -> char, inbox: Inbox, contact: Contact, target: Message, bodyText: string, generated: string,
      letter: Letter)
  {
    var headers := letter.headers;
    && |headers| == 8 && letter.body == bodyText
    && ReadsAs(ValueOf(headers, "From"), inbox.displayName, inbox.emailAddress)
    && ReadsAs(ValueOf(headers, "To"), contact.displayName, contact.emailAddress)
    && ValueOf(headers, "Subject") == ReplySubject(fold, target.subject)
    && ValueOf(headers, "Message-ID") == generated
    && ValueOf(headers, "In-Reply-To") == target.messageIdHeader
    && ((forall r :: r in target.references ==> Solid(r)) && Solid(target.messageIdHeader) ==>
          Fields(ValueOf(headers, "References")) == target.references + [target.messageIdHeader])
    && ValueOf(headers, "MIME-Version") == "1.0"
    && ValueOf(headers, "Content-Type") == "text/plain; charset=utf-8"
  }

  lemma OneLineAppend(a: string, sep: string, b: string)
    requires OneLine(a) && OneLine(b)
    requires sep != "" && '\r' !in sep && '\n' !in sep
    ensures OneLine(a + sep + b)
  {
    var s, n, k := a + sep + b, |a|, |sep|;
    forall i | 0 <= i < |s| - 1 ensures !(s[i] == '\r' && s[i + 1] == '\n') {
      assert n <= i < n + k ==> s[i] == sep[i - n];
      assert n <= i + 1 < n + k ==> s[i + 1] == sep[i + 1 - n];
      assert i < n - 1 ==> s[i] == a[i] && s[i + 1] == a[i + 1];
      assert i >= n + k ==> s[i] == b[i - n - k] && s[i + 1] == b[i - n - k + 1];
    }
  }

  lemma {:induction false} OneLineJoin(parts: seq<string>)
    requires forall p :: p in parts ==> OneLine(p)
    ensures OneLine(Join(parts, " "))
  {
    if |parts| > 1 {
      OneLineJoin(parts[1..]);
      OneLineAppend(parts[0], " ", Join(parts[1..], " "));
    }
  }

  lemma FormatAddressReads(name: string, email: string)
    requires OneLine(name) && OneLine(email) && email != ""
    ensures OneLine(FormatAddress(name, email)) && ReadsAs(FormatAddress(name, email), name, email)
  {
    BlankIsTrimmed(name);
    OneLineAppend(name, " <", email);
    OneLineAppend(name + " <" + email, ">", "");
    assert name + " <" + email + ">" + "" == name + " <" + email + ">";
    if '<' !in name && PlainAddress(email) {
      AddressReadsBack(name, email);
    }
  }

  function HeadersOf(
      fold: char -> char, inbox: Inbox, contact: Contact, target: Message, generated: string): seq<Header>
  {
    [Header("From", FormatAddress(inbox.displayName, inbox.emailAddress)),
     Header("To", FormatAddress(contact.displayName, contact.emailAddress)),
     Header("Subject", ReplySubject(fold, target.subject)),
     Header("Message-ID", generated),
     Header("In-Reply-To", target.messageIdHeader),
     Header("References", Join(Chain(target), " ")),
     Header("MIME-Version", "1.0"),
     Header("Content-Type", "text/plain; charset=utf-8")]
  }

  lemma PrintedAs(front: string, h: Header)
    requires front == h.name + ": "
    ensures Printed(h) == front + h.value
  {
  }

  lemma FixedLines(version: Header, contentType: Header)
    requires version == Header("MIME-Version", "1.0")
    requires contentType == Header("Content-Type", "text/plain; charset=utf-8")
    ensures Printed(version) == "MIME-Version: 1.0"
    ensures Printed(contentType) == "Content-Type: text/plain; charset=utf-8"
  {
  }

  lemma LinesOfHeaders(
      fold: char -> char, inbox: Inbox, contact: Contact, target: Message, bodyText: string, generated: string)
    ensures PrintedAll(HeadersOf(fold, inbox, contact, target, generated)) + ["", bodyText]
         == ["From: " + FormatAddress(inbox.displayName, inbox.emailAddress),
             "To: " + FormatAddress(contact.displayName, contact.emailAddress),
             "Subject: " + ReplySubject(fold, target.subject),
             "Message-ID: " + generated,
             "In-Reply-To: " + target.messageIdHeader,
             "References: " + Join(Chain(target), " "),
             "MIME-Version: 1.0",
             "Content-Type: text/plain; charset=utf-8",
             "",
             bodyText]
  {
    hide FormatAddress, ReplySubject, Join, Chain, PrintedAll, Printed;
    var h := HeadersOf(fold, inbox, contact, target, generated);
    var lines := PrintedAll(h);
    PrintedAs("From: ", h[0]);
    PrintedAs("To: ", h[1]);
    PrintedAs("Subject: ", h[2]);
    PrintedAs("Message-ID: ", h[3]);
    PrintedAs("In-Reply-To: ", h[4]);
    PrintedAs("References: ", h[5]);
    FixedLines(h[6], h[7]);
    assert lines + ["", bodyText] == [lines[0], lines[1], lines[2], lines[3], lines[4], lines[5], lines[6], lines[7],
                                      "", bodyText];
  }

  lemma AssembledFromHeaders(
      fold: char -> char, inbox: Inbox, contact: Contact, target: Message, bodyText: string, generated: string)
    ensures var reply := AssembleReply(fold, inbox, contact, target, bodyText, generated);
            reply.Some? ==> reply.value.rawMime == Join(
              PrintedAll(HeadersOf(fold, inbox, contact, target, generated)) + ["", bodyText], "\r\n")
  {
    hide FormatAddress, ReplySubject, Join, Chain, PrintedAll, HeadersOf;
    LinesOfHeaders(fold, inbox, contact, target, bodyText, generated);
  }

  lemma ReplySubjectKeepsToLine(fold: char -> char, subject: string)
    requires OneLine(subject)
    ensures OneLine(ReplySubject(fold, subject))
  {
    OneLineAppend("", "Re: ", subject);
    assert "" + "Re: " + subject == "Re: " + subject;
  }

  lemma FirstNames()
    ensures IsName("From") && IsName("To") && IsName("Subject") && IsName("Message-ID")
  {
  }

  lemma LastNames()
    ensures IsName("In-Reply-To") && IsName("References") && IsName("MIME-Version") && IsName("Content-Type")
  {
  }

  lemma FixedValues()
    ensures OneLine("1.0") && OneLine("text/plain; charset=utf-8")
  {
    assert '\r' !in "text/plain; charset=utf-8";
  }

  lemma HeadersPrintable(fold: char -> char, inbox: Inbox, contact: Contact, target: Message, generated: string)
    requires KeepToLines(inbox, contact, target, generated)
    requires inbox.emailAddress != "" && contact.emailAddress != ""
    ensures forall h :: h in HeadersOf(fold, inbox, contact, target, generated) ==> Printable(h)
  {
    hide FormatAddress, ReplySubject, Join, OneLine, ReadsAs, IsName;
    FormatAddressReads(inbox.displayName, inbox.emailAddress);
    FormatAddressReads(contact.displayName, contact.emailAddress);
    ReplySubjectKeepsToLine(fold, target.subject);
    OneLineJoin(Chain(target));
    FirstNames();
    LastNames();
    FixedValues();
  }

  lemma HeadersSay(
      fold: char -> char, inbox: Inbox, contact: Contact, target: Message, bodyText: string, generated: string)
    requires KeepToLines(inbox, contact, target, generated)
    requires inbox.emailAddress != "" && contact.emailAddress != ""
    ensures IsLetterOf(fold, inbox, contact, target, bodyText, generated,
                       Letter(HeadersOf(fold, inbox, contact, target, generated), bodyText))
  {
    hide FormatAddress, ReplySubject, Join, OneLine, ReadsAs, ValueOf;
    FormatAddressReads(inbox.displayName, inbox.emailAddress);
    FormatAddressReads(contact.displayName, contact.emailAddress);
    if (forall r :: r in target.references ==> Solid(r)) && Solid(target.messageIdHeader) {
      FieldsOfJoin(Chain(target));
    }
    var h := HeadersOf(fold, inbox, contact, target, generated);
    HeadersApart(fold, inbox, contact, target, generated);
    forall i | 0 <= i < 8 ensures ValueOf(h, h[i].name) == h[i].value {
      ValueAt(h, i);
    }
    assert h[0].name == "From" && h[1].name == "To" && h[2].name == "Subject" && h[3].name == "Message-ID";
    assert h[4].name == "In-Reply-To" && h[5].name == "References";
    assert h[6].name == "MIME-Version" && h[7].name == "Content-Type";
  }

  lemma HeadersApart(fold: char -> char, inbox: Inbox, contact: Contact, target: Message, generated: string)
    ensures var h := HeadersOf(fold, inbox, contact, target, generated);
            forall i, j :: 0 <= i < j < |h| ==> h[i].name != h[j].name
  {
    hide FormatAddress, ReplySubject, Join;
    var h := HeadersOf(fold, inbox, contact, target, generated);
    assert h[0].name[0] == 'F' && h[1].name[0] == 'T' && h[2].name[0] == 'S' && h[3].name[0] == 'M';
    assert h[4].name[0] == 'I' && h[5].name[0] == 'R' && h[6].name[0] == 'M' && h[7].name[0] == 'C';
    assert h[3].name[1] == 'e' && h[6].name[1] == 'I';
  }

  lemma {:induction false} ValueAt(headers: seq<Header>, i: nat)
    requires i < |headers| && forall j, k :: 0 <= j < k < |headers| ==> headers[j].name != headers[k].name
    ensures ValueOf(headers, headers[i].name) == headers[i].value
  {
    if i > 0 {
      ValueAt(headers[1..], i - 1);
    }
  }

  /** The text of a reply, read back line by line, is that reply. */
  lemma ReplyReadsBack(
      fold: char -> char, inbox: Inbox, contact: Contact, target: Message, bodyText: string, generated: string)
    requires KeepToLines(inbox, contact, target, generated)
    ensures var reply := AssembleReply(fold, inbox, contact, target, bodyText, generated);
            reply.Some? ==>
              IsLetterOf(fold, inbox, contact, target, bodyText, generated, ReadLetter(reply.value.rawMime))
  {
    hide IsLetterOf, HeadersOf, PrintedAll, Join, ReadLetter, KeepToLines;
    AssembledFromHeaders(fold, inbox, contact, target, bodyText, generated);
    if inbox.emailAddress != "" && contact.emailAddress != "" {
      var headers := HeadersOf(fold, inbox, contact, target, generated);
      HeadersPrintable(fold, inbox, contact, target, generated);
      LetterReadsBack(headers, bodyText);
      HeadersSay(fold, inbox, contact, target, bodyText, generated);
    }
  }

  function Headers(chain: seq<Message>): seq<string> {
    if chain == [] then [] else Headers(chain[..|chain| - 1]) + [chain[|chain| - 1].messageIdHeader]
  }

  /** Down a chain of replies, the last one refers to every ancestor, in order. */
  lemma {:induction false} ChainListsAncestors(chain: seq<Message>)
    requires chain != []
    requires forall i :: 0 <= i < |chain| - 1 ==> chain[i + 1].references == Chain(chain[i])
    ensures chain[|chain| - 1].references == chain[0].references + Headers(chain[..|chain| - 1])
  {
    if |chain| == 1 {
      assert chain[..0] == [];
    } else {
      var init := chain[..|chain| - 1];
      ChainListsAncestors(init);
      assert init[..|init| - 1] == chain[..|chain| - 2];
      assert chain[|chain| - 2 + 1].references == Chain(chain[|chain| - 2]);
      assert Headers(init) == Headers(init[..|init| - 1]) + [init[|init| - 1].messageIdHeader];
    }
  }
}
