/** parser.Parser over a message that net/mail and mime have already taken apart. */
module Parser {
  import opened Domain
  import opened Text
  import opened Mime

  /**
   The headers as read, the subject after decoding, and the body as a MIME tree. An address header comes as
   what mail.ParseAddressList made of it, names decoded: None when it is blank or does not parse.
   */
  datatype Mail = Mail(
    messageId: string,
    inReplyTo: string,
    references: string,
    subject: string,
    from: Option<seq<Address>>,
    replyTo: Option<seq<Address>>,
    to: Option<seq<Address>>,
    cc: Option<seq<Address>>,
    rawHeaders: map<string, seq<string>>,
    body: Entity)

  /** parseAddressList. */
  function AddressList(addresses: Option<seq<Address>>): seq<Address> {
    if addresses.None? then [] else addresses.value
  }

  /** parseSingleAddress: the first of them, or the empty address. */
  function SingleAddress(addresses: Option<seq<Address>>): Address {
    var list := AddressList(addresses);
    if list == [] then Address("", "") else list[0]
  }

  ghost function ParsedMail(fold: char -> char, mail: Mail): Option<ParsedMessage> {
    var walked := Folded(Bodies("", "", []), Leaves(fold, mail.body));
    if !walked.ok then None
    else Some(ParsedMessage(
                mail.messageId, mail.inReplyTo, Fields(mail.references), mail.subject,
                NormalizedSubject(fold, mail.subject), walked.bodies.text, walked.bodies.html,
                SingleAddress(mail.from), AddressList(mail.replyTo), AddressList(mail.to), AddressList(mail.cc),
                mail.rawHeaders, walked.bodies.attachments))
  }

  /** Each field of the parsed message, as the mail has it. */
  ghost predicate IsRead(fold: char -> char, mail: Mail, p: ParsedMessage) {
    && p.messageIdHeader == mail.messageId && p.inReplyTo == mail.inReplyTo
    && p.references == Fields(mail.references) && p.rawHeaders == mail.rawHeaders
    && p.subject == mail.subject && p.subjectNormalized == NormalizedSubject(fold, mail.subject)
    && IsTextBody(Pieces(fold, mail.body), p.textBody)
    && p.htmlBody == FirstNonEmpty(Payloads(fold, "text/html", mail.body))
    && p.attachments == Attached(fold, mail.body)
    && (mail.from.Some? && mail.from.value != [] ==> p.from == mail.from.value[0])
    && (mail.from.None? || mail.from.value == [] ==> p.from == Address("", ""))
    && IsAddressList(mail.replyTo, p.replyTo) && IsAddressList(mail.to, p.to) && IsAddressList(mail.cc, p.cc)
  }

  /** The addresses of a header that parses, none of any other. */
  predicate IsAddressList(header: Option<seq<Address>>, list: seq<Address>) {
    if header.Some? then list == header.value else list == []
  }

  /** Mail is parsed exactly when all of it can be read, and then field by field. */
  lemma ParsedByField(fold: char -> char, mail: Mail)
    ensures ParsedMail(fold, mail).Some? <==> Whole(fold, mail.body)
    ensures ParsedMail(fold, mail).Some? ==> IsRead(fold, mail, ParsedMail(fold, mail).value)
  {
    hide Folded, Leaves, Fields, NormalizedSubject, Whole, IsTextBody, Pieces, FirstNonEmpty, Payloads, Attached;
    WalkReadsTree(fold, mail.body);
  }

  method Parse(fold: char -> char, mail: Mail) returns (r: Option<ParsedMessage>)
    ensures r == ParsedMail(fold, mail)
    ensures r.Some? <==> Whole(fold, mail.body)
    ensures r.Some? ==> IsRead(fold, mail, r.value)
  {
    ParsedByField(fold, mail);
    var normalized := NormalizeSubject(fold, mail.subject);
    var parsed := new Parsed();
    var ok := parsed.Populate(fold, mail.body);
    if !ok {
      return None;
    }
    return Some(ParsedMessage(
                  mail.messageId, mail.inReplyTo, Fields(mail.references), mail.subject, normalized,
                  parsed.textBody, parsed.htmlBody, SingleAddress(mail.from), AddressList(mail.replyTo),
                  AddressList(mail.to), AddressList(mail.cc), mail.rawHeaders, parsed.attachments));
  }
}
