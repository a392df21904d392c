/** Reading a raw message back: its header fields up to the first empty line, and the body after that. */
module RawMessages {
  import opened Domain
  import opened Text

  datatype Header = Header(name: string, value: string)

  datatype Letter = Letter(headers: seq<Header>, body: string)

  /** No line break within. */
  predicate OneLine(s: string) {
    forall i :: 0 <= i < |s| - 1 ==> !(s[i] == '\r' && s[i + 1] == '\n')
  }

  /** Where the first line break of s is, its length if there is none. */
  function LineEnd(s: string): (n: nat)
    ensures n <= |s| && (n < |s| ==> n + 2 <= |s|)
  {
    if |s| < 2 then |s| else if s[0] == '\r' && s[1] == '\n' then 0 else 1 + LineEnd(s[1..])
  }

  /** Where c first stands in s, its length if nowhere. */
  function IndexOf(s: string, c: char): (n: nat)
    ensures n <= |s|
  {
    if s == "" || s[0] == c then 0 else 1 + IndexOf(s[1..], c)
  }

  /** The name before the colon and the value after it, less one blank. */
  function ReadHeader(line: string): Header {
    var k := IndexOf(line, ':');
    var rest := if k < |line| then line[k + 1..] else "";
    Header(line[..k], if HasPrefix(rest, " ") then rest[1..] else rest)
  }

  function ReadLetter(raw: string): Letter
    decreases |raw|
  {
    var n := LineEnd(raw);
    if n == 0 && raw != "" then Letter([], raw[2..])
    else if n == |raw| then Letter([ReadHeader(raw)], "")
    else
      var rest := ReadLetter(raw[n + 2..]);
      Letter([ReadHeader(raw[..n])] + rest.headers, rest.body)
  }

  /** The value of the first header of this name. */
  function ValueOf(headers: seq<Header>, name: string): string {
    if headers == [] then "" else if headers[0].name == name then headers[0].value else ValueOf(headers[1..], name)
  }

  /** The address of a From or To value: what is in angle brackets, if there are any, after the name and a blank. */
  function ReadAddress(value: string): Address {
    var k := IndexOf(value, '<');
    if 0 < k < |value| then Address(value[k + 1..][..IndexOf(value[k + 1..], '>')], value[..k - 1])
    else Address(value, "")
  }

  // ---------------------------------------------------------------- reading what was written

  lemma {:induction false} LineEndsThere(line: string, rest: string)
    requires OneLine(line)
    ensures LineEnd(line + "\r\n" + rest) == |line|
  {
    var s := line + "\r\n" + rest;
    if line != "" {
      assert s[1..] == line[1..] + "\r\n" + rest;
      forall i | 0 <= i < |line[1..]| - 1 ensures !(line[1..][i] == '\r' && line[1..][i + 1] == '\n') {
        assert line[1..][i] == line[i + 1] && line[1..][i + 1] == line[i + 2];
      }
      LineEndsThere(line[1..], rest);
      if |line| > 1 {
        assert !(line[0] == '\r' && line[0 + 1] == '\n');
        assert s[0] == line[0] && s[1] == line[1];
      }
    }
  }

  lemma {:induction false} IndexThere(before: string, c: char, rest: string)
    requires c !in before
    ensures IndexOf(before + [c] + rest, c) == |before|
    ensures IndexOf(before, c) == |before|
  {
    var s := before + [c] + rest;
    if before != "" {
      assert s[1..] == before[1..] + [c] + rest && s[0] == before[0];
      IndexThere(before[1..], c, rest);
    }
  }

  function Printed(h: Header): string {
    h.name + ": " + h.value
  }

  function PrintedAll(headers: seq<Header>): (lines: seq<string>)
    ensures |lines| == |headers| && forall i :: 0 <= i < |headers| ==> lines[i] == Printed(headers[i])
  {
    seq(|headers|, i requires 0 <= i < |headers| => Printed(headers[i]))
  }

  predicate IsName(name: string) {
    name != "" && forall i :: 0 <= i < |name| ==> 'A' <= name[i] <= 'Z' || 'a' <= name[i] <= 'z' || name[i] == '-'
  }

  predicate Printable(h: Header) {
    IsName(h.name) && OneLine(h.value)
  }

  lemma PrintedReadsBack(h: Header)
    requires Printable(h)
    ensures ReadHeader(Printed(h)) == h && OneLine(Printed(h)) && Printed(h) != ""
  {
    var line, rest := Printed(h), " " + h.value;
    assert line == h.name + [':'] + rest;
    IndexThere(h.name, ':', rest);
    assert line[|h.name| + 1..] == rest && rest[..1] == " " && rest[1..] == h.value;
    assert line[..|h.name|] == h.name;
    forall i | 0 <= i < |line| - 1 ensures !(line[i] == '\r' && line[i + 1] == '\n') {
      var n := |h.name|;
      assert i >= n + 2 ==> line[i] == h.value[i - n - 2] && line[i + 1] == h.value[i - n - 2 + 1];
      assert i < n - 1 ==> line[i] == h.name[i] && line[i + 1] == h.name[i + 1];
    }
  }

  lemma JoinFront(line: string, others: seq<string>)
    requires others != []
    ensures Join([line] + others, "\r\n") == line + "\r\n" + Join(others, "\r\n")
  {
    assert ([line] + others)[1..] == others;
  }

  lemma LineReads(line: string, rest: string)
    requires OneLine(line) && line != ""
    ensures ReadLetter(line + "\r\n" + rest)
         == Letter([ReadHeader(line)] + ReadLetter(rest).headers, ReadLetter(rest).body)
  {
    hide ReadHeader, LineEnd;
    var raw := line + "\r\n" + rest;
    LineEndsThere(line, rest);
    assert raw[..|line|] == line && raw[|line| + 2..] == rest;
  }

  lemma BodyReads(body: string)
    ensures ReadLetter(Join(["", body], "\r\n")) == Letter([], body)
  {
    var raw := Join(["", body], "\r\n");
    JoinFront("", [body]);
    assert [""] + [body] == ["", body];
    assert raw == "" + "\r\n" + body == "\r\n" + body;
    assert raw[2..] == body;
  }

  /** Header lines, an empty line and a body, joined by line breaks, read back as those headers and that body. */
  lemma {:induction false} LetterReadsBack(headers: seq<Header>, body: string)
    requires forall h :: h in headers ==> Printable(h)
    ensures ReadLetter(Join(PrintedAll(headers) + ["", body], "\r\n")) == Letter(headers, body)
  {
    hide Join, ReadLetter, ReadHeader, Printed, OneLine, IsName;
    var lines := PrintedAll(headers) + ["", body];
    if headers == [] {
      assert lines == ["", body];
      BodyReads(body);
    } else {
      var line, others := Printed(headers[0]), PrintedAll(headers[1..]) + ["", body];
      assert headers[0] in headers;
      assert lines == [line] + others;
      JoinFront(line, others);
      PrintedReadsBack(headers[0]);
      LineReads(line, Join(others, "\r\n"));
      LetterReadsBack(headers[1..], body);
      assert [headers[0]] + headers[1..] == headers;
    }
  }

  predicate PlainAddress(email: string) {
    '<' !in email && '>' !in email
  }

  /** An address printed after its name, or alone when the name is blank, is read back. */
  lemma AddressReadsBack(name: string, email: string)
    requires PlainAddress(email) && '<' !in name
    ensures ReadAddress(name + " <" + email + ">") == Address(email, name)
    ensures ReadAddress(email) == Address(email, "")
  {
    var value := name + " <" + email + ">";
    var before := name + " ";
    assert value == before + ['<'] + (email + ">");
    IndexThere(before, '<', email + ">");
    assert value[|before| + 1..] == email + ">" && value[..|before|] == before;
    IndexThere(email, '>', "");
    assert email + ['>'] + "" == email + ">";
    assert before[..|name|] == name;
    IndexThere(email, '<', "");
  }
}
