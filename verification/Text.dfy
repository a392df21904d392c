/** Subject lines and reference lists: the string functions of the parser and of the reply assembler. */
module Text {

  /** unicode.IsSpace, the class strings.TrimSpace and strings.Fields cut at. */
  predicate IsSpace(c: char) {
    || '\t' <= c <= '\r' || c == ' '
    || c == '\U{0085}' || c == '\U{00A0}' || c == '\U{1680}'
    || '\U{2000}' <= c <= '\U{200A}'
    || c == '\U{2028}' || c == '\U{2029}' || c == '\U{202F}' || c == '\U{205F}' || c == '\U{3000}'
  }

  predicate Blank(s: string) {
    forall i :: 0 <= i < |s| ==> IsSpace(s[i])
  }

  predicate Solid(s: string) {
    && s != ""
    && forall i :: 0 <= i < |s| ==> !IsSpace(s[i])
  }

  function TrimLeft(s: string): string {
    if s != "" && IsSpace(s[0]) then TrimLeft(s[1..]) else s
  }

  function TrimRight(s: string): string {
    if s != "" && IsSpace(s[|s| - 1]) then TrimRight(s[..|s| - 1]) else s
  }

  lemma TrimLeftShape(s: string)
    ensures |TrimLeft(s)| <= |s|
    ensures TrimLeft(s) != "" ==> !IsSpace(TrimLeft(s)[0])
  {
  }

  lemma TrimRightShape(s: string)
    ensures TrimRight(s) <= s
    ensures TrimRight(s) != "" ==> !IsSpace(TrimRight(s)[|TrimRight(s)| - 1])
  {
  }

  lemma TrimShape(s: string)
    ensures |TrimLeft(s)| <= |s|
    ensures var t := TrimRight(TrimLeft(s));
            |t| <= |s| && (t != "" ==> !IsSpace(t[0]) && !IsSpace(t[|t| - 1]))
  {
    TrimLeftShape(s);
    TrimRightShape(TrimLeft(s));
  }

  function Trim(s: string): (t: string)
    ensures |t| <= |s|
    ensures t != "" ==> !IsSpace(t[0]) && !IsSpace(t[|t| - 1])
  {
    TrimShape(s);
    TrimRight(TrimLeft(s))
  }

  /** A per-character lower-casing table, as unicode.ToLower is one. */
  ghost predicate CaseFold(fold: char -> char) {
    && (forall c {:trigger fold(fold(c))} :: fold(fold(c)) == fold(c))
    && (forall c {:trigger IsSpace(fold(c))} :: IsSpace(fold(c)) <==> IsSpace(c))
    && fold('R') == 'r' && fold('E') == 'e' && fold(':') == ':'
  }

  function Lower(fold: char -> char, s: string): (l: string)
    ensures |l| == |s|
  {
    seq(|s|, i requires 0 <= i < |s| => fold(s[i]))
  }

  /** Every character is lower-cased by itself, where it stands. */
  lemma LowerEach(fold: char -> char, s: string, i: nat)
    requires i < |s|
    ensures Lower(fold, s)[i] == fold(s[i])
  {
  }

  function AsciiLower(c: char): char {
    if 'A' <= c <= 'Z' then 'a' + (c - 'A') else c
  }

  predicate HasPrefix(s: string, p: string) {
    |p| <= |s| && s[..|p|] == p
  }

  /** The length of the reply marker that s opens with, 0 when there is none. */
  function MarkerLength(fold: char -> char, s: string): (n: nat)
    ensures n <= |s|
  {
    var lower := Lower(fold, s);
    if HasPrefix(lower, "re:") then 3
    else if HasPrefix(lower, "fwd:") then 4
    else if HasPrefix(lower, "fw:") then 3
    else 0
  }

  /** What is left of a trimmed subject once every leading marker is cut off, lower-cased. */
  function Stripped(fold: char -> char, s: string): string
    decreases |s|
  {
    var n := MarkerLength(fold, s);
    if n == 0 then Lower(fold, s) else Stripped(fold, Trim(s[n..]))
  }

  function NormalizedSubject(fold: char -> char, subject: string): string {
    Stripped(fold, Trim(subject))
  }

  method NormalizeSubject(fold: char -> char, subject: string) returns (r: string)
    ensures r == NormalizedSubject(fold, subject)
  {
    var normalized := Trim(subject);
    while true
      invariant Stripped(fold, normalized) == NormalizedSubject(fold, subject)
      decreases |normalized|
    {
      var lower := Lower(fold, normalized);
      if HasPrefix(lower, "re:") {
        normalized := Trim(normalized[3..]);
      } else if HasPrefix(lower, "fwd:") {
        normalized := Trim(normalized[4..]);
      } else if HasPrefix(lower, "fw:") {
        normalized := Trim(normalized[3..]);
      } else {
        return lower;
      }
    }
  }

  /** outbound.replySubject. */
  function ReplySubject(fold: char -> char, subject: string): string {
    if HasPrefix(Lower(fold, subject), "re:") then subject
    else if Trim(subject) == "" then "Re:"
    else "Re: " + subject
  }

  // ---------------------------------------------------------------- trimming

  lemma {:induction false} TrimLeftBlank(ws: string, s: string)
    requires Blank(ws)
    ensures TrimLeft(ws + s) == TrimLeft(s)
  {
    if ws == "" {
      assert ws + s == s;
    } else {
      assert (ws + s)[1..] == ws[1..] + s;
      TrimLeftBlank(ws[1..], s);
    }
  }

  lemma {:induction false} TrimRightBlank(s: string)
    requires Blank(s)
    ensures TrimRight(s) == ""
  {
    if s == "" {
    } else {
      TrimRightBlank(s[..|s| - 1]);
    }
  }

  lemma {:induction false} TrimRightAppend(p: string, s: string)
    requires p != "" && !IsSpace(p[|p| - 1])
    ensures TrimRight(p + s) == p + TrimRight(s)
  {
    if s == "" || !IsSpace(s[|s| - 1]) {
      assert p + s == p + TrimRight(s);
    } else {
      assert (p + s)[..|p + s| - 1] == p + s[..|s| - 1];
      TrimRightAppend(p, s[..|s| - 1]);
    }
  }

  /** Every string is blanks, then its left-trimmed rest. */
  lemma {:induction false} TrimLeftSplit(s: string) returns (ws: string)
    ensures Blank(ws) && s == ws + TrimLeft(s)
  {
    ws := "";
    if s != "" && IsSpace(s[0]) {
      var rest := TrimLeftSplit(s[1..]);
      ws := [s[0]] + rest;
      assert s == [s[0]] + s[1..];
    }
  }

  lemma TrimRightKeepsHead(ws: string, t: string)
    requires t != "" && !IsSpace(t[0])
    ensures TrimRight(ws + t) == ws + TrimRight(t)
    ensures TrimRight(t) != "" && TrimRight(t)[0] == t[0]
  {
    var head := [t[0]];
    TrimRightAppend(ws + head, t[1..]);
    TrimRightAppend(head, t[1..]);
    assert t == head + t[1..];
    assert ws + t == ws + head + t[1..];
    assert ws + head + TrimRight(t[1..]) == ws + (head + TrimRight(t[1..]));
  }

  lemma {:induction false} TrimOfTrimRight(s: string)
    ensures Trim(TrimRight(s)) == Trim(s)
  {
    var ws := TrimLeftSplit(s);
    var t := TrimLeft(s);
    if t == "" {
      assert s == ws;
      TrimRightBlank(s);
    } else {
      TrimLeftShape(s);
      TrimRightKeepsHead(ws, t);
      TrimLeftBlank(ws, TrimRight(t));
      TrimRightIdempotent(t);
    }
  }

  lemma {:induction false} TrimRightIdempotent(s: string)
    ensures TrimRight(TrimRight(s)) == TrimRight(s)
  {
    TrimRightShape(s);
  }

  lemma TrimFixpoint(s: string)
    requires s != "" ==> !IsSpace(s[0]) && !IsSpace(s[|s| - 1])
    ensures Trim(s) == s
  {
  }

  lemma {:induction false} TrimRightSplit(s: string) returns (ws: string)
    ensures Blank(ws) && s == TrimRight(s) + ws
  {
    ws := "";
    if s != "" && IsSpace(s[|s| - 1]) {
      var rest := TrimRightSplit(s[..|s| - 1]);
      ws := rest + [s[|s| - 1]];
      assert s == s[..|s| - 1] + [s[|s| - 1]];
    }
  }

  /** Trimming cuts off blanks at both ends and nothing else. */
  lemma TrimSplit(s: string) returns (before: string, after: string)
    ensures Blank(before) && Blank(after) && s == before + Trim(s) + after
  {
    before := TrimLeftSplit(s);
    after := TrimRightSplit(TrimLeft(s));
  }

  // ---------------------------------------------------------------- subjects

  /** p is "re:", "fw:" or "fwd:" in some mixture of cases. */
  predicate IsMarker(fold: char -> char, p: string) {
    Lower(fold, p) in {"re:", "fw:", "fwd:"}
  }

  lemma MarkerEnds(fold: char -> char, p: string)
    requires CaseFold(fold) && IsMarker(fold, p)
    ensures |p| >= 3 && !IsSpace(p[0]) && !IsSpace(p[|p| - 1])
  {
    var l := Lower(fold, p);
    assert |l| >= 3 && !IsSpace(l[0]) && !IsSpace(l[|l| - 1]);
    assert l[0] == fold(p[0]) && l[|p| - 1] == fold(p[|p| - 1]);
  }

  lemma PrefixDecides(l: string, lp: string)
    requires lp in {"re:", "fw:", "fwd:"} && HasPrefix(l, lp)
    ensures HasPrefix(l, "re:") <==> lp == "re:"
    ensures HasPrefix(l, "fwd:") <==> lp == "fwd:"
    ensures HasPrefix(l, "fw:") <==> lp == "fw:"
  {
    assert l[0] == lp[0] && l[1] == lp[1] && l[2] == lp[2];
    assert forall p: string :: HasPrefix(l, p) && |p| >= 3 ==> p[0] == l[0] && p[2] == l[2];
  }

  lemma MarkerMeasured(fold: char -> char, p: string, s: string)
    requires IsMarker(fold, p)
    ensures MarkerLength(fold, p + s) == |p|
  {
    var l, lp := Lower(fold, p + s), Lower(fold, p);
    assert forall i :: 0 <= i < |p| ==> l[i] == lp[i];
    assert l[..|p|] == lp;
    assert l[0] == lp[0] && l[1] == lp[1] && l[2] == lp[2];
    PrefixDecides(l, lp);
  }

  /** One marker, with any blanks before it, never shows in the normal form. */
  lemma MarkerIgnored(fold: char -> char, ws: string, p: string, s: string)
    requires CaseFold(fold) && Blank(ws) && IsMarker(fold, p)
    ensures NormalizedSubject(fold, ws + p + s) == NormalizedSubject(fold, s)
  {
    MarkerEnds(fold, p);
    assert ws + p + s == ws + (p + s);
    TrimLeftBlank(ws, p + s);
    assert TrimLeft(p + s) == p + s;
    TrimRightAppend(p, s);
    MarkerMeasured(fold, p, TrimRight(s));
    assert (p + TrimRight(s))[|p|..] == TrimRight(s);
    TrimOfTrimRight(s);
  }

  datatype Prefix = Prefix(blanks: string, marker: string)

  function Prefixed(stack: seq<Prefix>, s: string): string {
    if stack == [] then s else stack[0].blanks + stack[0].marker + Prefixed(stack[1..], s)
  }

  /** A whole stack of reply and forward markers, in any case and spacing, never shows. */
  lemma {:induction false} StackIgnored(fold: char -> char, stack: seq<Prefix>, s: string)
    requires CaseFold(fold)
    requires forall p :: p in stack ==> Blank(p.blanks) && IsMarker(fold, p.marker)
    ensures NormalizedSubject(fold, Prefixed(stack, s)) == NormalizedSubject(fold, s)
  {
    if stack == [] {
    } else {
      MarkerIgnored(fold, stack[0].blanks, stack[0].marker, Prefixed(stack[1..], s));
      StackIgnored(fold, stack[1..], s);
    }
  }

  /** The normal form is trimmed, lower case and opens with no marker. */
  lemma {:induction false} StrippedShape(fold: char -> char, s: string)
    requires CaseFold(fold)
    requires s != "" ==> !IsSpace(s[0]) && !IsSpace(s[|s| - 1])
    ensures var r := Stripped(fold, s);
            && Trim(r) == r && Lower(fold, r) == r && MarkerLength(fold, r) == 0
    decreases |s|
  {
    var n := MarkerLength(fold, s);
    if n == 0 {
      var r := Lower(fold, s);
      assert forall i :: 0 <= i < |s| ==> r[i] == fold(s[i]);
      assert Lower(fold, r) == r;
      TrimFixpoint(r);
    } else {
      StrippedShape(fold, Trim(s[n..]));
    }
  }

  lemma NormalizeIdempotent(fold: char -> char, s: string)
    requires CaseFold(fold)
    ensures var r := NormalizedSubject(fold, s);
            && Trim(r) == r && Lower(fold, r) == r && MarkerLength(fold, r) == 0
            && NormalizedSubject(fold, r) == r
  {
    StrippedShape(fold, Trim(s));
  }

  /** s opens with re:, fw: or fwd: in some mixture of cases. */
  predicate OpensWithMarker(fold: char -> char, s: string) {
    || (|s| >= 3 && Lower(fold, s[..3]) in {"re:", "fw:"})
    || (|s| >= 4 && Lower(fold, s[..4]) == "fwd:")
  }

  lemma LowerOfPrefix(fold: char -> char, s: string, n: nat)
    requires n <= |s|
    ensures Lower(fold, s)[..n] == Lower(fold, s[..n])
  {
  }

  lemma MarkerSeen(fold: char -> char, s: string)
    ensures MarkerLength(fold, s) > 0 <==> OpensWithMarker(fold, s)
    ensures MarkerLength(fold, s) > 0 ==> IsMarker(fold, s[..MarkerLength(fold, s)])
  {
    if |s| >= 3 {
      LowerOfPrefix(fold, s, 3);
    }
    if |s| >= 4 {
      LowerOfPrefix(fold, s, 4);
    }
  }

  /** A subject that opens with no marker only loses its outer blanks and its capitals. */
  lemma PlainSubjectKept(fold: char -> char, s: string)
    requires !OpensWithMarker(fold, Trim(s))
    ensures NormalizedSubject(fold, s) == Lower(fold, Trim(s))
  {
    MarkerSeen(fold, Trim(s));
  }

  predicate IsStack(fold: char -> char, stack: seq<Prefix>) {
    forall p :: p in stack ==> Blank(p.blanks) && IsMarker(fold, p.marker)
  }

  /** Every subject is a stack of markers and a rest that opens with none; that rest is its normal form. */
  lemma NormalFormIsTheRest(fold: char -> char, s: string) returns (stack: seq<Prefix>, rest: string)
    ensures IsStack(fold, stack) && Trim(s) == Prefixed(stack, rest) && !OpensWithMarker(fold, Trim(rest))
    ensures NormalizedSubject(fold, s) == Lower(fold, Trim(rest))
  {
    stack, rest := StrippedIsTheRest(fold, Trim(s));
  }

  lemma NoBlankTail(head: string, tail: string)
    requires Blank(tail) && (head + tail != "" ==> !IsSpace((head + tail)[|head + tail| - 1]))
    ensures tail == ""
  {
  }

  lemma PrefixedCons(p: Prefix, stack: seq<Prefix>, s: string)
    ensures Prefixed([p] + stack, s) == p.blanks + p.marker + Prefixed(stack, s)
  {
    assert ([p] + stack)[1..] == stack;
  }

  /** What follows a marker of a trimmed subject: blanks, and the trimmed rest. */
  lemma AfterMarker(s: string, n: nat) returns (before: string)
    requires n <= |s| && (s != "" ==> !IsSpace(s[|s| - 1]))
    ensures Blank(before) && s == s[..n] + before + Trim(s[n..])
  {
    var after;
    before, after := TrimSplit(s[n..]);
    var head := s[..n] + before + Trim(s[n..]);
    assert s == s[..n] + s[n..] && s == head + after;
    NoBlankTail(head, after);
  }

  lemma {:induction false} StrippedIsTheRest(fold: char -> char, s: string) returns (stack: seq<Prefix>, rest: string)
    requires s != "" ==> !IsSpace(s[0]) && !IsSpace(s[|s| - 1])
    ensures IsStack(fold, stack) && s == Prefixed(stack, rest) && !OpensWithMarker(fold, Trim(rest))
    ensures Stripped(fold, s) == Lower(fold, Trim(rest))
    decreases |s|
  {
    hide Prefixed, Trim, IsMarker, OpensWithMarker, IsStack, MarkerLength, Lower, Blank;
    var n := MarkerLength(fold, s);
    MarkerSeen(fold, s);
    if n == 0 {
      stack, rest := [], s;
      TrimFixpoint(s);
      NoStack(fold);
      PrefixedNone(s);
    } else {
      var before := AfterMarker(s, n);
      var inner, last := StrippedIsTheRest(fold, Trim(s[n..]));
      stack, rest := Deepened(fold, before, s[..n], inner, last);
    }
  }

  lemma NoStack(fold: char -> char)
    ensures IsStack(fold, [])
  {
  }

  /** One more marker, and blanks, in front of a stack. */
  lemma Deepened(fold: char -> char, blanks: string, marker: string, inner: seq<Prefix>, last: string)
    returns (stack: seq<Prefix>, rest: string)
    requires Blank(blanks) && IsMarker(fold, marker) && IsStack(fold, inner)
    ensures IsStack(fold, stack) && Prefixed(stack, rest) == marker + blanks + Prefixed(inner, last)
    ensures Trim(rest) == Trim(last)
  {
    hide Prefixed, Trim, IsMarker;
    var outer := Prefix("", marker);
    if inner == [] {
      stack, rest := [outer] + [], blanks + last;
      TrimPastBlanks(blanks, last);
      PrefixedCons(outer, [], rest);
      PrefixedNone(rest);
      PrefixedNone(last);
      assert "" + marker + rest == marker + blanks + last;
    } else {
      var first, others := Prefix(blanks + inner[0].blanks, inner[0].marker), inner[1..];
      stack, rest := [outer] + ([first] + others), last;
      assert inner == [inner[0]] + others && inner[0] in inner;
      PrefixedCons(outer, [first] + others, last);
      PrefixedCons(first, others, last);
      PrefixedCons(inner[0], others, last);
      var tail := Prefixed(others, last);
      assert "" + marker + (blanks + inner[0].blanks + inner[0].marker + tail)
          == marker + blanks + (inner[0].blanks + inner[0].marker + tail);
      assert forall p :: p in others ==> p in inner;
    }
  }

  lemma PrefixedNone(s: string)
    ensures Prefixed([], s) == s
  {
  }

  lemma TrimPastBlanks(blanks: string, s: string)
    requires Blank(blanks)
    ensures Trim(blanks + s) == Trim(s)
  {
    TrimLeftBlank(blanks, s);
  }

  /** A reply subject opens with re: and ends with the subject it answers; one that opened so stays as it is. */
  lemma ReplySubjectOpens(fold: char -> char, s: string)
    requires fold('R') == 'r' && fold('e') == 'e' && fold(':') == ':'
    ensures var r := ReplySubject(fold, s);
            && |r| >= 3 && Lower(fold, r[..3]) == "re:" && ReplySubject(fold, r) == r
            && (|s| >= 3 && Lower(fold, s[..3]) == "re:" ==> r == s)
            && (!(|s| >= 3 && Lower(fold, s[..3]) == "re:") ==>
                  r == if Blank(s) then "Re:" else "Re: " + s)
  {
    var r := ReplySubject(fold, s);
    BlankIsTrimmed(s);
    if |s| >= 3 {
      LowerOfPrefix(fold, s, 3);
    }
    if !HasPrefix(Lower(fold, s), "re:") {
      assert r[..3] == "Re:" && Lower(fold, "Re:") == "re:";
    }
    LowerOfPrefix(fold, r, 3);
  }

  lemma BlankIsTrimmed(s: string)
    ensures Blank(s) <==> Trim(s) == ""
  {
    if Blank(s) {
      TrimLeftBlank(s, "");
      assert s + "" == s;
    } else {
      var before, after := TrimSplit(s);
    }
  }

  lemma ReIsMarker(fold: char -> char)
    requires CaseFold(fold)
    ensures IsMarker(fold, "Re:")
  {
    assert fold('e') == 'e';
    assert Lower(fold, "Re:") == "re:";
  }

  lemma ReplyKeepsSubject(fold: char -> char, s: string)
    requires CaseFold(fold)
    ensures NormalizedSubject(fold, ReplySubject(fold, s)) == NormalizedSubject(fold, s)
  {
    hide Stripped, IsMarker, Trim;
    ReIsMarker(fold);
    if HasPrefix(Lower(fold, s), "re:") {
    } else if Trim(s) == "" {
      MarkerIgnored(fold, "", "Re:", "");
      assert "" + "Re:" + "" == "Re:";
      TrimFixpoint("");
    } else {
      MarkerIgnored(fold, "", "Re:", " " + s);
      assert "" + "Re:" + (" " + s) == "Re: " + s;
      TrimPastBlanks(" ", s);
    }
  }

  function RepliedTimes(fold: char -> char, s: string, n: nat): string {
    if n == 0 then s else ReplySubject(fold, RepliedTimes(fold, s, n - 1))
  }

  /** Replying any number of times leaves the normalised subject alone. */
  lemma {:induction false} RepliesKeepSubject(fold: char -> char, s: string, n: nat)
    requires CaseFold(fold)
    ensures NormalizedSubject(fold, RepliedTimes(fold, s, n)) == NormalizedSubject(fold, s)
  {
    hide NormalizedSubject, ReplySubject, CaseFold;
    if n == 0 {
    } else {
      ReplyKeepsSubject(fold, RepliedTimes(fold, s, n - 1));
      RepliesKeepSubject(fold, s, n - 1);
    }
  }

  /** The hypotheses on the lower-casing table can be met. */
  lemma AsciiLowerFolds()
    ensures CaseFold(AsciiLower)
  {
    assert forall c :: 'A' <= c <= 'Z' ==> 'a' <= AsciiLower(c) <= 'z';
  }

  // ---------------------------------------------------------------- reference lists

  /** The length of the run of non-blank characters s opens with. */
  function RunLength(s: string): (n: nat)
    ensures n <= |s|
    ensures n == |s| || IsSpace(s[n])
    ensures forall i :: 0 <= i < n ==> !IsSpace(s[i])
  {
    if s == "" || IsSpace(s[0]) then 0 else 1 + RunLength(s[1..])
  }

  /** strings.Fields: the maximal non-blank runs, in order. */
  function Fields(s: string): (fields: seq<string>)
    ensures forall f :: f in fields ==> Solid(f)
  {
    if s == "" then []
    else if IsSpace(s[0]) then Fields(s[1..])
    else
      var n := RunLength(s);
      [s[..n]] + Fields(s[n..])
  }

  function Join(parts: seq<string>, sep: string): string {
    if parts == [] then ""
    else if |parts| == 1 then parts[0]
    else parts[0] + sep + Join(parts[1..], sep)
  }

  lemma {:induction false} RunLengthSolid(word: string, rest: string)
    requires forall i :: 0 <= i < |word| ==> !IsSpace(word[i])
    requires rest == "" || IsSpace(rest[0])
    ensures RunLength(word + rest) == |word|
  {
    if word == "" {
      assert word + rest == rest;
    } else {
      assert (word + rest)[1..] == word[1..] + rest;
      RunLengthSolid(word[1..], rest);
    }
  }

  /** Printing a reference list and splitting it again gives the list back. */
  lemma {:induction false} FieldsOfJoin(refs: seq<string>)
    requires forall r :: r in refs ==> Solid(r)
    ensures Fields(Join(refs, " ")) == refs
  {
    if refs == [] {
    } else {
      assert Solid(refs[0]);
      var rest := if |refs| == 1 then "" else " " + Join(refs[1..], " ");
      assert Join(refs, " ") == refs[0] + rest;
      RunLengthSolid(refs[0], rest);
      assert (refs[0] + rest)[..|refs[0]|] == refs[0];
      assert (refs[0] + rest)[|refs[0]|..] == rest;
      if |refs| > 1 {
        assert rest[1..] == Join(refs[1..], " ");
      }
      FieldsOfJoin(refs[1..]);
    }
  }

  lemma {:induction false} FieldsOfSolid(word: string, rest: string)
    requires Solid(word) && (rest == "" || IsSpace(rest[0]))
    ensures Fields(word + rest) == [word] + Fields(rest)
  {
    RunLengthSolid(word, rest);
    assert (word + rest)[..|word|] == word && (word + rest)[|word|..] == rest;
  }

  /** Splitting at a blank splits into what is before it and what is after it. */
  lemma {:induction false} FieldsSplitAtBlank(s: string, blank: char, rest: string)
    requires IsSpace(blank)
    ensures Fields(s + [blank] + rest) == Fields(s) + Fields(rest)
    decreases |s|
  {
    var tail := [blank] + rest;
    assert s + [blank] + rest == s + tail;
    if s == "" {
      assert s + tail == tail && tail[1..] == rest;
    } else if IsSpace(s[0]) {
      assert (s + tail)[1..] == s[1..] + tail == s[1..] + [blank] + rest;
      FieldsSplitAtBlank(s[1..], blank, rest);
    } else {
      var n := RunLength(s);
      var word, more := s[..n], s[n..];
      assert s == word + more && s + tail == word + (more + tail);
      FieldsOfSolid(word, more);
      FieldsOfSolid(word, more + tail);
      assert more + tail == more + [blank] + rest;
      FieldsSplitAtBlank(more, blank, rest);
    }
  }

  /** With that, and these, every string's fields are fixed. */
  lemma FieldsOfOne(s: string)
    ensures Blank(s) ==> Fields(s) == []
    ensures Solid(s) ==> Fields(s) == [s]
  {
    if Solid(s) {
      FieldsOfSolid(s, "");
      assert s + "" == s;
    } else if Blank(s) {
      FieldsOfBlank(s);
    }
  }

  lemma {:induction false} FieldsOfBlank(s: string)
    requires Blank(s)
    ensures Fields(s) == []
  {
    if s == "" {
    } else {
      FieldsOfBlank(s[1..]);
    }
  }
}
