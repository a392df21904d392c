/**
 The body walk of the parser. A message arrives here as an already split MIME tree; decoding a
 payload may fail, and so may finding the next part. Bodies are kept as Go strings of bytes.
 */
module Mime {
  import opened Domain
  import opened Text

  datatype Ending = Eof | Broken

  datatype Entity =
    | Unparsable(raw: Option<string>)                  // no usable media type: the undecoded body
    | Multipart(parts: seq<Part>, ending: Ending)
    | SinglePart(mediaType: string, decoded: Option<string>)

  /** decoded is the payload of the whole part; entity is what the part looks like when it is walked. */
  datatype Part = Part(
    disposition: string,
    fileName: string,
    mediaType: string,
    contentId: string,
    decoded: Option<string>,
    entity: Entity)

  /** What one leaf contributes, in document order. Stop is an unreadable body or a broken boundary. */
  datatype Leaf =
    | RawText(text: string)
    | Plain(text: string)
    | Html(text: string)
    | Ignored
    | Attach(attachment: Attachment)
    | Stop

  datatype Bodies = Bodies(text: string, html: string, attachments: seq<Attachment>)

  predicate IsAttachment(fold: char -> char, p: Part) {
    HasPrefix(Lower(fold, p.disposition), "attachment")
  }

  function AttachmentOf(p: Part, payload: string): Attachment {
    Attachment(p.fileName, p.mediaType, |payload|, p.contentId, p.disposition)
  }

  // ---------------------------------------------------------------- the flat reading

  ghost function Leaves(fold: char -> char, e: Entity): seq<Leaf>
    decreases e, 1
  {
    match e
    case Unparsable(None) => [Stop]
    case Unparsable(Some(raw)) => [RawText(raw)]
    case SinglePart(_, None) => [Stop]
    case SinglePart(mediaType, Some(payload)) =>
      if mediaType == "text/plain" then [Plain(payload)]
      else if mediaType == "text/html" then [Html(payload)]
      else [Ignored]
    case Multipart(parts, ending) => PartsLeaves(fold, parts) + (if ending.Eof? then [] else [Stop])
  }

  ghost function PartLeaves(fold: char -> char, p: Part): seq<Leaf>
    decreases p, 0
  {
    if IsAttachment(fold, p) then
      match p.decoded
      case None => [Stop]
      case Some(payload) => [Attach(AttachmentOf(p, payload))]
    else Leaves(fold, p.entity)
  }

  ghost function PartsLeaves(fold: char -> char, parts: seq<Part>): seq<Leaf>
    decreases parts, 0
  {
    if parts == [] then [] else PartLeaves(fold, parts[0]) + PartsLeaves(fold, parts[1..])
  }

  ghost function Absorb(b: Bodies, leaf: Leaf): Bodies {
    match leaf
    case RawText(text) => b.(text := text)
    case Plain(text) => if b.text == "" then b.(text := text) else b
    case Html(text) => if b.html == "" then b.(html := text) else b
    case Attach(a) => b.(attachments := b.attachments + [a])
    case Ignored => b
    case Stop => b
  }

  datatype Walked = Walked(bodies: Bodies, ok: bool)

  /** One left fold over the leaves, given up at the first Stop. */
  ghost function Folded(b: Bodies, leaves: seq<Leaf>): Walked
    decreases leaves
  {
    if leaves == [] then Walked(b, true)
    else if leaves[0].Stop? then Walked(b, false)
    else Folded(Absorb(b, leaves[0]), leaves[1..])
  }

  // ---------------------------------------------------------------- the walk of the source

  class Parsed {
    var textBody: string
    var htmlBody: string
    var attachments: seq<Attachment>

    constructor ()
      ensures View() == Bodies("", "", [])
    {
      textBody, htmlBody, attachments := "", "", [];
    }

    ghost function View(): Bodies
      reads this
    {
      Bodies(textBody, htmlBody, attachments)
    }

    /** populateBodiesAndAttachments: the in-place recursive walk equals the fold over the leaves. */
    method Populate(fold: char -> char, e: Entity) returns (ok: bool)
      modifies this
      ensures Walked(View(), ok) == Folded(old(View()), Leaves(fold, e))
      decreases e
    {
      match e {
        case Unparsable(raw) =>
          if raw.None? {
            return false;
          }
          textBody := raw.value;
          assert Folded(Absorb(old(View()), RawText(raw.value)), []) == Walked(View(), true);
          return true;
        case Multipart(parts, ending) =>
          ok := PopulateParts(fold, parts, ending);
        case SinglePart(mediaType, decoded) =>
          if decoded.None? {
            return false;
          }
          ghost var leaf := Leaves(fold, e);
          assert |leaf| == 1 && leaf[1..] == [];
          if mediaType == "text/plain" {
            if textBody == "" {
              textBody := decoded.value;
            }
          } else if mediaType == "text/html" {
            if htmlBody == "" {
              htmlBody := decoded.value;
            }
          }
          return true;
      }
    }

    /** The multipart arm: the loop over NextPart. */
    method PopulateParts(fold: char -> char, parts: seq<Part>, ending: Ending) returns (ok: bool)
      modifies this
      ensures Walked(View(), ok) == Folded(old(View()), Leaves(fold, Multipart(parts, ending)))
      decreases parts
    {
      var i := 0;
      while i < |parts|
        invariant 0 <= i <= |parts|
        invariant Folded(old(View()), PartsLeaves(fold, parts[..i])) == Walked(View(), true)
      {
        var part := parts[i];
        PartsSnoc(fold, parts, i);
        var rest := if ending.Eof? then [] else [Stop];
        ghost var before := PartsLeaves(fold, parts[..i]);
        ghost var here := View();
        FoldedAppend(old(View()), before, PartLeaves(fold, part));
        if IsAttachment(fold, part) {
          if part.decoded.None? {
            FoldedStops(old(View()), fold, parts, i, ending);
            return false;
          }
          var found := AttachmentOf(part, part.decoded.value);
          attachments := attachments + [found];
          assert Folded(here, [Attach(found)]) == Folded(Absorb(here, Attach(found)), []);
        } else {
          var walked := Populate(fold, part.entity);
          if !walked {
            FoldedStops(old(View()), fold, parts, i, ending);
            return false;
          }
        }
        i := i + 1;
      }
      assert parts[..|parts|] == parts;
      FoldedAppend(old(View()), PartsLeaves(fold, parts), if ending.Eof? then [] else [Stop]);
      return ending.Eof?;
    }
  }

  lemma {:induction false} FoldedAppend(b: Bodies, xs: seq<Leaf>, ys: seq<Leaf>)
    ensures var r := Folded(b, xs);
            Folded(b, xs + ys) == if r.ok then Folded(r.bodies, ys) else r
    decreases xs
  {
    if xs == [] {
      assert xs + ys == ys;
    } else if !xs[0].Stop? {
      assert (xs + ys)[1..] == xs[1..] + ys;
      FoldedAppend(Absorb(b, xs[0]), xs[1..], ys);
    }
  }

  lemma {:induction false} PartsAppend(fold: char -> char, xs: seq<Part>, ys: seq<Part>)
    ensures PartsLeaves(fold, xs + ys) == PartsLeaves(fold, xs) + PartsLeaves(fold, ys)
  {
    if xs == [] {
      assert xs + ys == ys;
    } else {
      assert (xs + ys)[1..] == xs[1..] + ys;
      PartsAppend(fold, xs[1..], ys);
    }
  }

  lemma PartsSnoc(fold: char -> char, parts: seq<Part>, i: nat)
    requires i < |parts|
    ensures PartsLeaves(fold, parts[..i + 1]) == PartsLeaves(fold, parts[..i]) + PartLeaves(fold, parts[i])
  {
    assert parts[..i + 1] == parts[..i] + [parts[i]];
    PartsAppend(fold, parts[..i], [parts[i]]);
    assert PartsLeaves(fold, [parts[i]]) == PartLeaves(fold, parts[i]) + PartsLeaves(fold, []);
  }

  /** Once the first i + 1 parts have failed, nothing after them counts. */
  lemma FoldedStops(b: Bodies, fold: char -> char, parts: seq<Part>, i: nat, ending: Ending)
    requires i < |parts|
    requires !Folded(b, PartsLeaves(fold, parts[..i + 1])).ok
    ensures Folded(b, Leaves(fold, Multipart(parts, ending))) == Folded(b, PartsLeaves(fold, parts[..i + 1]))
  {
    var tail := if ending.Eof? then [] else [Stop];
    assert parts == parts[..i + 1] + parts[i + 1..];
    PartsAppend(fold, parts[..i + 1], parts[i + 1..]);
    FoldedAppend(b, PartsLeaves(fold, parts[..i + 1]), PartsLeaves(fold, parts[i + 1..]));
    FoldedAppend(b, PartsLeaves(fold, parts), tail);
  }

  // ---------------------------------------------------------------- the tree, read without the walk

  /** The payloads of this media type, in document order, outside attachments. */
  ghost function Payloads(fold: char -> char, mediaType: string, e: Entity): seq<string>
    decreases e, 1
  {
    match e
    case Unparsable(_) => []
    case SinglePart(other, decoded) => if other == mediaType && decoded.Some? then [decoded.value] else []
    case Multipart(parts, _) => PartsPayloads(fold, mediaType, parts)
  }

  ghost function PartPayloads(fold: char -> char, mediaType: string, p: Part): seq<string>
    decreases p, 2
  {
    if HasPrefix(Lower(fold, p.disposition), "attachment") then [] else Payloads(fold, mediaType, p.entity)
  }

  ghost function PartsPayloads(fold: char -> char, mediaType: string, parts: seq<Part>): seq<string>
    decreases parts, 3
  {
    if parts == [] then []
    else PartPayloads(fold, mediaType, parts[0]) + PartsPayloads(fold, mediaType, parts[1..])
  }

  /** The readable attachments of a tree, in document order, each with the size of its payload. */
  ghost function Attached(fold: char -> char, e: Entity): seq<Attachment>
    decreases e, 1
  {
    if e.Multipart? then PartsAttached(fold, e.parts) else []
  }

  ghost function PartAttached(fold: char -> char, p: Part): seq<Attachment>
    decreases p, 2
  {
    if !HasPrefix(Lower(fold, p.disposition), "attachment") then Attached(fold, p.entity)
    else if p.decoded.None? then []
    else [Attachment(p.fileName, p.mediaType, |p.decoded.value|, p.contentId, p.disposition)]
  }

  ghost function PartsAttached(fold: char -> char, parts: seq<Part>): seq<Attachment>
    decreases parts, 3
  {
    if parts == [] then [] else PartAttached(fold, parts[0]) + PartsAttached(fold, parts[1..])
  }

  /** Everything the walk has to read can be read. */
  ghost predicate Whole(fold: char -> char, e: Entity)
    decreases e, 1
  {
    match e
    case Unparsable(raw) => raw.Some?
    case SinglePart(_, decoded) => decoded.Some?
    case Multipart(parts, ending) => ending == Eof && PartsWhole(fold, parts)
  }

  ghost predicate PartWhole(fold: char -> char, p: Part)
    decreases p, 2
  {
    if HasPrefix(Lower(fold, p.disposition), "attachment") then p.decoded.Some? else Whole(fold, p.entity)
  }

  ghost predicate PartsWhole(fold: char -> char, parts: seq<Part>)
    decreases parts, 3
  {
    parts != [] ==> PartWhole(fold, parts[0]) && PartsWhole(fold, parts[1..])
  }

  /** One body text: a text/plain payload, or the undecoded body of an entity without a usable media type. */
  datatype Piece = Piece(typed: bool, text: string)

  /** The body texts in document order. */
  ghost function Pieces(fold: char -> char, e: Entity): seq<Piece>
    decreases e, 1
  {
    match e
    case Unparsable(raw) => if raw.Some? then [Piece(false, raw.value)] else []
    case SinglePart(mediaType, decoded) =>
      if mediaType == "text/plain" && decoded.Some? then [Piece(true, decoded.value)] else []
    case Multipart(parts, _) => PartsPieces(fold, parts)
  }

  ghost function PartPieces(fold: char -> char, p: Part): seq<Piece>
    decreases p, 2
  {
    if HasPrefix(Lower(fold, p.disposition), "attachment") then [] else Pieces(fold, p.entity)
  }

  ghost function PartsPieces(fold: char -> char, parts: seq<Part>): seq<Piece>
    decreases parts, 3
  {
    if parts == [] then [] else PartPieces(fold, parts[0]) + PartsPieces(fold, parts[1..])
  }

  // ---------------------------------------------------------------- what the bodies are

  ghost function FirstNonEmpty(texts: seq<string>): (r: string)
    ensures forall i :: 0 <= i < |texts| && texts[i] != "" && (forall j :: 0 <= j < i ==> texts[j] == "") ==>
              r == texts[i]
    ensures (forall i :: 0 <= i < |texts| ==> texts[i] == "") ==> r == ""
  {
    if texts == [] then "" else if texts[0] != "" then texts[0] else FirstNonEmpty(texts[1..])
  }

  ghost function Plains(leaves: seq<Leaf>): seq<string> {
    if leaves == [] then []
    else (if leaves[0].Plain? then [leaves[0].text] else []) + Plains(leaves[1..])
  }

  ghost function Htmls(leaves: seq<Leaf>): seq<string> {
    if leaves == [] then []
    else (if leaves[0].Html? then [leaves[0].text] else []) + Htmls(leaves[1..])
  }

  ghost function Attachments(leaves: seq<Leaf>): seq<Attachment> {
    if leaves == [] then []
    else (if leaves[0].Attach? then [leaves[0].attachment] else []) + Attachments(leaves[1..])
  }

  ghost predicate Readable(leaves: seq<Leaf>) {
    forall i :: 0 <= i < |leaves| ==> !leaves[i].Stop?
  }

  ghost predicate WellTyped(leaves: seq<Leaf>) {
    forall i :: 0 <= i < |leaves| ==> !leaves[i].RawText?
  }

  /** For every readable message: the first nonempty text/html, and the attachments in document order. */
  lemma {:induction false} HtmlAndAttachments(b: Bodies, leaves: seq<Leaf>)
    requires Readable(leaves)
    ensures var r := Folded(b, leaves);
            && r.ok
            && r.bodies.html == FirstNonEmpty([b.html] + Htmls(leaves))
            && r.bodies.attachments == b.attachments + Attachments(leaves)
    decreases leaves
  {
    if leaves == [] {
      assert [b.html] + Htmls(leaves) == [b.html] && [b.html][1..] == [];
    } else {
      var c := Absorb(b, leaves[0]);
      HtmlAndAttachments(c, leaves[1..]);
      OneAbsorbed(b, leaves);
    }
  }

  lemma OneAbsorbed(b: Bodies, leaves: seq<Leaf>)
    requires leaves != []
    ensures var c := Absorb(b, leaves[0]);
            && FirstNonEmpty([b.html] + Htmls(leaves)) == FirstNonEmpty([c.html] + Htmls(leaves[1..]))
            && b.attachments + Attachments(leaves) == c.attachments + Attachments(leaves[1..])
  {
    AttachmentsShift(b, leaves[0], Attachments(leaves[1..]));
    HtmlShift(b, leaves[0], Htmls(leaves[1..]));
  }

  lemma AttachmentsShift(b: Bodies, leaf: Leaf, rest: seq<Attachment>)
    ensures b.attachments + ((if leaf.Attach? then [leaf.attachment] else []) + rest)
         == Absorb(b, leaf).attachments + rest
  {
    if leaf.Attach? {
      assert b.attachments + ([leaf.attachment] + rest) == b.attachments + [leaf.attachment] + rest;
    } else {
      assert [] + rest == rest;
    }
  }

  lemma HtmlShift(b: Bodies, leaf: Leaf, rest: seq<string>)
    ensures FirstNonEmpty([b.html] + ((if leaf.Html? then [leaf.text] else []) + rest))
         == FirstNonEmpty([Absorb(b, leaf).html] + rest)
  {
    var now := if leaf.Html? then [leaf.text] else [];
    if leaf.Html? {
      assert (now + rest)[1..] == rest;
    } else {
      assert now + rest == rest;
    }
    HeadSettles(b.html, Absorb(b, leaf).html, now + rest, rest);
  }

  /** Without unparsable leaves the text body is the first nonempty text/plain payload. */
  lemma {:induction false} TextWellTyped(b: Bodies, leaves: seq<Leaf>)
    requires Readable(leaves) && WellTyped(leaves)
    ensures Folded(b, leaves).bodies.text == FirstNonEmpty([b.text] + Plains(leaves))
    decreases leaves
  {
    if leaves == [] {
      assert [b.text] + Plains(leaves) == [b.text] && [b.text][1..] == [];
    } else {
      var c := Absorb(b, leaves[0]);
      TextWellTyped(c, leaves[1..]);
      HeadSettles(b.text, c.text, Plains(leaves), Plains(leaves[1..]));
    }
  }

  lemma HeadSettles(x: string, y: string, xs: seq<string>, ys: seq<string>)
    requires (xs == ys && x == y) || (xs != [] && xs[1..] == ys && y == if x == "" then xs[0] else x)
    ensures FirstNonEmpty([x] + xs) == FirstNonEmpty([y] + ys)
  {
    assert ([x] + xs)[1..] == xs && ([y] + ys)[1..] == ys;
  }

  /** Otherwise the last unparsable leaf overwrites the text body and the search restarts after it. */
  lemma {:induction false} TextAfterUnparsable(b: Bodies, leaves: seq<Leaf>, k: nat)
    requires Readable(leaves) && k < |leaves| && leaves[k].RawText? && WellTyped(leaves[k + 1..])
    ensures Folded(b, leaves).bodies.text == FirstNonEmpty([leaves[k].text] + Plains(leaves[k + 1..]))
  {
    var upTo := leaves[..k];
    assert Readable(upTo);
    HtmlAndAttachments(b, upTo);
    assert leaves == upTo + leaves[k..];
    FoldedAppend(b, upTo, leaves[k..]);
    var c := Folded(b, upTo).bodies;
    assert leaves[k..][1..] == leaves[k + 1..];
    TextWellTyped(Absorb(c, leaves[k]), leaves[k + 1..]);
  }

  /** The place of the last leaf of unusable content type, -1 when there is none. */
  ghost predicate LastUnparsable(leaves: seq<Leaf>, k: int) {
    -1 <= k < |leaves| && (k >= 0 ==> leaves[k].RawText?) && WellTyped(leaves[k + 1..])
  }

  /**
   So the text body is the first nonempty text/plain payload exactly when no such leaf exists, or the last
   one happens to hold that text, or is empty and followed by that payload.
   */
  lemma TextIsFirstPlainExactly(leaves: seq<Leaf>, k: int)
    requires Readable(leaves) && LastUnparsable(leaves, k)
    ensures var first := FirstNonEmpty(Plains(leaves));
            (Folded(Bodies("", "", []), leaves).bodies.text == first)
            <==> (|| k == -1
                  || (leaves[k].text != "" && leaves[k].text == first)
                  || (leaves[k].text == "" && FirstNonEmpty(Plains(leaves[k + 1..])) == first))
  {
    var b := Bodies("", "", []);
    if k == -1 {
      assert leaves[0..] == leaves;
      TextWellTyped(b, leaves);
      assert ([""] + Plains(leaves))[1..] == Plains(leaves);
    } else {
      TextAfterUnparsable(b, leaves, k);
      var texts := [leaves[k].text] + Plains(leaves[k + 1..]);
      assert texts[1..] == Plains(leaves[k + 1..]);
    }
  }

  /** "The first text/plain part is the text body" fails: a later part without a media type replaces it. */
  lemma TextBodyOverwritten(fold: char -> char)
    ensures var part := (e: Entity) => Part("", "", "", "", None, e);
            var e := Multipart([part(SinglePart("text/plain", Some("hello"))), part(Unparsable(Some("footer")))], Eof);
            && Leaves(fold, e) == [Plain("hello"), RawText("footer")]
            && Folded(Bodies("", "", []), Leaves(fold, e)).bodies.text == "footer"
            && FirstNonEmpty(Plains(Leaves(fold, e))) == "hello"
  {
    var p0 := Part("", "", "", "", None, SinglePart("text/plain", Some("hello")));
    var p1 := Part("", "", "", "", None, Unparsable(Some("footer")));
    var leaves := [Plain("hello"), RawText("footer")];
    assert PartsLeaves(fold, [p0, p1][1..][1..]) == [];
    assert PartsLeaves(fold, [p0, p1][1..]) == [RawText("footer")];
    assert PartsLeaves(fold, [p0, p1]) == leaves;
    assert leaves[1..] == [RawText("footer")] && leaves[1..][1..] == [];
    assert Absorb(Absorb(Bodies("", "", []), leaves[0]), leaves[1]) == Bodies("footer", "", []);
    assert Folded(Bodies("hello", "", []), [RawText("footer")]) == Folded(Bodies("footer", "", []), []);
    assert Plains(leaves) == ["hello"] + Plains(leaves[1..]);
  }

  // ---------------------------------------------------------------- the bodies, from the tree

  lemma Regrouped<T>(a: seq<T>, b: seq<T>, c: seq<T>)
    ensures a + (b + c) == a + b + c
  {
  }

  function PieceOf(leaf: Leaf): seq<Piece> {
    match leaf
    case Plain(text) => [Piece(true, text)]
    case RawText(text) => [Piece(false, text)]
    case _ => []
  }

  ghost function PiecesOf(leaves: seq<Leaf>): seq<Piece> {
    if leaves == [] then [] else PieceOf(leaves[0]) + PiecesOf(leaves[1..])
  }

  lemma {:induction false} HtmlsAppend(xs: seq<Leaf>, ys: seq<Leaf>)
    ensures Htmls(xs + ys) == Htmls(xs) + Htmls(ys)
  {
    if xs == [] {
      assert xs + ys == ys;
    } else {
      assert (xs + ys)[0] == xs[0] && (xs + ys)[1..] == xs[1..] + ys;
      HtmlsAppend(xs[1..], ys);
      Regrouped(if xs[0].Html? then [xs[0].text] else [], Htmls(xs[1..]), Htmls(ys));
    }
  }

  lemma {:induction false} AttachmentsAppend(xs: seq<Leaf>, ys: seq<Leaf>)
    ensures Attachments(xs + ys) == Attachments(xs) + Attachments(ys)
  {
    if xs == [] {
      assert xs + ys == ys;
    } else {
      assert (xs + ys)[0] == xs[0] && (xs + ys)[1..] == xs[1..] + ys;
      AttachmentsAppend(xs[1..], ys);
      Regrouped(if xs[0].Attach? then [xs[0].attachment] else [], Attachments(xs[1..]), Attachments(ys));
    }
  }

  lemma {:induction false} PiecesAppend(xs: seq<Leaf>, ys: seq<Leaf>)
    ensures PiecesOf(xs + ys) == PiecesOf(xs) + PiecesOf(ys)
  {
    if xs == [] {
      assert xs + ys == ys;
    } else {
      assert (xs + ys)[0] == xs[0] && (xs + ys)[1..] == xs[1..] + ys;
      PiecesAppend(xs[1..], ys);
      Regrouped(PieceOf(xs[0]), PiecesOf(xs[1..]), PiecesOf(ys));
    }
  }

  lemma ReadableAppend(xs: seq<Leaf>, ys: seq<Leaf>)
    ensures Readable(xs + ys) <==> Readable(xs) && Readable(ys)
  {
    assert forall i :: 0 <= i < |xs| ==> (xs + ys)[i] == xs[i];
    assert forall i :: 0 <= i < |ys| ==> (xs + ys)[|xs| + i] == ys[i];
  }

  /** The leaves say of a tree what reading it without the walk says. */
  ghost predicate SaysAs(
      leaves: seq<Leaf>, htmls: seq<string>, attached: seq<Attachment>, pieces: seq<Piece>, whole: bool)
  {
    && Htmls(leaves) == htmls && Attachments(leaves) == attached && PiecesOf(leaves) == pieces
    && (Readable(leaves) <==> whole)
  }

  lemma OneLeafSays(leaf: Leaf)
    ensures SaysAs([leaf], if leaf.Html? then [leaf.text] else [], if leaf.Attach? then [leaf.attachment] else [],
                   PieceOf(leaf), !leaf.Stop?)
  {
    assert [leaf][1..] == [];
  }

  lemma SayingsAppend(
      xs: seq<Leaf>, h: seq<string>, a: seq<Attachment>, p: seq<Piece>, w: bool,
      ys: seq<Leaf>, h': seq<string>, a': seq<Attachment>, p': seq<Piece>, w': bool)
    requires SaysAs(xs, h, a, p, w) && SaysAs(ys, h', a', p', w')
    ensures SaysAs(xs + ys, h + h', a + a', p + p', w && w')
  {
    hide Htmls, Attachments, PiecesOf, Readable;
    HtmlsAppend(xs, ys);
    AttachmentsAppend(xs, ys);
    PiecesAppend(xs, ys);
    ReadableAppend(xs, ys);
  }

  lemma {:induction false} TreeSays(fold: char -> char, e: Entity)
    ensures SaysAs(Leaves(fold, e), Payloads(fold, "text/html", e), Attached(fold, e), Pieces(fold, e), Whole(fold, e))
    decreases e, 1
  {
    hide SaysAs, Lower;
    match e {
      case Unparsable(_) => OneLeafSays(Leaves(fold, e)[0]);
      case SinglePart(_, _) => OneLeafSays(Leaves(fold, e)[0]);
      case Multipart(parts, ending) =>
        var leaves, htmls, pieces := PartsLeaves(fold, parts), PartsPayloads(fold, "text/html", parts),
                                     PartsPieces(fold, parts);
        PartsSay(fold, parts);
        if ending.Eof? {
          assert leaves + [] == leaves;
        } else {
          OneLeafSays(Stop);
          SayingsAppend(leaves, htmls, PartsAttached(fold, parts), pieces, PartsWhole(fold, parts),
                        [Stop], [], [], [], false);
          assert htmls + [] == htmls && PartsAttached(fold, parts) + [] == PartsAttached(fold, parts);
          assert pieces + [] == pieces;
        }
    }
  }

  lemma {:induction false} PartSays(fold: char -> char, p: Part)
    ensures SaysAs(PartLeaves(fold, p), PartPayloads(fold, "text/html", p), PartAttached(fold, p),
                   PartPieces(fold, p), PartWhole(fold, p))
    decreases p, 2
  {
    hide SaysAs, Lower;
    if IsAttachment(fold, p) {
      OneLeafSays(PartLeaves(fold, p)[0]);
    } else {
      TreeSays(fold, p.entity);
    }
  }

  lemma {:induction false} PartsSay(fold: char -> char, parts: seq<Part>)
    ensures SaysAs(PartsLeaves(fold, parts), PartsPayloads(fold, "text/html", parts), PartsAttached(fold, parts),
                   PartsPieces(fold, parts), PartsWhole(fold, parts))
    decreases parts, 3
  {
    hide PartLeaves, PartPayloads, PartAttached, PartPieces, PartWhole, SaysAs;
    if parts == [] {
      NothingSays();
    } else {
      var p, rest := parts[0], parts[1..];
      PartSays(fold, p);
      PartsSay(fold, rest);
      SayingsAppend(
        PartLeaves(fold, p), PartPayloads(fold, "text/html", p), PartAttached(fold, p), PartPieces(fold, p),
        PartWhole(fold, p),
        PartsLeaves(fold, rest), PartsPayloads(fold, "text/html", rest), PartsAttached(fold, rest),
        PartsPieces(fold, rest), PartsWhole(fold, rest));
    }
  }

  lemma NothingSays()
    ensures SaysAs([], [], [], [], true)
  {
  }

  ghost function Texts(pieces: seq<Piece>): (texts: seq<string>)
    ensures |texts| == |pieces| && forall i :: 0 <= i < |pieces| ==> texts[i] == pieces[i].text
  {
    seq(|pieces|, i requires 0 <= i < |pieces| => pieces[i].text)
  }

  /** The place of the last untyped piece, or 0 if there is none. */
  ghost predicate StartsAt(pieces: seq<Piece>, k: nat) {
    && (k == 0 || (k < |pieces| && !pieces[k].typed))
    && forall i :: k < i < |pieces| ==> pieces[i].typed
  }

  ghost predicate BodyFrom(pieces: seq<Piece>, k: nat, text: string) {
    k <= |pieces| && StartsAt(pieces, k) && text == FirstNonEmpty(Texts(pieces[k..]))
  }

  /** The first text that is not empty, from the last untyped piece on. */
  ghost predicate IsTextBody(pieces: seq<Piece>, text: string) {
    exists k: nat :: BodyFrom(pieces, k, text)
  }

  /** A text in hand counts as an untyped piece before the others. */
  function InHand(text: string, pieces: seq<Piece>): seq<Piece> {
    [Piece(false, text)] + pieces
  }

  /** From an untyped piece on, what is in hand before it does not matter. */
  lemma RestartsLater(inHand: string, front: Piece, now: string, rest: seq<Piece>, k: nat, text: string)
    requires k > 0 && BodyFrom(InHand(now, rest), k, text)
    ensures IsTextBody(InHand(inHand, [front] + rest), text)
  {
    hide FirstNonEmpty, Texts;
    var shorter, longer := InHand(now, rest), InHand(inHand, [front] + rest);
    assert longer[k + 1..] == shorter[k..];
    forall i | 2 <= i < |longer| ensures longer[i] == shorter[i - 1] {
      assert longer[i] == rest[i - 2] == shorter[i - 1];
    }
    assert BodyFrom(longer, k + 1, text);
  }

  /** An untyped piece replaces what is in hand. */
  lemma UntypedReplaces(inHand: string, next: string, rest: seq<Piece>, text: string)
    requires IsTextBody(InHand(next, rest), text)
    ensures IsTextBody(InHand(inHand, [Piece(false, next)] + rest), text)
  {
    hide BodyFrom, InHand;
    var k: nat :| BodyFrom(InHand(next, rest), k, text);
    if k == 0 {
      ReplacesAtStart(inHand, next, rest, text);
    } else {
      RestartsLater(inHand, Piece(false, next), next, rest, k, text);
    }
  }

  lemma ReplacesAtStart(inHand: string, next: string, rest: seq<Piece>, text: string)
    requires BodyFrom(InHand(next, rest), 0, text)
    ensures IsTextBody(InHand(inHand, [Piece(false, next)] + rest), text)
  {
    hide FirstNonEmpty, Texts;
    var shorter, longer := InHand(next, rest), InHand(inHand, [Piece(false, next)] + rest);
    assert longer[1..] == shorter && shorter[0..] == shorter;
    forall i | 1 < i < |longer| ensures longer[i].typed {
      assert longer[i] == shorter[i - 1];
    }
    assert BodyFrom(longer, 1, text);
  }

  lemma FirstOfThree(x: string, y: string, texts: seq<string>)
    ensures FirstNonEmpty([x] + ([y] + texts)) == FirstNonEmpty([if x == "" then y else x] + texts)
  {
    var z := if x == "" then y else x;
    assert ([x] + ([y] + texts))[1..] == [y] + texts && ([y] + texts)[1..] == texts && ([z] + texts)[1..] == texts;
  }

  lemma TextsOfTwo(inHand: string, next: string, rest: seq<Piece>)
    ensures Texts(InHand(inHand, rest)) == [inHand] + Texts(rest)
    ensures Texts(InHand(inHand, [Piece(true, next)] + rest)) == [inHand] + ([next] + Texts(rest))
  {
  }

  /** A typed piece counts only if what is in hand is empty. */
  lemma TypedFills(inHand: string, next: string, rest: seq<Piece>, text: string)
    requires IsTextBody(InHand(if inHand == "" then next else inHand, rest), text)
    ensures IsTextBody(InHand(inHand, [Piece(true, next)] + rest), text)
  {
    hide BodyFrom, InHand;
    var now := if inHand == "" then next else inHand;
    var k: nat :| BodyFrom(InHand(now, rest), k, text);
    if k == 0 {
      FillsAtStart(inHand, next, rest, text);
    } else {
      RestartsLater(inHand, Piece(true, next), now, rest, k, text);
    }
  }

  lemma FillsAtStart(inHand: string, next: string, rest: seq<Piece>, text: string)
    requires BodyFrom(InHand(if inHand == "" then next else inHand, rest), 0, text)
    ensures IsTextBody(InHand(inHand, [Piece(true, next)] + rest), text)
  {
    hide FirstNonEmpty, Texts;
    var now := if inHand == "" then next else inHand;
    var shorter, longer := InHand(now, rest), InHand(inHand, [Piece(true, next)] + rest);
    assert longer[0..] == longer && shorter[0..] == shorter;
    forall i | 1 < i < |longer| ensures longer[i].typed {
      assert longer[i] == shorter[i - 1];
    }
    TextsOfTwo(now, next, rest);
    TextsOfTwo(inHand, next, rest);
    FirstOfThree(inHand, next, Texts(rest));
    assert BodyFrom(longer, 0, text);
  }

  lemma EmptyHandCountsNot(texts: seq<string>)
    ensures FirstNonEmpty([""] + texts) == FirstNonEmpty(texts)
  {
    assert ([""] + texts)[1..] == texts;
  }

  lemma NothingInHand(pieces: seq<Piece>, text: string)
    requires IsTextBody(InHand("", pieces), text)
    ensures IsTextBody(pieces, text)
  {
    hide BodyFrom, InHand;
    var k: nat :| BodyFrom(InHand("", pieces), k, text);
    if k == 0 {
      NothingAtStart(pieces, text);
    } else {
      NothingLater(pieces, k, text);
    }
  }

  lemma NothingAtStart(pieces: seq<Piece>, text: string)
    requires BodyFrom(InHand("", pieces), 0, text)
    ensures IsTextBody(pieces, text)
  {
    hide FirstNonEmpty, Texts;
    var longer := InHand("", pieces);
    TextsOfTwo("", "", pieces);
    EmptyHandCountsNot(Texts(pieces));
    assert longer[0..] == longer && pieces[0..] == pieces;
    forall i | 0 < i < |pieces| ensures pieces[i].typed {
      assert pieces[i] == longer[i + 1];
    }
    assert BodyFrom(pieces, 0, text);
  }

  lemma NothingLater(pieces: seq<Piece>, k: nat, text: string)
    requires k > 0 && BodyFrom(InHand("", pieces), k, text)
    ensures IsTextBody(pieces, text)
  {
    hide FirstNonEmpty, Texts;
    var longer := InHand("", pieces);
    assert pieces[k - 1..] == longer[k..];
    forall i | k - 1 < i < |pieces| ensures pieces[i].typed {
      assert pieces[i] == longer[i + 1];
    }
    assert BodyFrom(pieces, k - 1, text);
  }

  lemma {:induction false} TextIsRead(b: Bodies, leaves: seq<Leaf>)
    requires Readable(leaves)
    ensures IsTextBody(InHand(b.text, PiecesOf(leaves)), Folded(b, leaves).bodies.text)
    decreases leaves
  {
    hide IsTextBody, InHand;
    if leaves == [] {
      OnlyInHand(b.text);
    } else {
      TextIsRead(Absorb(b, leaves[0]), leaves[1..]);
      var rest, text := PiecesOf(leaves[1..]), Folded(b, leaves).bodies.text;
      if leaves[0].RawText? {
        UntypedReplaces(b.text, leaves[0].text, rest, text);
      } else if leaves[0].Plain? {
        TypedFills(b.text, leaves[0].text, rest, text);
      } else {
        assert PiecesOf(leaves) == rest;
      }
    }
  }

  lemma OnlyInHand(text: string)
    ensures IsTextBody(InHand(text, []), text)
  {
    var pieces := [Piece(false, text)];
    assert InHand(text, []) == pieces && pieces[0..] == pieces;
    assert Texts(pieces) == [text] && [text][1..] == [];
    assert BodyFrom(pieces, 0, text);
  }

  /** The walk from nothing: whether it gets to the end, and the bodies it then leaves, read off the tree. */
  ghost predicate BodiesOf(fold: char -> char, e: Entity, walked: Walked) {
    && (walked.ok <==> Whole(fold, e))
    && (walked.ok ==>
          && IsTextBody(Pieces(fold, e), walked.bodies.text)
          && walked.bodies.html == FirstNonEmpty(Payloads(fold, "text/html", e))
          && walked.bodies.attachments == Attached(fold, e))
  }

  lemma WalkReadsTree(fold: char -> char, e: Entity)
    ensures BodiesOf(fold, e, Folded(Bodies("", "", []), Leaves(fold, e)))
  {
    hide Payloads, Attached, Pieces, Whole, IsTextBody;
    var b, leaves := Bodies("", "", []), Leaves(fold, e);
    TreeSays(fold, e);
    if Readable(leaves) {
      HtmlAndAttachments(b, leaves);
      assert ([""] + Htmls(leaves))[1..] == Htmls(leaves);
      TextIsRead(b, leaves);
      NothingInHand(PiecesOf(leaves), Folded(b, leaves).bodies.text);
    } else {
      UnreadableFails(b, leaves);
    }
  }

  lemma {:induction false} UnreadableFails(b: Bodies, leaves: seq<Leaf>)
    requires !Readable(leaves)
    ensures !Folded(b, leaves).ok
    decreases leaves
  {
    if leaves != [] && !leaves[0].Stop? {
      UnreadableFails(Absorb(b, leaves[0]), leaves[1..]);
    }
  }
}
