/** internal/platform/idempotency: index keys hashed from a scope, an owner id and a caller's id. */
module Keys {

  /** digest is the hex form of SHA-256, kept uninterpreted. */
  function ScopedKey(digest: string -> string, scope: string, primary: string, secondary: string): string {
    scope + ":" + digest(scope + ":" + primary + ":" + secondary)
  }

  function InboundMessageKey(digest: string -> string, inboxId: string, header: string): string {
    ScopedKey(digest, "inbound", inboxId, header)
  }

  function ReplySubmissionKey(digest: string -> string, threadId: string, requestId: string): string {
    ScopedKey(digest, "reply", threadId, requestId)
  }

  ghost predicate CollisionFree(digest: string -> string) {
    forall x, y :: digest(x) == digest(y) ==> x == y
  }

  /** q is p, a colon and something more. */
  predicate ExtendsByColon(q: string, p: string) {
    p + ":" <= q
  }

  /** Neither owner id extends the other by a colon; so it is for any two without colons. */
  predicate Apart(p: string, q: string) {
    !ExtendsByColon(p, q) && !ExtendsByColon(q, p)
  }

  lemma ColonFreeAreApart(p: string, q: string)
    requires ':' !in p && ':' !in q
    ensures Apart(p, q)
  {
    assert (p + ":")[|p|] == ':' && (q + ":")[|q|] == ':';
  }

  /** If one text splits at two different colons, the longer head extends the shorter one. */
  lemma SplitAtColon(p: string, s: string, p': string, s': string)
    requires p + ":" + s == p' + ":" + s' && |p| <= |p'|
    ensures if |p| == |p'| then p == p' && s == s' else ExtendsByColon(p', p)
  {
    var whole := p + ":" + s;
    assert whole == p' + ":" + s';
    assert p == whole[..|p|] && p' == whole[..|p'|];
    if |p| == |p'| {
      assert s == whole[|p| + 1..] && s' == whole[|p| + 1..];
    } else {
      assert p + ":" == whole[..|p| + 1] == p'[..|p| + 1];
    }
  }

  /** With a collision-free digest, keys of owner ids that are apart name one pair only. */
  lemma ScopedKeyInjective(digest: string -> string, scope: string, p: string, s: string, p': string, s': string)
    requires CollisionFree(digest) && Apart(p, p')
    ensures ScopedKey(digest, scope, p, s) == ScopedKey(digest, scope, p', s') <==> p == p' && s == s'
  {
    if ScopedKey(digest, scope, p, s) == ScopedKey(digest, scope, p', s') {
      var k, k' := ScopedKey(digest, scope, p, s), ScopedKey(digest, scope, p', s');
      assert k[|scope| + 1..] == digest(scope + ":" + p + ":" + s);
      assert k'[|scope| + 1..] == digest(scope + ":" + p' + ":" + s');
      var x, x' := scope + ":" + p + ":" + s, scope + ":" + p' + ":" + s';
      assert x == x';
      assert x[|scope| + 1..] == p + ":" + s && x'[|scope| + 1..] == p' + ":" + s';
      if |p| <= |p'| {
        SplitAtColon(p, s, p', s');
      } else {
        SplitAtColon(p', s', p, s);
      }
    }
  }

  /** An owner id that extends another by a colon shares keys with it, for any digest. */
  lemma ScopedKeyAmbiguous(digest: string -> string, scope: string, p: string, q: string, s: string)
    ensures ScopedKey(digest, scope, p + ":" + q, s) == ScopedKey(digest, scope, p, q + ":" + s)
    ensures p + ":" + q != p
  {
    assert scope + ":" + (p + ":" + q) + ":" + s == scope + ":" + p + ":" + (q + ":" + s);
    assert |p + ":" + q| > |p|;
  }

  /** No key of these owners stands for two pairs. */
  ghost predicate Unambiguous(digest: string -> string, scope: string, owners: set<string>) {
    forall p, p', s, s' ::
      p in owners && p' in owners && ScopedKey(digest, scope, p, s) == ScopedKey(digest, scope, p', s') ==>
        p == p' && s == s'
  }

  /** With a collision-free digest, that is so exactly when no owner id extends another by a colon. */
  lemma UnambiguousExactly(digest: string -> string, scope: string, owners: set<string>)
    requires CollisionFree(digest)
    ensures Unambiguous(digest, scope, owners)
       <==> forall p, q :: p in owners && q in owners ==> !ExtendsByColon(q, p)
  {
    if p, q :| p in owners && q in owners && ExtendsByColon(q, p) {
      var rest := q[|p| + 1..];
      assert q == p + ":" + rest;
      ScopedKeyAmbiguous(digest, scope, p, rest, "");
      assert !Unambiguous(digest, scope, owners);
    } else {
      forall p, p', s, s' | p in owners && p' in owners
        && ScopedKey(digest, scope, p, s) == ScopedKey(digest, scope, p', s')
        ensures p == p' && s == s'
      {
        ScopedKeyInjective(digest, scope, p, s, p', s');
      }
    }
  }
}
