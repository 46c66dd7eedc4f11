/** Record encoding v3: digest preimages, the record line, and what each determines. */
module Encoding {
  import opened Common
  import opened Unicode
  import opened Json
  import opened Canonical
  import opened Nesting

  // ---- fixed-width and length-prefixed fields ----

  function Pow256(w: nat): nat { if w == 0 then 1 else 256 * Pow256(w - 1) }

  /** n as w big-endian bytes. */
  function BigEndian(n: nat, w: nat): (r: Bytes)
    ensures |r| == w
  {
    if w == 0 then [] else BigEndian(n / 256, w - 1) + [n % 256]
  }

  lemma {:induction false} BigEndianInjective(m: nat, n: nat, w: nat)
    requires m < Pow256(w) && n < Pow256(w) && BigEndian(m, w) == BigEndian(n, w)
    ensures m == n
  {
    if w > 0 {
      var a, b := BigEndian(m, w), BigEndian(n, w);
      assert a[w - 1] == b[w - 1];
      assert a[..w - 1] == BigEndian(m / 256, w - 1) && b[..w - 1] == BigEndian(n / 256, w - 1);
      BigEndianInjective(m / 256, n / 256, w - 1);
    }
  }

  const FIELD_LIMIT: nat := 0x1_0000_0000

  function Lp(b: Bytes): Bytes {
    BigEndian(|b|, 4) + b
  }

  function U64(n: nat): (r: Bytes)
    ensures |r| == 8
  {
    BigEndian(n, 8)
  }

  lemma Cancel(a: Bytes, x: Bytes, b: Bytes, y: Bytes)
    requires |a| == |b| && a + x == b + y
    ensures a == b && x == y
  {
    assert a == (a + x)[..|a|] && x == (a + x)[|a|..];
    assert b == (b + y)[..|b|] && y == (b + y)[|b|..];
  }

  /** A length-prefixed field ends where its length says: what follows cannot shift into it. */
  lemma LpCancel(a: Bytes, x: Bytes, b: Bytes, y: Bytes)
    requires |a| < FIELD_LIMIT && |b| < FIELD_LIMIT
    requires Lp(a) + x == Lp(b) + y
    ensures a == b && x == y
  {
    Regroup3(BigEndian(|a|, 4), a, x);
    Regroup3(BigEndian(|b|, 4), b, y);
    Cancel(BigEndian(|a|, 4), a + x, BigEndian(|b|, 4), b + y);
    assert Pow256(4) == 256 * Pow256(3) == 256 * 256 * Pow256(2) == 256 * 256 * 256 * Pow256(1);
    BigEndianInjective(|a|, |b|, 4);
    Cancel(a, x, b, y);
  }

  lemma U64Injective(m: nat, n: nat)
    requires m <= MAX_SAFE && n <= MAX_SAFE && U64(m) == U64(n)
    ensures m == n
  {
    assert Pow256(8) == 256 * Pow256(7) == 256 * 256 * Pow256(6) == 256 * 256 * 256 * Pow256(5);
    assert Pow256(5) == 256 * Pow256(4) == 256 * 256 * Pow256(3) == 256 * 256 * 256 * Pow256(2);
    BigEndianInjective(m, n, 8);
  }

  // ---- the record ----

  /** `fields` are the ten string fields, in the order they are hashed. */
  datatype Record = Record(
    seqNo: nat, timestamp: nat, fields: seq<Str>, payload: Option<Js>, metadata: Option<Js>, prev: Digest)

  const EVENT_TYPE: nat := 0
  const CORRELATION_ID: nat := 1
  const DEVICE_FINGERPRINT: nat := 2
  const SESSION_HANDLE: nat := 3
  const PAYLOAD_DIGEST: nat := 4
  const SUBJECT_ID: nat := 5
  const OPERATION_CLASS: nat := 6
  const TARGET_HASH: nat := 7
  const CLASSIFICATION: nat := 8
  const REASON_CODE: nat := 9

  function Zeros(n: nat): (r: Bytes)
    ensures |r| == n && forall i :: 0 <= i < n ==> r[i] == 0
  {
    if n == 0 then [] else Zeros(n - 1) + [0]
  }

  const GENESIS: Digest := Zeros(32)

  function RecordDomain(): Str { Ascii("xsoc-aida-guard:providence-record:v3") }

  function HeadDomain(): Str { Ascii("xsoc-aida-guard:providence-head:v1") }

  function AnchorDomain(): Str { Ascii("xsoc-aida-guard:providence-anchor:v1") }

  function EventTypes(): seq<Str> {
    [Ascii("admit"), Ascii("deny"), Ascii("invoke"), Ascii("invoke_refused"), Ascii("revoke"),
     Ascii("continuity_fail"), Ascii("envelope_rejected"), Ascii("replay_fail"), Ascii("scope_fail"),
     Ascii("target_mismatch"), Ascii("admin_attempt"), Ascii("tool_block"), Ascii("intent_drift"),
     Ascii("classification_violation"), Ascii("mcp_block"), Ascii("mcp_tainted"), Ascii("skill_unsigned"),
     Ascii("skill_blocked"), Ascii("policy_bundle_loaded"), Ascii("policy_bundle_rejected"),
     Ascii("dual_control_requested"), Ascii("dual_control_granted"), Ascii("dual_control_denied"),
     Ascii("mode_a_inference"), Ascii("mode_c_decryption"), Ascii("profile_escalated"),
     Ascii("profile_deescalated"), Ascii("endpoint_attestation_fail")]
  }

  predicate LowerHex(u: Unit) { Digit(u) || 97 <= u <= 102 }

  predicate Hex64(s: Str) { |s| == 64 && forall u :: u in s ==> LowerHex(u) }

  predicate Hex64OrEmpty(s: Str) { s == [] || Hex64(s) }

  predicate IsDecision(v: Js) {
    v.Obj? && |v.members| == 2
    && (match (Get(v.members, Ascii("check")), Get(v.members, Ascii("result")))
        case (Some(a), Some(b)) => a.Text? && b.Text?
        case _ => false)
  }

  /** The typed payload: only these four members, each of its type. */
  predicate PayloadShape(v: Js) {
    v.Obj? && forall m | m in v.members ::
      || (m.key == Ascii("decision_vector") && m.value.Arr? && forall d | d in m.value.items :: IsDecision(d))
      || (m.key == Ascii("argument_digest") && m.value.Text? && Hex64(m.value.s))
      || (m.key == Ascii("ancestor_hashes") && m.value.Arr? && forall d | d in m.value.items :: d.Text? && Hex64(d.s))
      || (m.key == Ascii("matched_grant_index") && m.value.Num? && m.value.n >= 0)
  }

  /** What the record schema accepts. */
  predicate Valid(r: Record) {
    && r.seqNo <= MAX_SAFE && r.timestamp <= MAX_SAFE
    && |r.fields| == 10
    && r.fields[EVENT_TYPE] in EventTypes()
    && Hex64OrEmpty(r.fields[DEVICE_FINGERPRINT])
    && Hex64OrEmpty(r.fields[SESSION_HANDLE])
    && Hex64OrEmpty(r.fields[PAYLOAD_DIGEST])
    && (r.payload.Some? ==> PayloadShape(r.payload.value))
    && (r.metadata.Some? ==> r.metadata.value.Obj?)
  }

  // ---- digests ----

  function Blob(v: Option<Js>): Bytes {
    match v
    case None => []
    case Some(x) => match Jcs(x) case Some(t) => Utf8(t) case None => []
  }

  predicate BlobEncodes(v: Option<Js>) {
    (v.Some? ==> Jcs(v.value).Some?) && |Blob(v)| < FIELD_LIMIT
  }

  predicate FieldEncodes(s: Str) {
    WellFormed(s) && |Utf8(s)| < FIELD_LIMIT
  }

  /** The digest computes: every string is well-formed, every blob canonical, every field in range. */
  predicate Digestible(r: Record) {
    && r.seqNo <= MAX_SAFE && r.timestamp <= MAX_SAFE
    && |r.fields| == 10
    && (forall s | s in r.fields :: FieldEncodes(s))
    && BlobEncodes(r.payload) && BlobEncodes(r.metadata)
  }

  function FieldBytes(fields: seq<Str>): Bytes {
    if fields == [] then [] else Lp(Utf8(fields[0])) + FieldBytes(fields[1..])
  }

  function Prefix(): Bytes { Lp(Utf8(RecordDomain())) + BigEndian(2, 2) }

  function Preimage(r: Record): Bytes {
    Prefix() + (U64(r.seqNo) + (U64(r.timestamp)
    + (FieldBytes(r.fields) + (Lp(Blob(r.payload)) + (Lp(Blob(r.metadata)) + r.prev)))))
  }

  predicate SameBlob(v: Option<Js>, w: Option<Js>) {
    match (v, w)
    case (Some(x), Some(y)) => Same(x, y)
    case _ => v == w
  }

  /** The same record: field by field, with the two JSON objects compared as values. */
  predicate SameRecord(r: Record, s: Record) {
    && r.seqNo == s.seqNo && r.timestamp == s.timestamp && r.fields == s.fields && r.prev == s.prev
    && SameBlob(r.payload, s.payload) && SameBlob(r.metadata, s.metadata)
  }

  lemma JcsText(v: Js)
    requires Jcs(v).Some?
    ensures Encodable(v) && Clean(Jcs(v).value) && Jcs(v).value != []
  {
    JcsExactly(v);
    CanonicalJsonPrints(v);
    PrintClean(Canon(v));
    FirstUnit(Canon(v));
  }

  lemma {:induction false} Utf8NonEmpty(s: Str)
    requires s != []
    ensures Utf8(s) != []
  {
  }

  /** Null and an empty object differ, and equal bytes mean the same value. */
  lemma BlobDecidesSame(v: Option<Js>, w: Option<Js>)
    requires BlobEncodes(v) && BlobEncodes(w)
    ensures Blob(v) == Blob(w) <==> SameBlob(v, w)
  {
    if v.Some? { JcsText(v.value); Utf8NonEmpty(Jcs(v.value).value); }
    if w.Some? { JcsText(w.value); Utf8NonEmpty(Jcs(w.value).value); }
    if v.Some? && w.Some? {
      JcsDecidesSame(v.value, w.value);
      Utf8EqualExactly(Jcs(v.value).value, Jcs(w.value).value);
      WellFormedExactly(Jcs(v.value).value);
      WellFormedExactly(Jcs(w.value).value);
    }
  }

  lemma {:induction false} FieldsCancel(fs: seq<Str>, x: Bytes, gs: seq<Str>, y: Bytes)
    requires |fs| == |gs| && FieldBytes(fs) + x == FieldBytes(gs) + y
    requires (forall s | s in fs :: FieldEncodes(s)) && forall s | s in gs :: FieldEncodes(s)
    ensures fs == gs && x == y
  {
    if fs == [] {
      assert FieldBytes(fs) + x == x && FieldBytes(gs) + y == y;
    } else {
      var a, b := Utf8(fs[0]), Utf8(gs[0]);
      assert FieldEncodes(fs[0]) && FieldEncodes(gs[0]);
      assert (forall s | s in fs[1..] :: s in fs) && forall s | s in gs[1..] :: s in gs;
      Regroup3(Lp(a), FieldBytes(fs[1..]), x);
      Regroup3(Lp(b), FieldBytes(gs[1..]), y);
      LpCancel(a, FieldBytes(fs[1..]) + x, b, FieldBytes(gs[1..]) + y);
      Utf8Injective(fs[0], gs[0]);
      FieldsCancel(fs[1..], x, gs[1..], y);
      assert fs == [fs[0]] + fs[1..] && gs == [gs[0]] + gs[1..];
    }
  }

  /** Two records have equal preimages exactly when they are the same record. */
  lemma PreimageDecidesRecord(r: Record, s: Record)
    requires Digestible(r) && Digestible(s)
    ensures Preimage(r) == Preimage(s) <==> SameRecord(r, s)
  {
    BlobDecidesSame(r.payload, s.payload);
    BlobDecidesSame(r.metadata, s.metadata);
    if Preimage(r) == Preimage(s) {
      PreimageParts(r, s);
    }
  }

  lemma PreimageParts(r: Record, s: Record)
    requires Digestible(r) && Digestible(s) && Preimage(r) == Preimage(s)
    ensures r.seqNo == s.seqNo && r.timestamp == s.timestamp && r.fields == s.fields && r.prev == s.prev
    ensures Blob(r.payload) == Blob(s.payload) && Blob(r.metadata) == Blob(s.metadata)
  {
    var r5, s5 := Lp(Blob(r.metadata)) + r.prev, Lp(Blob(s.metadata)) + s.prev;
    var r4, s4 := Lp(Blob(r.payload)) + r5, Lp(Blob(s.payload)) + s5;
    var r3, s3 := FieldBytes(r.fields) + r4, FieldBytes(s.fields) + s4;
    var r2, s2 := U64(r.timestamp) + r3, U64(s.timestamp) + s3;
    Cancel(Prefix(), U64(r.seqNo) + r2, Prefix(), U64(s.seqNo) + s2);
    Cancel(U64(r.seqNo), r2, U64(s.seqNo), s2);
    Cancel(U64(r.timestamp), r3, U64(s.timestamp), s3);
    U64Injective(r.seqNo, s.seqNo);
    U64Injective(r.timestamp, s.timestamp);
    FieldsCancel(r.fields, r4, s.fields, s4);
    LpCancel(Blob(r.payload), r5, Blob(s.payload), s5);
    LpCancel(Blob(r.metadata), r.prev, Blob(s.metadata), s.prev);
  }

  // ---- the head commitment and the anchor message ----

  function HeadPreimage(seqNo: nat, digest: Digest, chainId: Str): Bytes {
    Lp(Utf8(HeadDomain())) + (U64(seqNo) + (digest + Lp(Utf8(chainId))))
  }

  function AnchorPreimage(commitment: Digest, timestamp: nat, algorithm: Str, keyId: Str, publicKey: Bytes): Bytes {
    Lp(Utf8(AnchorDomain()))
    + (commitment + (U64(timestamp) + (Lp(Utf8(algorithm)) + (Lp(Utf8(keyId)) + Lp(publicKey)))))
  }

  /** What a head commitment's preimage fixes: the position, the digest, and the chain id as far as
      UTF-8 can tell, because the chain id is not checked for lone surrogates. */
  lemma HeadPreimageExactly(m: nat, d: Digest, a: Str, n: nat, e: Digest, b: Str)
    requires m <= MAX_SAFE && n <= MAX_SAFE && |Utf8(a)| < FIELD_LIMIT && |Utf8(b)| < FIELD_LIMIT
    ensures HeadPreimage(m, d, a) == HeadPreimage(n, e, b)
       <==> m == n && d == e && ToWellFormed(a) == ToWellFormed(b)
  {
    Utf8EqualExactly(a, b);
    if HeadPreimage(m, d, a) == HeadPreimage(n, e, b) {
      var x, y := DigestAndId(d, a), DigestAndId(e, b);
      var p := Lp(Utf8(HeadDomain()));
      Cancel(p, U64(m) + x, p, U64(n) + y);
      Cancel(U64(m), x, U64(n), y);
      U64Injective(m, n);
      Cancel(d, Lp(Utf8(a)), e, Lp(Utf8(b)));
      LpCancel(Utf8(a), [], Utf8(b), []);
    }
  }

  function DigestAndId(d: Digest, a: Str): Bytes { d + Lp(Utf8(a)) }

  /** White space as a JavaScript pattern's `\s` sees it. */
  predicate Space(u: Unit) {
    || 9 <= u <= 13 || u == 0x20 || u == 0xA0 || u == 0x1680 || 0x2000 <= u <= 0x200A
    || u == 0x2028 || u == 0x2029 || u == 0x202F || u == 0x205F || u == 0x3000 || u == 0xFEFF
  }

  function IdPrefix(): Str { Ascii("aida-guard/") }

  /** The pattern a chain id must match: `aida-guard/` and then anything without white space. */
  predicate ChainIdOk(s: Str) {
    IdPrefix() <= s && |s| > |IdPrefix()| && forall u :: u in s[|IdPrefix()|..] ==> !Space(u)
  }

  /** Two different chain ids with one commitment: the writer's own pattern accepts both. */
  lemma ChainIdsCollide(seqNo: nat, digest: Digest)
    ensures var a, b := IdPrefix() + [0xD800], IdPrefix() + [0xDC00];
            && a != b && ChainIdOk(a) && ChainIdOk(b)
            && HeadPreimage(seqNo, digest, a) == HeadPreimage(seqNo, digest, b)
  {
    var p := IdPrefix();
    var a, b := p + [0xD800], p + [0xDC00];
    assert a[|p|..] == [0xD800] && b[|p|..] == [0xDC00];
    assert a[|p|] != b[|p|];
    LoneEnding(p, 0xD800);
    LoneEnding(p, 0xDC00);
    Utf8EqualExactly(a, b);
  }

  lemma {:induction false} LoneEnding(p: Str, u: Unit)
    requires (forall x :: x in p ==> x < 0x80) && (High(u) || Low(u))
    ensures ToWellFormed(p + [u]) == p + [0xFFFD]
  {
    var s := p + [u];
    if p == [] {
      assert s[1..] == [];
    } else {
      assert s[0] == p[0] && p[0] in p;
      assert s[1..] == p[1..] + [u];
      assert forall x :: x in p[1..] ==> x in p;
      LoneEnding(p[1..], u);
      assert p == [p[0]] + p[1..];
    }
  }

  /** An anchor message's preimage fixes the commitment, the time, the algorithm and the key. */
  lemma AnchorPreimageFixes(c: Digest, t: nat, alg: Str, key: Str, pk: Bytes,
                            c': Digest, t': nat, alg': Str, key': Str, pk': Bytes)
    requires t <= MAX_SAFE && t' <= MAX_SAFE && |pk| < FIELD_LIMIT && |pk'| < FIELD_LIMIT
    requires FieldEncodes(alg) && FieldEncodes(key) && FieldEncodes(alg') && FieldEncodes(key')
    requires AnchorPreimage(c, t, alg, key, pk) == AnchorPreimage(c', t', alg', key', pk')
    ensures c == c' && t == t' && alg == alg' && key == key' && pk == pk'
  {
    var p := Lp(Utf8(AnchorDomain()));
    var k1, k2 := Lp(Utf8(key)) + Lp(pk), Lp(Utf8(key')) + Lp(pk');
    var a1, a2 := Lp(Utf8(alg)) + k1, Lp(Utf8(alg')) + k2;
    Cancel(p, c + (U64(t) + a1), p, c' + (U64(t') + a2));
    Cancel(c, U64(t) + a1, c', U64(t') + a2);
    Cancel(U64(t), a1, U64(t'), a2);
    U64Injective(t, t');
    LpCancel(Utf8(alg), k1, Utf8(alg'), k2);
    LpCancel(Utf8(key), Lp(pk), Utf8(key'), Lp(pk'));
    LpCancel(pk, [], pk', []);
    Utf8Injective(alg, alg');
    Utf8Injective(key, key');
  }

  // ---- hashing step by step ----

  /** `createHash('sha256')`: bytes are fed in pieces and hashed once. */
  class Hasher {
    var fed: Bytes

    constructor ()
      ensures fed == []
    {
      fed := [];
    }

    method Update(b: Bytes)
      modifies this
      ensures fed == old(fed) + b
    {
      fed := fed + b;
    }

    /** `lp`: false is the RangeError of a length that does not fit 32 bits. */
    method Field(b: Bytes) returns (ok: bool)
      modifies this
      ensures ok == (|b| < FIELD_LIMIT)
      ensures ok ==> fed == old(fed) + Lp(b)
    {
      ok := |b| < FIELD_LIMIT;
      if ok {
        Update(BigEndian(|b|, 4));
        Update(b);
        Regroup3(old(fed), BigEndian(|b|, 4), b);
      }
    }
  }

  lemma {:induction false} FieldBytesAppend(fields: seq<Str>, s: Str)
    ensures FieldBytes(fields + [s]) == FieldBytes(fields) + Lp(Utf8(s))
  {
    var t := fields + [s];
    if fields == [] {
      assert t[1..] == [];
    } else {
      assert t[1..] == fields[1..] + [s];
      FieldBytesAppend(fields[1..], s);
      Regroup3(Lp(Utf8(fields[0])), FieldBytes(fields[1..]), Lp(Utf8(s)));
    }
  }

  /** The loop over the string fields. */
  method FeedFields(h: Hasher, fields: seq<Str>) returns (ok: bool)
    modifies h
    ensures ok == forall s | s in fields :: FieldEncodes(s)
    ensures ok ==> h.fed == old(h.fed) + FieldBytes(fields)
  {
    var i := 0;
    while i < |fields|
      invariant 0 <= i <= |fields|
      invariant h.fed == old(h.fed) + FieldBytes(fields[..i])
      invariant forall k :: 0 <= k < i ==> FieldEncodes(fields[k])
    {
      var s := fields[i];
      assert s in fields;
      if !WellFormed(s) { return false; }
      ok := h.Field(Utf8(s));
      if !ok { return; }
      FieldBytesAppend(fields[..i], s);
      assert fields[..i + 1] == fields[..i] + [s];
      Regroup3(old(h.fed), FieldBytes(fields[..i]), Lp(Utf8(s)));
      i := i + 1;
    }
    assert fields[..|fields|] == fields;
    ok := true;
  }

  /** One blob, refused when it has no canonical form. */
  method FeedBlob(h: Hasher, v: Option<Js>) returns (ok: bool)
    modifies h
    ensures ok == BlobEncodes(v)
    ensures ok ==> h.fed == old(h.fed) + Lp(Blob(v))
  {
    if v.Some? && Jcs(v.value).None? { return false; }
    ok := h.Field(Blob(v));
  }

  lemma PreimageInOrder(r: Record)
    ensures Preimage(r) == Prefix() + U64(r.seqNo) + U64(r.timestamp) + FieldBytes(r.fields)
                           + Lp(Blob(r.payload)) + Lp(Blob(r.metadata)) + r.prev
  {
    var a, b, c := U64(r.seqNo), U64(r.timestamp), FieldBytes(r.fields);
    var d, e, f := Lp(Blob(r.payload)), Lp(Blob(r.metadata)), r.prev;
    Regroup(Prefix() + a + b + c, d, e, f);
    Regroup(Prefix() + a, b, c, d + (e + f));
    Regroup3(Prefix(), a, b + (c + (d + (e + f))));
  }

  /** `recordDigest`; None is a thrown error. */
  method RecordDigest(r: Record, H: Bytes -> Digest) returns (digest: Option<Digest>)
    requires |r.fields| == 10
    ensures digest == if Digestible(r) then Some(H(Preimage(r))) else None
  {
    var h := new Hasher();
    var ok := FeedPosition(h, r.seqNo, r.timestamp);
    if !ok { return None; }
    ok := FeedFields(h, r.fields);
    if !ok { return None; }
    ok := FeedBlob(h, r.payload);
    if !ok { return None; }
    ok := FeedBlob(h, r.metadata);
    if !ok { return None; }
    h.Update(r.prev);
    PreimageInOrder(r);
    digest := Some(H(h.fed));
  }

  /** The domain, the kind, and the two integers, which must be safe. */
  method FeedPosition(h: Hasher, seqNo: nat, timestamp: nat) returns (ok: bool)
    requires h.fed == []
    modifies h
    ensures ok == (seqNo <= MAX_SAFE && timestamp <= MAX_SAFE)
    ensures ok ==> h.fed == Prefix() + U64(seqNo) + U64(timestamp)
  {
    DomainsFit();
    ok := h.Field(Utf8(RecordDomain()));
    h.Update(BigEndian(2, 2));
    assert h.fed == Prefix();
    if seqNo > MAX_SAFE || timestamp > MAX_SAFE { return false; }
    h.Update(U64(seqNo));
    h.Update(U64(timestamp));
    ok := true;
  }

  /** `headCommitment` of a position the writer holds. */
  method HeadCommitment(seqNo: nat, digest: Digest, chainId: Str, H: Bytes -> Digest) returns (c: Option<Digest>)
    ensures c == if seqNo <= MAX_SAFE && |Utf8(chainId)| < FIELD_LIMIT
                 then Some(H(HeadPreimage(seqNo, digest, chainId))) else None
  {
    DomainsFit();
    var h := new Hasher();
    var ok := h.Field(Utf8(HeadDomain()));
    assert h.fed == Lp(Utf8(HeadDomain()));
    if seqNo > MAX_SAFE { return None; }
    h.Update(U64(seqNo));
    h.Update(digest);
    ok := h.Field(Utf8(chainId));
    if !ok { return None; }
    Regroup(Lp(Utf8(HeadDomain())), U64(seqNo), digest, Lp(Utf8(chainId)));
    c := Some(H(h.fed));
  }

  lemma DomainsFit()
    ensures |Utf8(RecordDomain())| < FIELD_LIMIT && |Utf8(HeadDomain())| < FIELD_LIMIT
    ensures |Utf8(AnchorDomain())| < FIELD_LIMIT
  {
    Utf8Length(RecordDomain());
    Utf8Length(HeadDomain());
    Utf8Length(AnchorDomain());
  }

  // ---- the record line ----

  function Get(ms: seq<Member<Js>>, key: Str): Option<Js> {
    if ms == [] then None else if ms[0].key == key then Some(ms[0].value) else Get(ms[1..], key)
  }

  lemma {:induction false} GetAt(ms: seq<Member<Js>>, i: nat)
    requires i < |ms| && DistinctKeys(ms)
    ensures Get(ms, ms[i].key) == Some(ms[i].value)
  {
    if i > 0 {
      GetAt(ms[1..], i - 1);
    }
  }

  /** The keys of a line, in order. */
  function Keys(): seq<Str> {
    [Ascii("domain"), Ascii("kind"), Ascii("seq"), Ascii("timestamp_ms"),
     Ascii("event_type"), Ascii("correlation_id"), Ascii("device_fingerprint"), Ascii("session_handle"),
     Ascii("payload_digest"), Ascii("subject_id"), Ascii("operation_class"), Ascii("target_hash"),
     Ascii("classification"), Ascii("reason_code"), Ascii("payload"), Ascii("metadata"), Ascii("prev_digest")]
  }

  lemma KeysDistinct()
    ensures forall i, j :: 0 <= i < j < 17 ==> Keys()[i] != Keys()[j]
  {
    forall i, j | 0 <= i < j < 17 ensures Keys()[i] != Keys()[j] {
      if |Keys()[i]| == |Keys()[j]| {
        assert Keys()[i][0] != Keys()[j][0] || Keys()[i][1] != Keys()[j][1];
      }
    }
  }

  function HexText(d: Bytes): Str {
    if d == [] then [] else [Hex(d[0] / 16), Hex(d[0] % 16)] + HexText(d[1..])
  }

  function HexBytes(s: Str): Option<Bytes> {
    if s == [] then Some([])
    else if |s| == 1 || !LowerHex(s[0]) || !LowerHex(s[1]) then None
    else match (Unhex(s[0]), Unhex(s[1]), HexBytes(s[2..]))
         case (Some(a), Some(b), Some(rest)) => if 0 <= a < 16 && 0 <= b < 16 then Some([a * 16 + b] + rest) else None
         case _ => None
  }

  lemma {:induction false} HexRoundTrip(d: Bytes)
    ensures HexBytes(HexText(d)) == Some(d)
  {
    if d != [] {
      HexRoundTrip(d[1..]);
      assert HexText(d)[2..] == HexText(d[1..]);
      assert d == [d[0]] + d[1..];
    }
  }

  function OrNull(v: Option<Js>): Js {
    match v case None => Null case Some(x) => x
  }

  function RecordValues(r: Record): (vs: seq<Js>)
    requires |r.fields| == 10 && r.seqNo <= MAX_SAFE && r.timestamp <= MAX_SAFE
    ensures |vs| == 17
  {
    [Text(RecordDomain()), Num(2), Num(r.seqNo), Num(r.timestamp)]
    + seq(10, i requires 0 <= i < 10 => Text(r.fields[i]))
    + [OrNull(r.payload), OrNull(r.metadata), Text(HexText(r.prev))]
  }

  /** The object a line holds: exactly these members, in this order. */
  function RecordJson(r: Record): Js
    requires |r.fields| == 10 && r.seqNo <= MAX_SAFE && r.timestamp <= MAX_SAFE
  {
    Obj(seq(17, i requires 0 <= i < 17 => Member(Keys()[i], RecordValues(r)[i])))
  }

  predicate Lineable(r: Record) {
    && |r.fields| == 10 && r.seqNo <= MAX_SAFE && r.timestamp <= MAX_SAFE
    && (r.payload.Some? ==> Encodable(r.payload.value)) && (r.metadata.Some? ==> Encodable(r.metadata.value))
  }

  lemma RecordJsonData(r: Record)
    requires Lineable(r)
    ensures Data(RecordJson(r))
  {
    KeysDistinct();
    if r.payload.Some? { EncodableIsData(r.payload.value); }
    if r.metadata.Some? { EncodableIsData(r.metadata.value); }
    var ms := RecordJson(r).members;
    forall m | m in ms ensures Data(m.value) {
      var i :| 0 <= i < 17 && m == ms[i];
      assert m.value == RecordValues(r)[i];
    }
  }

  /** `recordLine` as bytes, without the newline. */
  function Line(r: Record): Bytes
    requires Lineable(r)
  {
    RecordJsonData(r);
    Utf8(Print(RecordJson(r)))
  }

  function Field(v: Js, k: nat): Option<Js>
    requires k < 17 && v.Obj?
  {
    Get(v.members, Keys()[k])
  }

  function TextField(v: Js, k: nat): Option<Str>
    requires k < 17 && v.Obj?
  {
    match Field(v, k) case Some(Text(s)) => Some(s) case _ => None
  }

  function OptionField(v: Js, k: nat): Option<Option<Js>>
    requires k < 17 && v.Obj?
  {
    match Field(v, k) case Some(Null) => Some(None) case Some(x) => Some(Some(x)) case None => None
  }

  predicate StringFieldsPresent(v: Js)
    requires v.Obj?
  {
    forall k :: 4 <= k < 14 ==> TextField(v, k).Some?
  }

  function StringFields(v: Js): (fs: seq<Str>)
    requires v.Obj? && StringFieldsPresent(v)
    ensures |fs| == 10 && forall i :: 0 <= i < 10 ==> TextField(v, i + 4) == Some(fs[i])
  {
    seq(10, i requires 0 <= i < 10 => TextField(v, i + 4).value)
  }

  /** `ProvidenceRecord.parse`: every key present, no other key, every value as the schema says. */
  function RecordOf(v: Js): (r: Option<Record>)
    ensures r.Some? ==> Valid(r.value)
  {
    if !v.Obj? || |v.members| != 17 then None
    else if TextField(v, 0) != Some(RecordDomain()) || Field(v, 1) != Some(Num(2)) then None
    else if !StringFieldsPresent(v) then None
    else
      match (Field(v, 2), Field(v, 3), OptionField(v, 14), OptionField(v, 15), TextField(v, 16))
      case (Some(Num(s)), Some(Num(t)), Some(payload), Some(metadata), Some(prev)) =>
        (match HexBytes(prev)
         case Some(d) =>
           if s < 0 || t < 0 || |d| != 32 then None
           else
             var r := Record(s, t, StringFields(v), payload, metadata, d);
             if Valid(r) then Some(r) else None
         case None => None)
      case _ => None
  }

  function ParseLine(b: Bytes): (r: Option<Record>)
    ensures r.Some? ==> Valid(r.value)
  {
    match Parse(FromUtf8(b))
    case Some(v) => RecordOf(v)
    case None => None
  }

  lemma RecordJsonFields(r: Record, k: nat)
    requires Lineable(r) && k < 17
    ensures Field(RecordJson(r), k) == Some(RecordValues(r)[k])
  {
    RecordJsonData(r);
    GetAt(RecordJson(r).members, k);
  }

  lemma StringFieldsAre(v: Js, fields: seq<Str>)
    requires v.Obj? && |fields| == 10
    requires forall i | 0 <= i < 10 :: Field(v, i + 4) == Some(Text(fields[i]))
    ensures StringFieldsPresent(v) && StringFields(v) == fields
  {
    forall k | 4 <= k < 14 ensures TextField(v, k) == Some(fields[k - 4]) {
      assert Field(v, (k - 4) + 4) == Some(Text(fields[k - 4]));
    }
    assert fields == StringFields(v);
  }

  lemma RecordOfFields(v: Js, r: Record)
    requires Valid(r) && v.Obj? && |v.members| == 17
    requires TextField(v, 0) == Some(RecordDomain()) && Field(v, 1) == Some(Num(2))
    requires Field(v, 2) == Some(Num(r.seqNo)) && Field(v, 3) == Some(Num(r.timestamp))
    requires StringFieldsPresent(v) && StringFields(v) == r.fields
    requires OptionField(v, 14) == Some(r.payload) && OptionField(v, 15) == Some(r.metadata)
    requires TextField(v, 16) == Some(HexText(r.prev))
    ensures RecordOf(v) == Some(r)
  {
    HexRoundTrip(r.prev);
  }

  lemma StringsOfJson(r: Record)
    requires Lineable(r)
    ensures StringFieldsPresent(RecordJson(r)) && StringFields(RecordJson(r)) == r.fields
  {
    forall i | 0 <= i < 10 ensures Field(RecordJson(r), i + 4) == Some(Text(r.fields[i])) {
      RecordJsonFields(r, i + 4);
    }
    StringFieldsAre(RecordJson(r), r.fields);
  }

  lemma RecordOfJson(r: Record)
    requires Lineable(r) && Valid(r)
    ensures RecordOf(RecordJson(r)) == Some(r)
  {
    var v, vs := RecordJson(r), RecordValues(r);
    StringsOfJson(r);
    RecordJsonFields(r, 0);
    RecordJsonFields(r, 1);
    RecordJsonFields(r, 2);
    RecordJsonFields(r, 3);
    RecordJsonFields(r, 14);
    RecordJsonFields(r, 15);
    RecordJsonFields(r, 16);
    assert vs[14] == OrNull(r.payload) && vs[15] == OrNull(r.metadata) && vs[16] == Text(HexText(r.prev));
    RecordOfFields(v, r);
  }

  /** A line is one line, and parsing it gives the record back. */
  lemma LineRoundTrip(r: Record)
    requires Lineable(r) && Valid(r)
    ensures NEWLINE !in Line(r) && Line(r) != []
    ensures ParseLine(Line(r)) == Some(r)
  {
    RecordJsonData(r);
    var v := RecordJson(r);
    var t := Print(v);
    PrintClean(v);
    FirstUnit(v);
    Utf8Newline(t);
    Utf8NonEmpty(t);
    Utf8Decodes(t);
    WellFormedExactly(t);
    ParseInvertsPrint(v);
    RecordOfJson(r);
  }

  lemma FirstKeyPlain()
    ensures var k := Keys()[0]; k != [] && k[0] == 100 && !Pair(k) && !Lone(k)
  {
  }

  /** A record's text opens an object whose first key starts with a letter. */
  lemma LineOpens(r: Record)
    requires Lineable(r)
    ensures Data(RecordJson(r))
    ensures var t := Print(RecordJson(r));
            |t| >= 3 && t[0] == LBRACE && t[1] == QUOTE && 97 <= t[2] <= 122
  {
    RecordJsonData(r);
    var ms := RecordJson(r).members;
    FirstKeyPlain();
    LetterOpens(ms[0].key);
    KeyFirst(ms);
    assert Print(RecordJson(r)) == [LBRACE] + PrintMembers(ms) + [RBRACE];
  }

  lemma LetterOpens(k: Str)
    requires k != [] && 97 <= k[0] <= 122 && !Pair(k) && !Lone(k)
    ensures |Quoted(k)| >= 2 && Quoted(k)[0] == QUOTE && Quoted(k)[1] == k[0]
  {
    assert Chars(k) != [] && Chars(k)[0] == k[0];
  }

  lemma KeyFirst(ms: seq<Member<Js>>)
    requires ms != [] && forall m | m in ms :: Data(m.value)
    ensures Quoted(ms[0].key) <= PrintMembers(ms)
  {
    assert ms[0] in ms;
  }

  /** A line whose newline never came, and any text that opens an object, runs into no line that follows it. */
  lemma LinesNeverMerge(q: Bytes, r: Record)
    requires Lineable(r) && Valid(r) && q != [] && q[0] == LBRACE
    ensures Line(r) != [] && Line(r)[0] == LBRACE
    ensures ParseLine(q + Line(r)).None?
  {
    LineOpens(r);
    var v := RecordJson(r);
    var t := Print(v);
    PrintClean(v);
    WellFormedExactly(t);
    Utf8Decodes(t);
    ParseInvertsPrint(v);
    assert Utf8(t)[0] == LBRACE;
    DecodesApart(q, Utf8(t));
    MergedIsNoJson(FromUtf8(q), t);
  }

  // ---- where a line is read ----

  function UpTo(n: nat): (s: set<nat>)
    ensures |s| == n && forall k :: k in s <==> 1 <= k <= n
  {
    if n == 0 then {} else UpTo(n - 1) + {n}
  }

  function Among(pos: seq<nat>): (s: set<nat>)
    ensures forall k :: k in s <==> k in pos
  {
    if pos == [] then {} else Among(pos[..|pos| - 1]) + {pos[|pos| - 1]}
  }

  predicate AllDiffer(pos: seq<nat>) { forall j, k :: 0 <= j < k < |pos| ==> pos[j] != pos[k] }

  lemma {:induction false} CountAmong(pos: seq<nat>)
    requires AllDiffer(pos)
    ensures |Among(pos)| == |pos|
  {
    if pos != [] {
      var n := |pos| - 1;
      CountAmong(pos[..n]);
      assert pos[n] !in pos[..n];
    }
  }

  /** Positions below n, as many and all different, include 0. */
  lemma SomePositionIsFirst(pos: seq<nat>, n: nat)
    requires |pos| == n > 0 && AllDiffer(pos) && forall k | k in pos :: k < n
    ensures 0 in pos
  {
    CountAmong(pos);
    if 0 !in pos {
      NoneIsFirst(pos, n);
      SubsetCount(Among(pos), UpTo(n - 1));
    }
  }

  lemma NoneIsFirst(pos: seq<nat>, n: nat)
    requires n > 0 && 0 !in pos && forall k | k in pos :: k < n
    ensures Among(pos) <= UpTo(n - 1)
  {
    forall k | k in Among(pos) ensures k in UpTo(n - 1) { assert k in pos; }
  }

  lemma {:induction false} SubsetCount(a: set<nat>, b: set<nat>)
    requires a <= b
    ensures |a| <= |b|
  {
    if a != {} {
      var x :| x in a;
      SubsetCount(a - {x}, b - {x});
    }
  }

  lemma {:induction false} GetIsAt(ms: seq<Member<Js>>, key: Str) returns (i: nat)
    requires Get(ms, key).Some?
    ensures i < |ms| && ms[i].key == key
  {
    if ms[0].key == key {
      i := 0;
    } else {
      i := GetIsAt(ms[1..], key);
      i := i + 1;
    }
  }

  /** Where the first n keys of a line are. */
  lemma {:induction false} KeysAt(ms: seq<Member<Js>>, n: nat) returns (pos: seq<nat>)
    requires n <= 17 && forall k :: 0 <= k < n ==> Get(ms, Keys()[k]).Some?
    ensures |pos| == n && forall k :: 0 <= k < n ==> pos[k] < |ms| && ms[pos[k]].key == Keys()[k]
  {
    if n == 0 {
      pos := [];
    } else {
      pos := KeysAt(ms, n - 1);
      var i := GetIsAt(ms, Keys()[n - 1]);
      pos := pos + [i];
    }
  }

  /** An object of seventeen members that has every key of a line has no other, so its first is one of them. */
  lemma FirstKeyIsKnown(ms: seq<Member<Js>>)
    requires |ms| == 17 && forall k :: 0 <= k < 17 ==> Get(ms, Keys()[k]).Some?
    ensures exists k :: 0 <= k < 17 && ms[0].key == Keys()[k]
  {
    var pos := KeysAt(ms, 17);
    KeysDistinct();
    SomePositionIsFirst(pos, 17);
    var k :| 0 <= k < 17 && pos[k] == 0;
    assert ms[pos[k]].key == Keys()[k];
  }

  lemma KeysStartWithLetters(k: nat)
    requires k < 17
    ensures Keys()[k] != [] && 97 <= Keys()[k][0] <= 122
  {
  }

  lemma RecordHasKeys(v: Js)
    requires RecordOf(v).Some?
    ensures v.Obj? && |v.members| == 17 && forall k :: 0 <= k < 17 ==> Get(v.members, Keys()[k]).Some?
  {
    forall k | 0 <= k < 17 ensures Get(v.members, Keys()[k]).Some? {
      assert 4 <= k < 14 ==> TextField(v, k).Some?;
    }
  }

  /** The bytes of a line that parses open an object, whose first key is a line's. */
  lemma ParsedOpens(b: Bytes)
    requires ParseLine(b).Some?
    ensures b != [] && b[0] == LBRACE
    ensures var t := FromUtf8(b); |t| >= 3 && t[0] == LBRACE && t[1] == QUOTE && KeyUnit(t[2]) && Parse(t).Some?
  {
    var t := FromUtf8(b);
    var v := Parse(t).value;
    RecordHasKeys(v);
    FirstKeyIsKnown(v.members);
    var k :| 0 <= k < 17 && v.members[0].key == Keys()[k];
    KeysStartWithLetters(k);
    ObjectOpens(t);
    FirstOfChars(t[2..]);
  }

  /** Nothing that ends in a line and has more before it parses. */
  lemma LineReadsFromItsStart(q: Bytes, r: Record)
    requires Lineable(r) && Valid(r) && q != []
    ensures ParseLine(q + Line(r)).None?
  {
    if ParseLine(q + Line(r)).Some? {
      ParsedOpens(q + Line(r));
      LinesNeverMerge(q, r);
    }
  }

  /** Nothing that is left of a line behind its start parses. */
  lemma LineReadsWhole(p: Bytes, s: Bytes, r: Record)
    requires Lineable(r) && Valid(r) && p != [] && Line(r) == p + s
    ensures ParseLine(s).None?
  {
    if ParseLine(s).Some? {
      ParsedOpens(s);
      LinesNeverMerge([LBRACE], r);
      assert p[0] == LBRACE;
      DecodesApart(p, s);
      MergedIsNoJson(FromUtf8(p), FromUtf8(s));
      LineRoundTrip(r);
    }
  }
}
