/** The hashed bytes read back: a reader of the three preimages, most significant byte first and field by field in
    the order the format gives, that returns what was put in. */
module Preimages {
  import opened Common
  import opened Unicode
  import opened Json
  import opened Canonical
  import opened Encoding

  /** The number these bytes are, the most significant first. */
  function ReadBig(b: Bytes): nat {
    if b == [] then 0 else b[0] * Pow256(|b| - 1) + ReadBig(b[1..])
  }

  lemma {:induction false} ReadSnoc(b: Bytes, x: Byte)
    ensures ReadBig(b + [x]) == 256 * ReadBig(b) + x
  {
    if b == [] {
      assert [x][1..] == [];
    } else {
      assert (b + [x])[1..] == b[1..] + [x];
      ReadSnoc(b[1..], x);
      assert Pow256(|b|) == 256 * Pow256(|b| - 1);
      MulSwap(b[0], Pow256(|b| - 1));
    }
  }

  lemma MulSwap(x: nat, p: nat)
    ensures x * (256 * p) == 256 * (x * p)
  {
  }

  /** An integer of w bytes reads back. */
  lemma {:induction false} BigEndianReads(n: nat, w: nat)
    requires n < Pow256(w)
    ensures ReadBig(BigEndian(n, w)) == n
  {
    if w > 0 {
      BigEndianReads(n / 256, w - 1);
      ReadSnoc(BigEndian(n / 256, w - 1), n % 256);
    }
  }

  lemma Widths()
    ensures Pow256(2) == 0x1_0000 && Pow256(4) == FIELD_LIMIT && MAX_SAFE < Pow256(8)
  {
    assert Pow256(2) == 256 * Pow256(1) && Pow256(3) == 256 * Pow256(2) && Pow256(4) == 256 * Pow256(3);
    assert Pow256(5) == 256 * Pow256(4) && Pow256(6) == 256 * Pow256(5) && Pow256(7) == 256 * Pow256(6);
    assert Pow256(8) == 256 * Pow256(7);
  }

  // ---- the reader ----

  /** The first w bytes as a number, and the rest. */
  function TakeNumber(b: Bytes, w: nat): Option<(nat, Bytes)> {
    if |b| < w then None else Some((ReadBig(b[..w]), b[w..]))
  }

  /** A field behind its length of four bytes, and the rest. */
  function TakeField(b: Bytes): Option<(Bytes, Bytes)> {
    match TakeNumber(b, 4)
    case None => None
    case Some((n, rest)) => if |rest| < n then None else Some((rest[..n], rest[n..]))
  }

  function TakeText(b: Bytes): Option<(Str, Bytes)> {
    match TakeField(b)
    case None => None
    case Some((x, rest)) => Some((FromUtf8(x), rest))
  }

  function TakeTexts(b: Bytes, k: nat): Option<(seq<Str>, Bytes)> {
    if k == 0 then Some(([], b))
    else match TakeText(b)
         case None => None
         case Some((s, rest)) =>
           match TakeTexts(rest, k - 1)
           case None => None
           case Some((ss, end)) => Some(([s] + ss, end))
  }

  /** A JSON value, or null as an empty field. */
  function TakeBlob(b: Bytes): Option<(Option<Js>, Bytes)> {
    match TakeField(b)
    case None => None
    case Some((x, rest)) =>
      if x == [] then Some((None, rest))
      else match Parse(FromUtf8(x)) case None => None case Some(v) => Some((Some(v), rest))
  }

  function TakeDigest(b: Bytes): Option<(Digest, Bytes)> {
    if |b| < 32 then None else Some((b[..32], b[32..]))
  }

  /** What a record's preimage says: domain, kind, and the record. */
  function ReadRecord(b: Bytes): Option<(Str, nat, Record)> {
    match TakeText(b)
    case None => None
    case Some((domain, b1)) =>
      match TakeNumber(b1, 2)
      case None => None
      case Some((kind, b2)) =>
        match ReadFields(b2) case None => None case Some(r) => Some((domain, kind, r))
  }

  /** Position, time, the ten strings, payload, metadata and link, and nothing behind them. */
  function ReadFields(b: Bytes): Option<Record> {
    match TakeNumber(b, 8)
    case None => None
    case Some((seqNo, b1)) =>
      match TakeNumber(b1, 8)
      case None => None
      case Some((timestamp, b2)) =>
        match TakeTexts(b2, 10)
        case None => None
        case Some((fields, b3)) =>
          match TakeBlob(b3)
          case None => None
          case Some((payload, b4)) =>
            match TakeBlob(b4)
            case None => None
            case Some((metadata, b5)) =>
              if |b5| != 32 then None else Some(Record(seqNo, timestamp, fields, payload, metadata, b5))
  }

  /** What a head commitment's preimage says: domain, position, digest and chain id. */
  function ReadHead(b: Bytes): Option<(Str, nat, Digest, Str)> {
    match TakeText(b)
    case None => None
    case Some((domain, b1)) =>
      match TakeNumber(b1, 8)
      case None => None
      case Some((seqNo, b2)) =>
        match TakeDigest(b2)
        case None => None
        case Some((digest, b3)) =>
          match TakeText(b3)
          case None => None
          case Some((chainId, b4)) => if b4 != [] then None else Some((domain, seqNo, digest, chainId))
  }

  // ---- it inverts the writer ----

  lemma FrontOf(a: Bytes, b: Bytes)
    ensures (a + b)[..|a|] == a && (a + b)[|a|..] == b
  {
  }

  lemma NumberReads(n: nat, w: nat, rest: Bytes)
    requires n < Pow256(w)
    ensures TakeNumber(BigEndian(n, w) + rest, w) == Some((n, rest))
  {
    FrontOf(BigEndian(n, w), rest);
    BigEndianReads(n, w);
  }

  lemma FieldReads(x: Bytes, rest: Bytes)
    requires |x| < FIELD_LIMIT
    ensures TakeField(Lp(x) + rest) == Some((x, rest))
  {
    Widths();
    Regroup3(BigEndian(|x|, 4), x, rest);
    NumberReads(|x|, 4, x + rest);
    FrontOf(x, rest);
  }

  lemma TextReads(s: Str, rest: Bytes)
    requires |Utf8(s)| < FIELD_LIMIT
    ensures TakeText(Lp(Utf8(s)) + rest) == Some((ToWellFormed(s), rest))
  {
    FieldReads(Utf8(s), rest);
    Utf8Decodes(s);
  }

  lemma TextsStep(s: Str, ss: seq<Str>, tail: Bytes, rest: Bytes)
    requires FieldEncodes(s) && TakeTexts(tail, |ss|) == Some((ss, rest))
    ensures TakeTexts(Lp(Utf8(s)) + tail, |ss| + 1) == Some(([s] + ss, rest))
  {
    TextReads(s, tail);
    WellFormedExactly(s);
  }

  lemma {:induction false} TextsRead(ss: seq<Str>, rest: Bytes)
    requires forall s | s in ss :: FieldEncodes(s)
    ensures TakeTexts(FieldBytes(ss) + rest, |ss|) == Some((ss, rest))
  {
    if ss == [] {
      assert FieldBytes(ss) + rest == rest;
    } else {
      var s, more := ss[0], ss[1..];
      assert FieldEncodes(s) && forall x | x in more :: x in ss;
      TextsRead(more, rest);
      TextsStep(s, more, FieldBytes(more) + rest, rest);
      Regroup3(Lp(Utf8(s)), FieldBytes(more), rest);
      assert ss == [s] + more;
    }
  }

  lemma BlobReads(v: Option<Js>, rest: Bytes)
    requires BlobEncodes(v)
    ensures TakeBlob(Lp(Blob(v)) + rest).Some?
    ensures var got := TakeBlob(Lp(Blob(v)) + rest).value; SameBlob(v, got.0) && got.1 == rest
  {
    FieldReads(Blob(v), rest);
    if v.Some? {
      var t := Jcs(v.value).value;
      JcsText(v.value);
      Utf8NonEmpty(t);
      Utf8Decodes(t);
      WellFormedExactly(t);
      ParseInvertsJcs(v.value);
    }
  }

  lemma DomainPlain(s: string)
    requires forall i :: 0 <= i < |s| ==> (s[i] as int) < 0x80
    ensures ToWellFormed(Ascii(s)) == Ascii(s)
  {
    forall u | u in Ascii(s) ensures !High(u) && !Low(u) { var i :| 0 <= i < |s| && Ascii(s)[i] == u; }
    PlainUnits(Ascii(s));
    WellFormedExactly(Ascii(s));
  }

  /** Whatever the domain and the kind. */
  lemma RecordReads(domain: Str, kind: nat, body: Bytes)
    requires |Utf8(domain)| < FIELD_LIMIT && kind < Pow256(2)
    ensures ReadRecord(Lp(Utf8(domain)) + BigEndian(kind, 2) + body)
         == match ReadFields(body) case None => None case Some(r) => Some((ToWellFormed(domain), kind, r))
  {
    Regroup3(Lp(Utf8(domain)), BigEndian(kind, 2), body);
    TextReads(domain, BigEndian(kind, 2) + body);
    NumberReads(kind, 2, body);
  }

  /** The record's preimage reads back as its domain, kind 2 and the record, objects compared as values. */
  lemma RecordPreimageReads(r: Record)
    requires Digestible(r)
    ensures ReadRecord(Preimage(r)).Some?
    ensures var (domain, kind, s) := ReadRecord(Preimage(r)).value;
            domain == RecordDomain() && kind == 2 && SameRecord(r, s)
  {
    RecordDomainPlain();
    DomainsFit();
    Widths();
    FieldsRead(r);
    RecordReads(RecordDomain(), 2, AfterKind(r));
  }

  /** A preimage behind its kind. */
  function AfterKind(r: Record): Bytes {
    U64(r.seqNo) + (U64(r.timestamp)
    + (FieldBytes(r.fields) + (Lp(Blob(r.payload)) + (Lp(Blob(r.metadata)) + r.prev))))
  }

  lemma RecordDomainPlain()
    ensures ToWellFormed(RecordDomain()) == RecordDomain()
    ensures RecordDomain() == Ascii("xsoc-aida-guard:providence-record:v3")
  {
    DomainPlain("xsoc-aida-guard:providence-record:v3");
  }

  lemma HeadDomainPlain()
    ensures ToWellFormed(HeadDomain()) == HeadDomain()
    ensures HeadDomain() == Ascii("xsoc-aida-guard:providence-head:v1")
  {
    DomainPlain("xsoc-aida-guard:providence-head:v1");
  }

  lemma FieldsRead(r: Record)
    requires Digestible(r)
    ensures ReadFields(AfterKind(r)).Some? && SameRecord(r, ReadFields(AfterKind(r)).value)
  {
    var b5 := r.prev;
    var b4 := Lp(Blob(r.metadata)) + b5;
    var b3 := Lp(Blob(r.payload)) + b4;
    var b2 := FieldBytes(r.fields) + b3;
    Widths();
    NumberReads(r.seqNo, 8, U64(r.timestamp) + b2);
    NumberReads(r.timestamp, 8, b2);
    TextsRead(r.fields, b3);
    BlobReads(r.payload, b4);
    BlobReads(r.metadata, b5);
  }

  lemma HeadReads(domain: Str, seqNo: nat, digest: Digest, chainId: Str)
    requires seqNo <= MAX_SAFE && |Utf8(domain)| < FIELD_LIMIT && |Utf8(chainId)| < FIELD_LIMIT
    ensures ReadHead(Lp(Utf8(domain)) + (U64(seqNo) + (digest + Lp(Utf8(chainId)))))
         == Some((ToWellFormed(domain), seqNo, digest, ToWellFormed(chainId)))
  {
    var b2 := digest + Lp(Utf8(chainId));
    TextReads(domain, U64(seqNo) + b2);
    Widths();
    NumberReads(seqNo, 8, b2);
    FrontOf(digest, Lp(Utf8(chainId)));
    assert Lp(Utf8(chainId)) + [] == Lp(Utf8(chainId));
    TextReads(chainId, []);
  }

  /** The head's preimage reads back, the chain id as far as UTF-8 can tell. */
  lemma HeadPreimageReads(seqNo: nat, digest: Digest, chainId: Str)
    requires seqNo <= MAX_SAFE && |Utf8(chainId)| < FIELD_LIMIT
    ensures ReadHead(HeadPreimage(seqNo, digest, chainId))
         == Some((HeadDomain(), seqNo, digest, ToWellFormed(chainId)))
  {
    HeadDomainPlain();
    DomainsFit();
    HeadReads(HeadDomain(), seqNo, digest, chainId);
  }

  /** What an anchor message's preimage says: domain, commitment, time, algorithm, key id and public key. */
  function ReadAnchor(b: Bytes): Option<(Str, Digest, nat, Str, Str, Bytes)> {
    match TakeText(b)
    case None => None
    case Some((domain, b1)) =>
      match TakeDigest(b1)
      case None => None
      case Some((commitment, b2)) =>
        match TakeNumber(b2, 8)
        case None => None
        case Some((timestamp, b3)) =>
          match ReadSigner(b3)
          case None => None
          case Some((algorithm, keyId, publicKey)) =>
            Some((domain, commitment, timestamp, algorithm, keyId, publicKey))
  }

  /** The part behind the time. */
  function ReadSigner(b: Bytes): Option<(Str, Str, Bytes)> {
    match TakeText(b)
    case None => None
    case Some((algorithm, b1)) =>
      match TakeText(b1)
      case None => None
      case Some((keyId, b2)) =>
        match TakeField(b2)
        case None => None
        case Some((publicKey, b3)) => if b3 != [] then None else Some((algorithm, keyId, publicKey))
  }

  lemma SignerReads(algorithm: Str, keyId: Str, publicKey: Bytes)
    requires |publicKey| < FIELD_LIMIT && FieldEncodes(algorithm) && FieldEncodes(keyId)
    ensures ReadSigner(Lp(Utf8(algorithm)) + (Lp(Utf8(keyId)) + Lp(publicKey))) == Some((algorithm, keyId, publicKey))
  {
    TextReads(algorithm, Lp(Utf8(keyId)) + Lp(publicKey));
    WellFormedExactly(algorithm);
    TextReads(keyId, Lp(publicKey));
    WellFormedExactly(keyId);
    assert Lp(publicKey) + [] == Lp(publicKey);
    FieldReads(publicKey, []);
  }

  lemma AnchorReads(domain: Str, commitment: Digest, timestamp: nat, signer: Bytes)
    requires timestamp <= MAX_SAFE && |Utf8(domain)| < FIELD_LIMIT
    ensures ReadAnchor(Lp(Utf8(domain)) + (commitment + (U64(timestamp) + signer)))
         == match ReadSigner(signer)
            case None => None
            case Some((algorithm, keyId, publicKey)) =>
              Some((ToWellFormed(domain), commitment, timestamp, algorithm, keyId, publicKey))
  {
    TextReads(domain, commitment + (U64(timestamp) + signer));
    FrontOf(commitment, U64(timestamp) + signer);
    Widths();
    NumberReads(timestamp, 8, signer);
  }

  lemma AnchorDomainPlain()
    ensures ToWellFormed(AnchorDomain()) == AnchorDomain()
    ensures AnchorDomain() == Ascii("xsoc-aida-guard:providence-anchor:v1")
  {
    DomainPlain("xsoc-aida-guard:providence-anchor:v1");
  }

  /** The anchor message's preimage reads back. */
  lemma AnchorPreimageReads(commitment: Digest, timestamp: nat, algorithm: Str, keyId: Str, publicKey: Bytes)
    requires timestamp <= MAX_SAFE && |publicKey| < FIELD_LIMIT && FieldEncodes(algorithm) && FieldEncodes(keyId)
    ensures ReadAnchor(AnchorPreimage(commitment, timestamp, algorithm, keyId, publicKey))
         == Some((AnchorDomain(), commitment, timestamp, algorithm, keyId, publicKey))
  {
    AnchorDomainPlain();
    DomainsFit();
    SignerReads(algorithm, keyId, publicKey);
    AnchorReads(AnchorDomain(), commitment, timestamp, Lp(Utf8(algorithm)) + (Lp(Utf8(keyId)) + Lp(publicKey)));
  }

  // ---- the line and the digests, by name ----

  predicate Named(ms: seq<Member<Js>>, i: nat, key: string, v: Js) { i < |ms| && ms[i] == Member(Ascii(key), v) }

  /** The integers and links of a line. */
  predicate NamesPosition(ms: seq<Member<Js>>, r: Record) {
    && Named(ms, 0, "domain", Text(Ascii("xsoc-aida-guard:providence-record:v3"))) && Named(ms, 1, "kind", Num(2))
    && -MAX_SAFE <= r.seqNo <= MAX_SAFE && Named(ms, 2, "seq", Num(r.seqNo))
    && -MAX_SAFE <= r.timestamp <= MAX_SAFE && Named(ms, 3, "timestamp_ms", Num(r.timestamp))
    && Named(ms, 14, "payload", if r.payload.Some? then r.payload.value else Null)
    && Named(ms, 15, "metadata", if r.metadata.Some? then r.metadata.value else Null)
    && Named(ms, 16, "prev_digest", Text(HexText(r.prev)))
  }

  /** Its ten strings. */
  predicate NamesFields(ms: seq<Member<Js>>, fields: seq<Str>) {
    && |fields| == 10
    && Named(ms, 4, "event_type", Text(fields[0])) && Named(ms, 5, "correlation_id", Text(fields[1]))
    && Named(ms, 6, "device_fingerprint", Text(fields[2])) && Named(ms, 7, "session_handle", Text(fields[3]))
    && Named(ms, 8, "payload_digest", Text(fields[4])) && Named(ms, 9, "subject_id", Text(fields[5]))
    && Named(ms, 10, "operation_class", Text(fields[6])) && Named(ms, 11, "target_hash", Text(fields[7]))
    && Named(ms, 12, "classification", Text(fields[8])) && Named(ms, 13, "reason_code", Text(fields[9]))
  }

  /** The values of a line, in order. */
  lemma ValuesAre(r: Record)
    requires Lineable(r)
    ensures var vs := RecordValues(r);
            && vs[0] == Text(RecordDomain()) && vs[1] == Num(2) && vs[2] == Num(r.seqNo) && vs[3] == Num(r.timestamp)
            && vs[14] == OrNull(r.payload) && vs[15] == OrNull(r.metadata) && vs[16] == Text(HexText(r.prev))
            && forall i :: 4 <= i < 14 ==> vs[i] == Text(r.fields[i - 4])
  {
  }

  lemma MemberIs(r: Record, i: nat, key: string)
    requires Lineable(r) && i < 17 && Ascii(key) == Keys()[i]
    ensures Named(RecordJson(r).members, i, key, RecordValues(r)[i])
  {
  }

  lemma JsonNamesFields(r: Record)
    requires Lineable(r)
    ensures NamesFields(RecordJson(r).members, r.fields)
  {
    ValuesAre(r);
    MemberIs(r, 4, "event_type");
    MemberIs(r, 5, "correlation_id");
    MemberIs(r, 6, "device_fingerprint");
    MemberIs(r, 7, "session_handle");
    MemberIs(r, 8, "payload_digest");
    MemberIs(r, 9, "subject_id");
    MemberIs(r, 10, "operation_class");
    MemberIs(r, 11, "target_hash");
    MemberIs(r, 12, "classification");
    MemberIs(r, 13, "reason_code");
  }

  lemma JsonNamesPosition(r: Record)
    requires Lineable(r)
    ensures NamesPosition(RecordJson(r).members, r)
  {
    ValuesAre(r);
    MemberIs(r, 0, "domain");
    MemberIs(r, 1, "kind");
    MemberIs(r, 2, "seq");
    MemberIs(r, 3, "timestamp_ms");
    MemberIs(r, 14, "payload");
    MemberIs(r, 15, "metadata");
    MemberIs(r, 16, "prev_digest");
  }

  /** A line parses to one object of seventeen members, each under its own name and in this order. */
  lemma LineSays(r: Record)
    requires Lineable(r)
    ensures Parse(FromUtf8(Line(r))).Some? && Parse(FromUtf8(Line(r))).value.Obj?
    ensures var ms := Parse(FromUtf8(Line(r))).value.members;
            |ms| == 17 && NamesPosition(ms, r) && NamesFields(ms, r.fields)
  {
    RecordJsonData(r);
    var t := Print(RecordJson(r));
    PrintClean(RecordJson(r));
    Utf8Decodes(t);
    WellFormedExactly(t);
    ParseInvertsPrint(RecordJson(r));
    JsonNamesFields(r);
    JsonNamesPosition(r);
  }

  /** A digest's text has two lower-case digits a byte, the high one first. */
  lemma {:induction false} HexDigits(d: Bytes, k: nat)
    requires k < |d|
    ensures |HexText(d)| == 2 * |d|
    ensures HexText(d)[2 * k] == Ascii("0123456789abcdef")[d[k] / 16]
    ensures HexText(d)[2 * k + 1] == Ascii("0123456789abcdef")[d[k] % 16]
  {
    HexDigit(d[0] / 16);
    HexDigit(d[0] % 16);
    if |d| > 1 { HexDigits(d[1..], if k > 0 then k - 1 else 0); } else { assert HexText(d[1..]) == []; }
  }

  lemma HexDigit(n: nat)
    requires n < 16
    ensures Hex(n) == Ascii("0123456789abcdef")[n]
  {
  }
}
