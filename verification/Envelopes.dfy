/** The two digests of one continuity envelope: the bindings' over the sealed text's readable copy, and
    the broker's over the opened value. */
module Envelopes {
  import opened Common
  import opened Unicode
  import opened Json
  import opened Canonical
  import opened Encoding

  /** `sealEnvelope`, base64 aside. */
  function Seal(v: Js): Str
    requires Data(v)
  {
    Print(v)
  }

  /** `readableEnvelopeDigest`: None when the sealed text does not decode. */
  function ReadableDigest(H: Bytes -> Digest, sealed: Str): Option<Digest> {
    match Parse(sealed)
    case None => None
    case Some(v) => if Data(v) then Some(H(Utf8(CanonicalJson(v)))) else None
  }

  /** `envelopeDigest`: None is a thrown encoding error. */
  function EnvelopeDigest(H: Bytes -> Digest, v: Js): Option<Digest> {
    match Jcs(v)
    case None => None
    case Some(t) => Some(H(Utf8(t)))
  }

  /** Opening a sealed envelope gives it back, the broker's digest exists exactly where `jcs` accepts the
      envelope, and there it is the bindings' digest of the sealed copy. */
  lemma DigestsAgree(H: Bytes -> Digest, v: Js)
    requires Data(v)
    ensures Parse(Seal(v)) == Some(v)
    ensures EnvelopeDigest(H, v).Some? <==> Encodable(v)
    ensures EnvelopeDigest(H, v).Some? ==> EnvelopeDigest(H, v) == ReadableDigest(H, Seal(v))
  {
    ParseInvertsPrint(v);
    JcsExactly(v);
  }

  lemma TextDecidesBytes(a: Str, b: Str)
    requires WellFormed(a) && WellFormed(b)
    ensures Utf8(a) == Utf8(b) <==> a == b
  {
    if Utf8(a) == Utf8(b) { Utf8Injective(a, b); }
  }

  /** The canonical bytes of an envelope. */
  function Canonicalized(v: Js): Bytes {
    match Jcs(v) case None => [] case Some(t) => Utf8(t)
  }

  /** Member order never shows, and equal digests mean the same envelope or a collision on these bytes. */
  lemma DigestFixesEnvelope(H: Bytes -> Digest, v: Js, w: Js)
    requires Encodable(v) && Encodable(w)
    ensures Data(v) && Data(w)
    ensures Canonicalized(v) == Canonicalized(w) <==> Same(v, w)
    ensures EnvelopeDigest(H, v) == EnvelopeDigest(H, w) <==>
              Same(v, w) || (Canonicalized(v) != Canonicalized(w) && H(Canonicalized(v)) == H(Canonicalized(w)))
  {
    JcsDecidesSame(v, w);
    JcsExactly(v);
    JcsExactly(w);
    JcsText(v);
    JcsText(w);
    TextDecidesBytes(Jcs(v).value, Jcs(w).value);
  }
}
