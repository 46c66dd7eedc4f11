/** Linked chains: a head, and so a head commitment, determines every record before it. */
module History {
  import opened Common
  import opened Unicode
  import opened Encoding

  type Hash = Record -> Digest

  /** The record digest under a hash function. */
  function RecordHash(H: Bytes -> Digest): Hash {
    (r: Record) => H(Preimage(r))
  }

  /** The digest a successor of this chain carries. */
  function LastDigest(hash: Hash, chain: seq<Record>): Digest {
    if chain == [] then GENESIS else hash(chain[|chain| - 1])
  }

  /** Record i has seq i and links to the digest of record i - 1, genesis at 0. */
  predicate Linked(hash: Hash, chain: seq<Record>) {
    forall i :: 0 <= i < |chain| ==> chain[i].seqNo == i && chain[i].prev == LastDigest(hash, chain[..i])
  }

  predicate AllDigestible(chain: seq<Record>) {
    forall r | r in chain :: Digestible(r)
  }

  function Commitment(H: Bytes -> Digest, chain: seq<Record>, chainId: Str): Digest {
    H(HeadPreimage(|chain|, LastDigest(RecordHash(H), chain), chainId))
  }

  /** Position i of the two chains exhibits two different preimages with one hash. */
  predicate CollidesAt(H: Bytes -> Digest, a: seq<Record>, b: seq<Record>, i: nat) {
    i < |a| && i < |b| && Preimage(a[i]) != Preimage(b[i]) && RecordHash(H)(a[i]) == RecordHash(H)(b[i])
  }

  /** The two heads are different preimages with one hash. */
  predicate HeadsCollide(H: Bytes -> Digest, a: seq<Record>, idA: Str, b: seq<Record>, idB: Str) {
    && HeadPreimage(|a|, LastDigest(RecordHash(H), a), idA) != HeadPreimage(|b|, LastDigest(RecordHash(H), b), idB)
    && Commitment(H, a, idA) == Commitment(H, b, idB)
  }

  predicate SameChain(a: seq<Record>, b: seq<Record>) {
    |a| == |b| && forall i :: 0 <= i < |a| ==> SameRecord(a[i], b[i])
  }

  lemma StepBack(hash: Hash, a: seq<Record>)
    requires Linked(hash, a) && AllDigestible(a) && a != []
    ensures var n := |a| - 1;
            && Linked(hash, a[..n]) && AllDigestible(a[..n])
            && Digestible(a[n]) && a[n].prev == LastDigest(hash, a[..n])
  {
    var n := |a| - 1;
    assert a[n] in a;
    forall i | 0 <= i < n ensures a[i].seqNo == i && a[i].prev == LastDigest(hash, a[..n][..i]) {
      assert a[..n][..i] == a[..i];
    }
  }

  /** Two linked chains of one length and last digest are equal record by record,
      or one of their positions shows a hash collision. */
  lemma {:induction false} LastDigestDeterminesChain(H: Bytes -> Digest, a: seq<Record>, b: seq<Record>)
    requires Linked(RecordHash(H), a) && Linked(RecordHash(H), b) && AllDigestible(a) && AllDigestible(b)
    requires |a| == |b| && LastDigest(RecordHash(H), a) == LastDigest(RecordHash(H), b)
    ensures SameChain(a, b) || exists i :: CollidesAt(H, a, b, i)
    decreases |a|
  {
    if a != [] {
      var n := |a| - 1;
      LastRecords(H, a, b);
      if !CollidesAt(H, a, b, n) {
        var a', b' := a[..n], b[..n];
        StepBack(RecordHash(H), a);
        StepBack(RecordHash(H), b);
        LastDigestDeterminesChain(H, a', b');
        if i :| CollidesAt(H, a', b', i) {
          assert CollidesAt(H, a, b, i);
        } else {
          forall i | 0 <= i <= n ensures SameRecord(a[i], b[i]) {
            if i < n { assert SameRecord(a'[i], b'[i]); }
          }
        }
      }
    }
  }

  /** The last records collide, or they are the same and so are the digests they link to. */
  lemma LastRecords(H: Bytes -> Digest, a: seq<Record>, b: seq<Record>)
    requires Linked(RecordHash(H), a) && Linked(RecordHash(H), b) && AllDigestible(a) && AllDigestible(b)
    requires |a| == |b| > 0 && LastDigest(RecordHash(H), a) == LastDigest(RecordHash(H), b)
    ensures var n := |a| - 1;
            || CollidesAt(H, a, b, n)
            || (SameRecord(a[n], b[n]) && LastDigest(RecordHash(H), a[..n]) == LastDigest(RecordHash(H), b[..n]))
  {
    var n := |a| - 1;
    StepBack(RecordHash(H), a);
    StepBack(RecordHash(H), b);
    PreimageDecidesRecord(a[n], b[n]);
  }

  /** Equal head commitments mean one chain id, as far as its bytes show, and one history,
      unless the hash collides on these very heads or records. */
  lemma CommitmentDeterminesHistory(H: Bytes -> Digest, a: seq<Record>, idA: Str, b: seq<Record>, idB: Str)
    requires Linked(RecordHash(H), a) && Linked(RecordHash(H), b) && AllDigestible(a) && AllDigestible(b)
    requires |a| <= MAX_SAFE && |b| <= MAX_SAFE && |Utf8(idA)| < FIELD_LIMIT && |Utf8(idB)| < FIELD_LIMIT
    requires Commitment(H, a, idA) == Commitment(H, b, idB)
    ensures || (SameChain(a, b) && ToWellFormed(idA) == ToWellFormed(idB))
            || HeadsCollide(H, a, idA, b, idB)
            || exists i :: CollidesAt(H, a, b, i)
    ensures SameChain(a, b) && WellFormed(idA) && WellFormed(idB) && !HeadsCollide(H, a, idA, b, idB) ==> idA == idB
  {
    if !HeadsCollide(H, a, idA, b, idB) {
      HeadPreimageExactly(|a|, LastDigest(RecordHash(H), a), idA, |b|, LastDigest(RecordHash(H), b), idB);
      LastDigestDeterminesChain(H, a, b);
      WellFormedExactly(idA);
      WellFormedExactly(idB);
    }
  }

  /** The other direction: the same history under one id has one commitment. */
  lemma HistoryDeterminesCommitment(H: Bytes -> Digest, a: seq<Record>, b: seq<Record>, id: Str)
    requires AllDigestible(a) && AllDigestible(b) && SameChain(a, b)
    ensures Commitment(H, a, id) == Commitment(H, b, id)
  {
    if a != [] {
      var n := |a| - 1;
      assert a[n] in a && b[n] in b;
      PreimageDecidesRecord(a[n], b[n]);
    }
  }
}
