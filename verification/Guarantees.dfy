/** What a commitment pins down once encoding, chain and scheduler are put together. */
module Guarantees {
  import opened Common
  import opened Unicode
  import opened Json
  import opened Encoding
  import opened History
  import opened Log
  import opened Recovery
  import opened Scheduler
  import opened Canonical
  import opened AnchorNames
  import opened Paging

  lemma ChainUnderV3(H: Bytes -> Digest, id: Str, chain: seq<Record>)
    requires GoodChain(V3(H, id), chain)
    ensures Linked(RecordHash(H), chain) && AllDigestible(chain)
    ensures CommitmentOf(H, HeadOf(V3(H, id), chain)).Some? ==>
              && CommitmentOf(H, HeadOf(V3(H, id), chain)).value == Commitment(H, chain, id)
              && |chain| <= MAX_SAFE && |Utf8(id)| < FIELD_LIMIT
  {
    forall r | r in chain ensures Digestible(r) {
      var i :| 0 <= i < |chain| && chain[i] == r;
      assert Encodes(chain[i]);
    }
  }

  /** Two directories that restarts accept, whatever their pasts, hold the same records under the same
      id when their heads have one commitment, unless the hash collides on these very bytes. */
  lemma CommitmentFixesDirectory(H: Bytes -> Digest, id: Str, steps: seq<Step>, w: World,
                                 id': Str, steps': seq<Step>, w': World)
    requires var c, c' := V3(H, id), V3(H, id');
             && Reaches(c, Recovery.Start(), steps, w) && Reaches(c', Recovery.Start(), steps', w')
             && Recover(c, w.disk).Some? && Recover(c', w'.disk).Some?
             && CommitmentOf(H, Recover(c, w.disk).value).Some?
             && CommitmentOf(H, Recover(c, w.disk).value) == CommitmentOf(H, Recover(c', w'.disk).value)
    ensures || (SameChain(w.chain, w'.chain) && ToWellFormed(id) == ToWellFormed(id'))
            || HeadsCollide(H, w.chain, id, w'.chain, id')
            || exists i :: CollidesAt(H, w.chain, w'.chain, i)
  {
    V3Faithful(H, id);
    V3Faithful(H, id');
    CrashSafety(V3(H, id), steps, w);
    CrashSafety(V3(H, id'), steps', w');
    ChainUnderV3(H, id, w.chain);
    ChainUnderV3(H, id', w'.chain);
    CommitmentDeterminesHistory(H, w.chain, id, w'.chain, id');
  }

  lemma AnchorUnderV3(H: Bytes -> Digest, id: Str, es: seq<Event>, y: System, f: Member<AnchorFile>)
    requires Runs(V3(H, id), StartSystem(), es, y) && f in y.w.disk.anchors && f.value.Signed?
    ensures var a := f.value.anchor;
            && a.head.seqNo <= |y.w.chain| && a.head.seqNo <= MAX_SAFE && |Utf8(id)| < FIELD_LIMIT
            && var p := y.w.chain[..a.head.seqNo];
               Linked(RecordHash(H), p) && AllDigestible(p) && a.commitment == Commitment(H, p, id)
  {
    var c, n := V3(H, id), f.value.anchor.head.seqNo;
    V3Faithful(H, id);
    ReachableSound(c, es, y);
    AnchorsNamePrefixes(c, es, y, f);
    GoodPrefix(c, y.w.chain, n);
    ChainUnderV3(H, id, y.w.chain[..n]);
  }

  /** Two anchors with one commitment, from any two runs, name the same prefix, record by record. */
  lemma AnchorFixesPrefix(H: Bytes -> Digest, id: Str, es: seq<Event>, y: System, f: Member<AnchorFile>,
                          id': Str, es': seq<Event>, y': System, f': Member<AnchorFile>)
    requires Runs(V3(H, id), StartSystem(), es, y) && f in y.w.disk.anchors && f.value.Signed?
    requires Runs(V3(H, id'), StartSystem(), es', y') && f' in y'.w.disk.anchors && f'.value.Signed?
    requires f.value.anchor.commitment == f'.value.anchor.commitment
    ensures f.value.anchor.head.seqNo <= |y.w.chain| && f'.value.anchor.head.seqNo <= |y'.w.chain|
    ensures var p, p' := y.w.chain[..f.value.anchor.head.seqNo], y'.w.chain[..f'.value.anchor.head.seqNo];
            || (SameChain(p, p') && ToWellFormed(id) == ToWellFormed(id'))
            || HeadsCollide(H, p, id, p', id')
            || exists i :: CollidesAt(H, p, p', i)
  {
    AnchorUnderV3(H, id, es, y, f);
    AnchorUnderV3(H, id', es', y', f');
    CommitmentDeterminesHistory(H, y.w.chain[..f.value.anchor.head.seqNo], id,
                                y'.w.chain[..f'.value.anchor.head.seqNo], id');
  }

  /** In any state the writer and its scheduler reach, whatever failed or crashed before, if every anchor
      file is whole and below the name limit and no line before the head fell short without an error,
      following `next` from 0 rebuilds the records and the anchors. */
  lemma CrawlAfterAnyRun(c: Config, es: seq<Event>, y: System, m: Mem, limit: nat -> nat)
    requires Faithful(c) && Runs(c, StartSystem(), es, y) && y.w.proc == Some(m) && m.offsets.Some?
    requires c.commit(m.head).Some? && (forall i :: limit(i) >= 1)
    requires y.w.short.None? || m.head.seqNo <= y.w.short.value
    requires forall f | f in y.w.disk.anchors :: f.value.Signed? && f.value.anchor.head.seqNo < NAME_LIMIT
    ensures m.head.seqNo <= |y.w.chain| && WellNamed(Sort(y.w.disk.anchors))
    ensures Crawl(PagesOf(c, y.w.disk, m, limit), m.head.seqNo, 0) ==
              Some((ServedOf(c, y.w.chain[..m.head.seqNo]), Between(Sort(y.w.disk.anchors), 0, m.head.seqNo)))
  {
    ReachableSound(c, es, y);
    CrawlRebuilds(c, y.w.chain, y.w.disk, m, limit);
  }

  /** Lower-case hex of 32 bytes, or nothing. */
  predicate HashOrNothing(s: Str) {
    s == [] || (|s| == 64 && forall u :: u in s ==> 48 <= u <= 57 || 97 <= u <= 102)
  }

  /** A record as the schema has it, at this place. */
  predicate InSchema(r: Record, at: nat) {
    && r.seqNo == at <= 0x1F_FFFF_FFFF_FFFF && r.timestamp <= 0x1F_FFFF_FFFF_FFFF && |r.fields| == 10
    && r.fields[EVENT_TYPE] in EventTypes()
    && HashOrNothing(r.fields[DEVICE_FINGERPRINT]) && HashOrNothing(r.fields[SESSION_HANDLE])
    && HashOrNothing(r.fields[PAYLOAD_DIGEST])
    && (forall s | s in r.fields :: WellFormed(s))
    && (r.payload.Some? ==> r.payload.value.Obj? && Encodable(r.payload.value))
    && (r.metadata.Some? ==> r.metadata.value.Obj? && Encodable(r.metadata.value))
  }

  lemma EncodesInSchema(r: Record)
    requires Encodes(r)
    ensures InSchema(r, r.seqNo)
  {
    assert forall s | s in r.fields :: FieldEncodes(s);
    if r.payload.Some? { JcsExactly(r.payload.value); }
    if r.metadata.Some? { JcsExactly(r.metadata.value); }
  }

  /** Whatever happens, every committed record obeys the schema, and its text encodes. */
  lemma CommittedInSchema(H: Bytes -> Digest, id: Str, steps: seq<Step>, w: World, i: nat)
    requires Reaches(V3(H, id), Recovery.Start(), steps, w) && i < |w.chain|
    ensures InSchema(w.chain[i], i)
  {
    V3Faithful(H, id);
    ReachedInv(V3(H, id), steps, w);
    EncodesInSchema(w.chain[i]);
  }
}
