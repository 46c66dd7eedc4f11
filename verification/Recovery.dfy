/** One live writer at a time over one directory: every run of opens, appends, I/O errors, deaths at
    any point of an append, and restarts. What a restart accepts, and when it refuses. */
module Recovery {
  import opened Common
  import opened Encoding
  import opened History
  import opened ChainFile
  import opened Log

  // ---- the committed chain as lines ----

  predicate AllEncode(c: Config, chain: seq<Record>) {
    forall i :: 0 <= i < |chain| ==> c.encodes(chain[i])
  }

  /** The lines of a chain of records. */
  function LinesOf(c: Config, chain: seq<Record>): (ls: seq<Bytes>)
    requires AllEncode(c, chain)
    ensures |ls| == |chain|
  {
    if chain == [] then []
    else
      var n := |chain| - 1;
      LinesOf(c, chain[..n]) + [c.line(chain[n])]
  }

  lemma {:induction false} LinesOfAt(c: Config, chain: seq<Record>, i: nat)
    requires Faithful(c) && AllEncode(c, chain) && i < |chain|
    ensures LinesOf(c, chain)[i] == c.line(chain[i])
    ensures OneLine(LinesOf(c, chain)[i])
  {
    var n := |chain| - 1;
    if i < n {
      LinesOfAt(c, chain[..n], i);
      assert chain[..n][i] == chain[i];
    }
  }

  lemma {:induction false} LinesOfPrefix(c: Config, chain: seq<Record>, k: nat)
    requires Faithful(c) && AllEncode(c, chain) && k <= |chain|
    ensures LinesOf(c, chain[..k]) == LinesOf(c, chain)[..k]
  {
    forall i | 0 <= i < k ensures LinesOf(c, chain[..k])[i] == LinesOf(c, chain)[i] {
      LinesOfAt(c, chain[..k], i);
      LinesOfAt(c, chain, i);
    }
  }

  lemma LinesAreWhole(c: Config, chain: seq<Record>)
    requires Faithful(c) && AllEncode(c, chain)
    ensures Lines(Join(LinesOf(c, chain))) == LinesOf(c, chain) && Partial(Join(LinesOf(c, chain))) == []
  {
    forall l | l in LinesOf(c, chain) ensures OneLine(l) {
      var i :| 0 <= i < |chain| && LinesOf(c, chain)[i] == l;
      LinesOfAt(c, chain, i);
    }
    SplitJoin(LinesOf(c, chain));
  }

  function ChainBytes(c: Config, chain: seq<Record>): Bytes
    requires AllEncode(c, chain)
  {
    Join(LinesOf(c, chain))
  }

  lemma ChainBytesGrow(c: Config, chain: seq<Record>, r: Record)
    requires AllEncode(c, chain) && c.encodes(r)
    ensures AllEncode(c, chain + [r])
    ensures LinesOf(c, chain + [r]) == LinesOf(c, chain) + [Written(c, r)[..|Written(c, r)| - 1]]
    ensures ChainBytes(c, chain + [r]) == ChainBytes(c, chain) + Written(c, r)
  {
    assert (chain + [r])[..|chain|] == chain;
    assert Written(c, r)[..|Written(c, r)| - 1] == c.line(r);
    JoinAppend(LinesOf(c, chain), c.line(r));
  }

  function HeadOf(c: Config, chain: seq<Record>): Head {
    Head(c.chainId, |chain|, LastDigest(c.hash, chain))
  }

  ghost predicate GoodChain(c: Config, chain: seq<Record>) {
    Faithful(c) && AllEncode(c, chain) && Linked(c.hash, chain)
  }

  lemma LinkGrows(hash: Hash, chain: seq<Record>, r: Record)
    requires Linked(hash, chain) && r.seqNo == |chain| && r.prev == LastDigest(hash, chain)
    ensures Linked(hash, chain + [r])
  {
    var g := chain + [r];
    forall i | 0 <= i < |g| ensures g[i].seqNo == i && g[i].prev == LastDigest(hash, g[..i]) {
      assert g[..i] == chain[..i];
      if i == |chain| { assert chain[..i] == chain; }
    }
  }

  lemma LinkedGrows(c: Config, chain: seq<Record>, r: Record)
    requires GoodChain(c, chain) && c.encodes(r)
    requires r.seqNo == |chain| && r.prev == LastDigest(c.hash, chain)
    ensures GoodChain(c, chain + [r])
    ensures HeadOf(c, chain + [r]) == Head(c.chainId, r.seqNo + 1, c.hash(r))
  {
    LinkGrows(c.hash, chain, r);
  }

  lemma GoodPrefix(c: Config, chain: seq<Record>, k: nat)
    requires GoodChain(c, chain) && k <= |chain|
    ensures GoodChain(c, chain[..k])
  {
    forall i | 0 <= i < k ensures chain[..k][i].prev == LastDigest(c.hash, chain[..k][..i]) {
      assert chain[..k][..i] == chain[..i];
    }
  }

  // ---- runs ----

  /** `chain` is what has been renamed in, `returned` what appends have returned. `stopped` says some append
      reached the chain file and ended before its rename took effect. `short` is the first position whose
      line fell short without an error while its rename took effect. */
  datatype World = World(
    disk: Disk, proc: Option<Mem>, chain: seq<Record>, returned: seq<Record>, stopped: bool, short: Option<nat>)

  datatype Step =
    | Open(first: FileWrite, mem: Mem)
    | Do(e: Entry, now: nat, fault: Fault)
    | Die(e: Entry, now: nat, fault: Fault)
    | Kill
    | Refuse(why: Str)

  const EMPTY: Disk := Disk([], NoFile, NoFile, [])

  function Start(): World { World(EMPTY, None, [], [], false, None) }

  predicate Commits(c: Config, d: Disk, m: Mem, e: Entry, now: nat, fault: Fault) {
    Starts(c, m, e, now) && Renames(d, m, fault)
  }

  /** The rename takes effect over a line that is not whole. */
  predicate FallsShort(c: Config, d: Disk, m: Mem, e: Entry, now: nat, fault: Fault) {
    Commits(c, d, m, e, now, fault) && Kept(c, Compose(m, e, now), fault) != Written(c, Compose(m, e, now))
  }

  /** The disk and the history after an append that ends where `fault` says, whether or not the process survives. */
  function AfterAppend(c: Config, w: World, m: Mem, e: Entry, now: nat, fault: Fault): World {
    w.(disk := AppendDisk(c, w.disk, m, e, now, fault),
       chain := if Commits(c, w.disk, m, e, now, fault) then w.chain + [Compose(m, e, now)] else w.chain,
       stopped := w.stopped || (Starts(c, m, e, now) && Touches(fault) && !Renames(w.disk, m, fault)),
       short := if w.short.None? && FallsShort(c, w.disk, m, e, now, fault) then Some(|w.chain|) else w.short)
  }

  /** Step s is possible: only the instance an open produces is left open. */
  predicate Enabled(c: Config, w: World, s: Step) {
    match s
    case Open(first, mem) => IsOpened(c, w.disk, first, mem)
    case Do(_, _, _) => w.proc.Some?
    case Die(_, _, _) => w.proc.Some?
    case Kill => true
    case Refuse(_) => w.proc.Some?
  }

  function Next(c: Config, w: World, s: Step): World
    requires Enabled(c, w, s)
  {
    match s
    case Open(first, mem) => w.(disk := OpenDisk(c, w.disk, first), proc := Some(mem))
    case Do(e, now, fault) =>
      var m := w.proc.value;
      var a := AppendAnswer(c, w.disk, m, e, now, fault);
      AfterAppend(c, w, m, e, now, fault).(
        proc := Some(AppendMem(c, w.disk, m, e, now, fault)),
        returned := if a.Appended? then w.returned + [a.record] else w.returned)
    case Die(e, now, fault) => AfterAppend(c, w, w.proc.value, e, now, fault).(proc := None)
    case Kill => w.(proc := None)
    case Refuse(why) =>
      var m := w.proc.value;
      w.(proc := Some(if m.failure.None? then m.(failure := Some(RefusedBy(why))) else m))
  }

  predicate Reaches(c: Config, w: World, steps: seq<Step>, w': World)
    decreases |steps|
  {
    if steps == [] then w' == w
    else Enabled(c, w, steps[0]) && Reaches(c, Next(c, w, steps[0]), steps[1..], w')
  }

  // ---- the invariant ----

  /** What an instance in memory may say: its head and index describe a prefix of the committed chain. */
  predicate ServesPrefix(c: Config, chain: seq<Record>, m: Mem)
    requires AllEncode(c, chain)
  {
    var k := m.head.seqNo;
    m.offsets.Some? ==>
      && k <= |chain| && m.head == HeadOf(c, chain[..k])
      && IsIndex(m.offsets.value, LinesOf(c, chain)[..k])
      && m.chainBytes == |Join(LinesOf(c, chain)[..k])|
  }

  /** The bytes of the first k committed lines. */
  function PrefixOf(c: Config, chain: seq<Record>, k: nat): Bytes
    requires AllEncode(c, chain) && k <= |chain|
  {
    Join(LinesOf(c, chain)[..k])
  }

  /** What the disk and the history owe each other between steps. */
  ghost predicate DiskSound(c: Config, w: World) {
    && GoodChain(c, w.chain)
    && (w.disk.head.HeadIs? ==> w.disk.head.head == HeadOf(c, w.chain))
    && (w.disk.head.NoFile? ==> w.chain == [] && w.disk.chain == [])
    && (w.short.None? ==>
         && ChainBytes(c, w.chain) <= w.disk.chain && (w.stopped <==> ChainBytes(c, w.chain) != w.disk.chain))
    && (w.short.Some? ==>
         && w.short.value < |w.chain| && PrefixOf(c, w.chain, w.short.value) <= w.disk.chain
         && Recover(c, w.disk).None?)
  }

  /** After a short line, while its process lives: fewer lines than the chain counts, and at the end perhaps
      a line that was started. */
  ghost predicate Jammed(c: Config, chain: seq<Record>, b: Bytes) {
    |Lines(b)| < |chain| && (Partial(b) == [] || Started(c, Partial(b)))
  }

  /** The file holds the bytes an instance's index describes. */
  predicate IndexFits(c: Config, w: World, m: Mem)
    requires AllEncode(c, w.chain) && m.head.seqNo <= |w.chain|
  {
    PrefixOf(c, w.chain, m.head.seqNo) <= w.disk.chain
  }

  /** An instance's index is the file's exactly when no line fell short before its head. */
  predicate IndexSound(c: Config, w: World, m: Mem)
    requires AllEncode(c, w.chain) && ServesPrefix(c, w.chain, m)
  {
    m.offsets.Some? ==> (IndexFits(c, w, m) <==> w.short.None? || m.head.seqNo <= w.short.value)
  }

  /** An instance that still serves appends. */
  ghost predicate LiveSound(c: Config, w: World, m: Mem) {
    m.failure.None? ==>
      && !w.stopped && !w.disk.head.NoFile? && m.offsets.Some? && m.head == HeadOf(c, w.chain)
      && (w.short.Some? ==> Jammed(c, w.chain, w.disk.chain))
  }

  ghost predicate ReturnedSound(w: World) {
    forall r | r in w.returned :: r.seqNo < |w.chain| && w.chain[r.seqNo] == r
  }

  ghost predicate Inv(c: Config, w: World) {
    && DiskSound(c, w)
    && (w.proc.Some? ==>
         && ServesPrefix(c, w.chain, w.proc.value) && IndexSound(c, w, w.proc.value) && LiveSound(c, w, w.proc.value))
    && ReturnedSound(w)
  }

  /** Startup over a committed chain followed by `stray` bytes. */
  lemma RecoverDecides(c: Config, chain: seq<Record>, d: Disk)
    requires GoodChain(c, chain) && ChainBytes(c, chain) <= d.chain && d.head == HeadIs(HeadOf(c, chain))
    ensures Recover(c, d) == if d.chain == ChainBytes(c, chain) then Some(HeadOf(c, chain)) else None
    ensures d.chain == ChainBytes(c, chain) ==> Lines(d.chain) == LinesOf(c, chain) && Partial(d.chain) == []
  {
    LinesAreWhole(c, chain);
    var stray := d.chain[|ChainBytes(c, chain)|..];
    assert d.chain == ChainBytes(c, chain) + stray;
    if stray != [] {
      SplitTail(ChainBytes(c, chain), stray);
      SplitNonEmpty(stray);
    } else if chain != [] {
      var n := |chain| - 1;
      LinesOfAt(c, chain, n);
      assert Lines([]) == [];
    }
  }

  lemma FreshServes(c: Config, w: World, first: FileWrite, m: Mem)
    requires DiskSound(c, w) && IsOpened(c, w.disk, first, m)
    ensures m.offsets.Some? ==> m.failure.None? && w.short.None? && !w.stopped && m.head == HeadOf(c, w.chain)
    ensures m.offsets.Some? ==>
              IsIndex(m.offsets.value, LinesOf(c, w.chain)) && m.chainBytes == |ChainBytes(c, w.chain)|
    ensures m.failure.None? ==> m.offsets.Some?
  {
    OpenedServesExactly(c, w.disk, first, m);
    if m.failure.None? {
      LinesAreWhole(c, w.chain);
      if w.disk.head.HeadIs? { RecoverDecides(c, w.chain, w.disk); }
    }
  }

  lemma OpenDiskSound(c: Config, w: World, first: FileWrite)
    requires DiskSound(c, w)
    ensures DiskSound(c, w.(disk := OpenDisk(c, w.disk, first)))
    ensures Writes(first) ==> !OpenDisk(c, w.disk, first).head.NoFile?
  {
  }

  lemma OpenKeeps(c: Config, w: World, first: FileWrite, m: Mem)
    requires Inv(c, w) && IsOpened(c, w.disk, first, m)
    ensures Inv(c, Next(c, w, Open(first, m)))
  {
    FreshServes(c, w, first, m);
    OpenDiskSound(c, w, first);
    WholePrefix(w.chain);
    WholePrefix(LinesOf(c, w.chain));
  }

  lemma KeptTouches(c: Config, r: Record, fault: Fault)
    ensures Kept(c, r, fault) != [] <==> Touches(fault)
  {
  }

  lemma Extends(a: Bytes, b: Bytes)
    ensures a <= a + b && (a != a + b <==> b != [])
  {
    assert |a + b| == |a| + |b|;
    if b == [] { assert a + b == a; }
  }

  /** The record that follows a committed chain. */
  lemma ChainGrows(c: Config, chain: seq<Record>, r: Record)
    requires GoodChain(c, chain) && c.encodes(r) && r.seqNo == |chain| && r.prev == LastDigest(c.hash, chain)
    ensures GoodChain(c, chain + [r]) && HeadOf(c, chain + [r]) == Head(c.chainId, r.seqNo + 1, c.hash(r))
    ensures ChainBytes(c, chain + [r]) == ChainBytes(c, chain) + Written(c, r)
    ensures LinesOf(c, chain + [r]) == LinesOf(c, chain) + [c.line(r)]
  {
    ChainBytesGrow(c, chain, r);
    LinkedGrows(c, chain, r);
    assert Written(c, r)[..|Written(c, r)| - 1] == c.line(r);
  }

  // ---- lines that fall short ----

  /** A part of a line adds no line; a whole line completes whatever was started. */
  lemma KeptLines(c: Config, b: Bytes, r: Record, fault: Fault)
    requires Faithful(c) && c.encodes(r)
    ensures var b', p := b + Kept(c, r, fault), Partial(b);
            if Kept(c, r, fault) == Written(c, r)
            then Lines(b') == Lines(b) + [p + c.line(r)] && Partial(b') == []
            else Lines(b') == Lines(b) && Partial(b') == p + Kept(c, r, fault)
                 && (Kept(c, r, fault) == [] || Started(c, Kept(c, r, fault)))
  {
    assert LineOf(c, r);
    if Kept(c, r, fault) == Written(c, r) {
      SplitAppendLine(b, c.line(r));
    } else {
      var k := Kept(c, r, fault);
      assert k == c.line(r)[..|k|];
      SplitAppend(b, k);
    }
  }

  lemma StartedStays(c: Config, q: Bytes, k: Bytes)
    requires (q == [] || Started(c, q)) && (k == [] || Started(c, k))
    ensures q + k == [] || Started(c, q + k)
  {
    if q == [] {
      assert q + k == k;
    } else {
      var r: Record :| c.encodes(r) && c.line(r) != [] && c.line(r)[0] == q[0];
      assert (q + k)[0] == q[0];
    }
  }

  /** With fewer lines than the chain, a file does not hold the chain's bytes. */
  lemma FewerLines(c: Config, chain: seq<Record>, b: Bytes)
    requires GoodChain(c, chain) && ChainBytes(c, chain) <= b
    ensures |chain| <= |Lines(b)| && Lines(b)[..|chain|] == LinesOf(c, chain)
  {
    LinesAreWhole(c, chain);
    var rest := b[|ChainBytes(c, chain)|..];
    assert b == ChainBytes(c, chain) + rest;
    SplitTail(ChainBytes(c, chain), rest);
  }

  /** The first short line: it renames in a record that no line of its own holds. */
  lemma JamStarts(c: Config, chain: seq<Record>, r: Record, fault: Fault)
    requires GoodChain(c, chain) && c.encodes(r) && Kept(c, r, fault) != Written(c, r)
    ensures Jammed(c, chain + [r], ChainBytes(c, chain) + Kept(c, r, fault))
  {
    LinesAreWhole(c, chain);
    KeptLines(c, ChainBytes(c, chain), r, fault);
    assert [] + Kept(c, r, fault) == Kept(c, r, fault);
  }

  /** A rename that takes effect brings no more than one line with it. */
  lemma JamStays(c: Config, chain: seq<Record>, b: Bytes, r: Record, fault: Fault)
    requires Faithful(c) && c.encodes(r) && Jammed(c, chain, b)
    ensures Jammed(c, chain + [r], b + Kept(c, r, fault))
  {
    KeptLines(c, b, r, fault);
    if Kept(c, r, fault) != Written(c, r) { StartedStays(c, Partial(b), Kept(c, r, fault)); }
  }

  /** The line that could make up the count is either run into what was started before it, or at a later
      position: it is not the line of the head's record. */
  lemma JamEnds(c: Config, chain: seq<Record>, b: Bytes, r: Record, fault: Fault)
    requires GoodChain(c, chain) && c.encodes(r) && r.seqNo == |chain| && Jammed(c, chain, b)
    ensures var b' := b + Kept(c, r, fault);
            && |Lines(b')| <= |chain|
            && (|Lines(b')| == |chain| ==>
                 match c.parse(LastLine(b')) case None => true case Some(s) => s.seqNo == |chain|)
  {
    assert LineOf(c, r);
    KeptLines(c, b, r, fault);
    if Partial(b) == [] { assert [] + c.line(r) == c.line(r); }
  }

  lemma JamRefuses(c: Config, chain: seq<Record>, d: Disk)
    requires GoodChain(c, chain) && (d.head.HeadIs? ==> d.head.head == HeadOf(c, chain)) && !d.head.NoFile?
    requires |Lines(d.chain)| <= |chain| && chain != []
    requires |Lines(d.chain)| == |chain| ==>
               match c.parse(LastLine(d.chain)) case None => true case Some(s) => s.seqNo == |chain|
    ensures Recover(c, d).None? && !(ChainBytes(c, chain) <= d.chain)
  {
    if ChainBytes(c, chain) <= d.chain { LastOfChain(c, chain, d.chain); }
  }

  /** A file that holds the chain's bytes has its last record's line where the chain ends. */
  lemma LastOfChain(c: Config, chain: seq<Record>, b: Bytes)
    requires GoodChain(c, chain) && ChainBytes(c, chain) <= b && chain != []
    ensures |chain| <= |Lines(b)|
    ensures |chain| == |Lines(b)| ==>
              c.parse(LastLine(b)) == Some(chain[|chain| - 1]) && chain[|chain| - 1].seqNo == |chain| - 1
  {
    var n := |chain| - 1;
    FewerLines(c, chain, b);
    LinesOfAt(c, chain, n);
    assert LineOf(c, chain[n]) && Lines(b)[..|chain|][n] == c.line(chain[n]);
  }

  lemma GrownPrefix(c: Config, chain: seq<Record>, r: Record, k: nat)
    requires GoodChain(c, chain) && c.encodes(r) && k <= |chain|
    ensures AllEncode(c, chain + [r]) && PrefixOf(c, chain + [r], k) == PrefixOf(c, chain, k)
    ensures k == |chain| ==> PrefixOf(c, chain, k) == ChainBytes(c, chain)
  {
    ChainBytesGrow(c, chain, r);
    WholePrefix(LinesOf(c, chain));
    assert (LinesOf(c, chain) + [Written(c, r)[..|Written(c, r)| - 1]])[..k] == LinesOf(c, chain)[..k];
  }

  // ---- an append keeps the disk ----

  lemma AppendCommits(c: Config, w: World, m: Mem, e: Entry, now: nat, fault: Fault)
    requires DiskSound(c, w) && LiveSound(c, w, m) && Starts(c, m, e, now) && Renames(w.disk, m, fault)
    requires w.short.None? && !FallsShort(c, w.disk, m, e, now, fault)
    ensures DiskSound(c, AfterAppend(c, w, m, e, now, fault))
  {
    ChainGrows(c, w.chain, Compose(m, e, now));
  }

  lemma AppendFallsShort(c: Config, w: World, m: Mem, e: Entry, now: nat, fault: Fault)
    requires DiskSound(c, w) && LiveSound(c, w, m) && Starts(c, m, e, now) && Renames(w.disk, m, fault)
    requires w.short.None? && FallsShort(c, w.disk, m, e, now, fault)
    ensures var w' := AfterAppend(c, w, m, e, now, fault);
            DiskSound(c, w') && Jammed(c, w'.chain, w'.disk.chain) && w'.short == Some(|w.chain|)
  {
    var r, w' := Compose(m, e, now), AfterAppend(c, w, m, e, now, fault);
    ChainGrows(c, w.chain, r);
    JamStarts(c, w.chain, r, fault);
    GrownPrefix(c, w.chain, r, |w.chain|);
    JamRefuses(c, w'.chain, w'.disk);
  }

  lemma JammedCommits(c: Config, w: World, m: Mem, e: Entry, now: nat, fault: Fault)
    requires DiskSound(c, w) && LiveSound(c, w, m) && Starts(c, m, e, now) && Renames(w.disk, m, fault) && w.short.Some?
    ensures var w' := AfterAppend(c, w, m, e, now, fault);
            DiskSound(c, w') && Jammed(c, w'.chain, w'.disk.chain)
  {
    var r, w' := Compose(m, e, now), AfterAppend(c, w, m, e, now, fault);
    ChainGrows(c, w.chain, r);
    JamStays(c, w.chain, w.disk.chain, r, fault);
    GrownPrefix(c, w.chain, r, w.short.value);
    JamRefuses(c, w'.chain, w'.disk);
  }

  lemma AppendStops(c: Config, w: World, m: Mem, e: Entry, now: nat, fault: Fault)
    requires DiskSound(c, w) && LiveSound(c, w, m) && Starts(c, m, e, now) && !Renames(w.disk, m, fault)
    ensures DiskSound(c, AfterAppend(c, w, m, e, now, fault))
  {
    var r, w' := Compose(m, e, now), AfterAppend(c, w, m, e, now, fault);
    if w.short.None? {
      KeptTouches(c, r, fault);
      Extends(ChainBytes(c, w.chain), Kept(c, r, fault));
    } else {
      JamEnds(c, w.chain, w.disk.chain, r, fault);
      JamRefuses(c, w'.chain, w'.disk);
    }
  }

  /** An instance that served a prefix still does when the chain has grown. */
  lemma ServesStill(c: Config, chain: seq<Record>, r: Record, m: Mem)
    requires GoodChain(c, chain) && GoodChain(c, chain + [r])
             && LinesOf(c, chain + [r]) == LinesOf(c, chain) + [c.line(r)]
    requires ServesPrefix(c, chain, m)
    ensures ServesPrefix(c, chain + [r], m)
  {
    var k := m.head.seqNo;
    if m.offsets.Some? {
      SamePrefix(chain, r, k);
      SamePrefix(LinesOf(c, chain), c.line(r), k);
    }
  }

  lemma SamePrefix<T>(s: seq<T>, x: T, k: nat)
    requires k <= |s|
    ensures (s + [x])[..k] == s[..k]
  {
  }

  lemma WholePrefix<T>(s: seq<T>)
    ensures s[..|s|] == s
  {
  }

  /** The index grows by the offset the new line starts at. */
  lemma ServesNext(c: Config, chain: seq<Record>, r: Record, m: Mem, m': Mem)
    requires GoodChain(c, chain) && GoodChain(c, chain + [r])
             && LinesOf(c, chain + [r]) == LinesOf(c, chain) + [c.line(r)]
    requires ServesPrefix(c, chain, m) && m.offsets.Some? && m.head == HeadOf(c, chain)
    requires m'.head == HeadOf(c, chain + [r]) && m'.offsets == Some(m.offsets.value + [m.chainBytes])
    requires m'.chainBytes == m.chainBytes + |Written(c, r)|
    ensures ServesPrefix(c, chain + [r], m')
  {
    var ls := LinesOf(c, chain);
    WholePrefix(chain);
    WholePrefix(chain + [r]);
    WholePrefix(ls);
    WholePrefix(ls + [c.line(r)]);
    IndexGrows(m.offsets.value, ls, c.line(r));
    JoinAppend(ls, c.line(r));
  }

  lemma AppendedServes(c: Config, w: World, m: Mem, e: Entry, now: nat, fault: Fault)
    requires GoodChain(c, w.chain) && ServesPrefix(c, w.chain, m) && LiveSound(c, w, m)
    ensures var w', m' := AfterAppend(c, w, m, e, now, fault), AppendMem(c, w.disk, m, e, now, fault);
            && AllEncode(c, w'.chain) && ServesPrefix(c, w'.chain, m')
            && (m'.failure.None? ==> m'.head == HeadOf(c, w'.chain) && m'.offsets.Some?)
  {
    if Commits(c, w.disk, m, e, now, fault) { CommittedServes(c, w, m, e, now, fault); }
  }

  lemma CommittedServes(c: Config, w: World, m: Mem, e: Entry, now: nat, fault: Fault)
    requires GoodChain(c, w.chain) && ServesPrefix(c, w.chain, m) && LiveSound(c, w, m)
    requires Commits(c, w.disk, m, e, now, fault)
    ensures var g, m' := w.chain + [Compose(m, e, now)], AppendMem(c, w.disk, m, e, now, fault);
            && AllEncode(c, g) && ServesPrefix(c, g, m')
            && (m'.failure.None? ==> m'.head == HeadOf(c, g) && m'.offsets.Some?)
  {
    var r, m' := Compose(m, e, now), AppendMem(c, w.disk, m, e, now, fault);
    ChainGrows(c, w.chain, r);
    if fault.sync {
      ServesNext(c, w.chain, r, m, m');
    } else {
      ServesStill(c, w.chain, r, m);
    }
  }

  lemma AfterAppendKeeps(c: Config, w: World, e: Entry, now: nat, fault: Fault)
    requires Inv(c, w) && w.proc.Some?
    ensures DiskSound(c, AfterAppend(c, w, w.proc.value, e, now, fault))
    ensures w.chain <= AfterAppend(c, w, w.proc.value, e, now, fault).chain
  {
    var m := w.proc.value;
    if Starts(c, m, e, now) {
      if !Renames(w.disk, m, fault) {
        AppendStops(c, w, m, e, now, fault);
      } else if w.short.Some? {
        JammedCommits(c, w, m, e, now, fault);
      } else if FallsShort(c, w.disk, m, e, now, fault) {
        AppendFallsShort(c, w, m, e, now, fault);
      } else {
        AppendCommits(c, w, m, e, now, fault);
      }
    }
  }

  lemma DieKeeps(c: Config, w: World, e: Entry, now: nat, fault: Fault)
    requires Inv(c, w) && w.proc.Some?
    ensures Inv(c, Next(c, w, Die(e, now, fault)))
  {
    AfterAppendKeeps(c, w, e, now, fault);
  }

  /** What an append returned is in the chain. */
  lemma ReturnedKeeps(c: Config, w: World, e: Entry, now: nat, fault: Fault)
    requires w.proc.Some? && ReturnedSound(w) && LiveSound(c, w, w.proc.value)
    ensures ReturnedSound(Next(c, w, Do(e, now, fault)))
  {
    var w' := Next(c, w, Do(e, now, fault));
    forall r | r in w'.returned ensures r.seqNo < |w'.chain| && w'.chain[r.seqNo] == r {
      if r !in w.returned {
        assert AppendAnswer(c, w.disk, w.proc.value, e, now, fault) == Appended(r, c.hash(r));
      }
    }
  }

  /** A surviving process serves on only when its rename took effect and was synced. */
  lemma SurvivorIsCurrent(c: Config, w: World, e: Entry, now: nat, fault: Fault)
    requires Inv(c, w) && w.proc.Some? && AppendMem(c, w.disk, w.proc.value, e, now, fault).failure.None?
    ensures LiveSound(c, AfterAppend(c, w, w.proc.value, e, now, fault),
                      AppendMem(c, w.disk, w.proc.value, e, now, fault))
  {
    var m := w.proc.value;
    AppendedServes(c, w, m, e, now, fault);
    if Starts(c, m, e, now) {
      if w.short.Some? {
        JammedCommits(c, w, m, e, now, fault);
      } else if FallsShort(c, w.disk, m, e, now, fault) {
        AppendFallsShort(c, w, m, e, now, fault);
      }
    }
  }

  /** The index of a whole chain fits, and so does that of any part of it. */
  lemma WholeFits(c: Config, w: World, m: Mem)
    requires GoodChain(c, w.chain) && m.head.seqNo <= |w.chain| && ChainBytes(c, w.chain) <= w.disk.chain
    ensures IndexFits(c, w, m)
  {
    var ls, k := LinesOf(c, w.chain), m.head.seqNo;
    JoinConcat(ls[..k], ls[k..]);
    assert ls[..k] + ls[k..] == ls;
  }

  /** After an append over a short line, nobody's index is the file's any more. */
  lemma JammedIndex(c: Config, w: World, m: Mem, e: Entry, now: nat, fault: Fault)
    requires DiskSound(c, w) && LiveSound(c, w, m) && ServesPrefix(c, w.chain, m) && Starts(c, m, e, now)
             && w.short.Some?
    ensures var w', m' := AfterAppend(c, w, m, e, now, fault), AppendMem(c, w.disk, m, e, now, fault);
            && AllEncode(c, w'.chain) && |w.chain| <= m'.head.seqNo <= |w'.chain| && !IndexFits(c, w', m')
  {
    var r, w', m' := Compose(m, e, now), AfterAppend(c, w, m, e, now, fault), AppendMem(c, w.disk, m, e, now, fault);
    AppendedServes(c, w, m, e, now, fault);
    if m'.failure.None? {
      ChainGrows(c, w.chain, r);
      JamStays(c, w.chain, w.disk.chain, r, fault);
      WholePrefix(LinesOf(c, w'.chain));
      if IndexFits(c, w', m') { FewerLines(c, w'.chain, w'.disk.chain); }
    } else {
      JamEnds(c, w.chain, w.disk.chain, r, fault);
      JamRefuses(c, w.chain, w.disk.(chain := w'.disk.chain));
      WholePrefix(LinesOf(c, w.chain));
      if Commits(c, w.disk, m, e, now, fault) { GrownPrefix(c, w.chain, r, |w.chain|); }
    }
  }

  /** At the first short line, an index that reaches past it no longer fits and a shorter one does. */
  lemma ShortIndex(c: Config, w: World, m: Mem, e: Entry, now: nat, fault: Fault)
    requires DiskSound(c, w) && LiveSound(c, w, m) && ServesPrefix(c, w.chain, m)
    requires Starts(c, m, e, now) && w.short.None? && FallsShort(c, w.disk, m, e, now, fault)
    ensures var w', m' := AfterAppend(c, w, m, e, now, fault), AppendMem(c, w.disk, m, e, now, fault);
            && AllEncode(c, w'.chain) && m'.head.seqNo <= |w'.chain| && ServesPrefix(c, w'.chain, m')
            && IndexSound(c, w', m')
  {
    var r, w', m' := Compose(m, e, now), AfterAppend(c, w, m, e, now, fault), AppendMem(c, w.disk, m, e, now, fault);
    AppendedServes(c, w, m, e, now, fault);
    AppendFallsShort(c, w, m, e, now, fault);
    if fault.sync {
      WholePrefix(LinesOf(c, w'.chain));
      if IndexFits(c, w', m') { FewerLines(c, w'.chain, w'.disk.chain); }
    }
  }

  lemma IndexKeeps(c: Config, w: World, e: Entry, now: nat, fault: Fault)
    requires Inv(c, w) && w.proc.Some?
    ensures var m := w.proc.value;
            var w', m' := AfterAppend(c, w, m, e, now, fault), AppendMem(c, w.disk, m, e, now, fault);
            AllEncode(c, w'.chain) && ServesPrefix(c, w'.chain, m') && IndexSound(c, w', m')
  {
    var m := w.proc.value;
    var w', m' := AfterAppend(c, w, m, e, now, fault), AppendMem(c, w.disk, m, e, now, fault);
    AppendedServes(c, w, m, e, now, fault);
    if Starts(c, m, e, now) {
      if w.short.Some? {
        JammedIndex(c, w, m, e, now, fault);
      } else if FallsShort(c, w.disk, m, e, now, fault) {
        ShortIndex(c, w, m, e, now, fault);
      } else {
        AfterAppendKeeps(c, w, e, now, fault);
        if m'.offsets.Some? { WholeFits(c, w', m'); }
      }
    }
  }

  lemma Assembled(c: Config, w: World, m: Mem, returned: seq<Record>)
    requires DiskSound(c, w) && ServesPrefix(c, w.chain, m) && IndexSound(c, w, m) && LiveSound(c, w, m)
    requires ReturnedSound(w.(returned := returned))
    ensures Inv(c, w.(proc := Some(m), returned := returned))
  {
  }

  lemma DoKeeps(c: Config, w: World, e: Entry, now: nat, fault: Fault)
    requires Inv(c, w) && w.proc.Some?
    ensures Inv(c, Next(c, w, Do(e, now, fault)))
  {
    var m, returned := w.proc.value, Next(c, w, Do(e, now, fault)).returned;
    var w', m' := AfterAppend(c, w, m, e, now, fault), AppendMem(c, w.disk, m, e, now, fault);
    AfterAppendKeeps(c, w, e, now, fault);
    IndexKeeps(c, w, e, now, fault);
    ReturnedKeeps(c, w, e, now, fault);
    if m'.failure.None? { SurvivorIsCurrent(c, w, e, now, fault); }
    Assembled(c, w', m', returned);
  }

  lemma StepKeeps(c: Config, w: World, s: Step)
    requires Inv(c, w) && Enabled(c, w, s)
    ensures Inv(c, Next(c, w, s))
  {
    match s {
      case Open(first, mem) => OpenKeeps(c, w, first, mem);
      case Do(e, now, fault) => DoKeeps(c, w, e, now, fault);
      case Die(e, now, fault) => DieKeeps(c, w, e, now, fault);
      case Kill =>
      case Refuse(why) =>
    }
  }

  lemma {:induction false} RunKeeps(c: Config, w: World, steps: seq<Step>, w': World)
    requires Inv(c, w) && Reaches(c, w, steps, w')
    ensures Inv(c, w')
    decreases |steps|
  {
    if steps != [] {
      StepKeeps(c, w, steps[0]);
      RunKeeps(c, Next(c, w, steps[0]), steps[1..], w');
    }
  }

  lemma StartInv(c: Config)
    requires Faithful(c)
    ensures Inv(c, Start())
  {
  }

  lemma ReachedInv(c: Config, steps: seq<Step>, w: World)
    requires Faithful(c) && Reaches(c, Start(), steps, w)
    ensures Inv(c, w)
  {
    StartInv(c);
    RunKeeps(c, Start(), steps, w);
  }

  // ---- the theorems ----

  /** What startup decides over any disk the history allows. */
  lemma Decides(c: Config, w: World)
    requires DiskSound(c, w)
    ensures Recover(c, w.disk).None? <==> w.stopped || w.short.Some? || w.disk.head.Torn?
    ensures Recover(c, w.disk).Some? ==>
              && Recover(c, w.disk) == Some(HeadOf(c, w.chain)) && w.disk.chain == ChainBytes(c, w.chain)
              && Lines(w.disk.chain) == LinesOf(c, w.chain) && Partial(w.disk.chain) == []
  {
    LinesAreWhole(c, w.chain);
    if w.short.None? && w.disk.head.HeadIs? { RecoverDecides(c, w.chain, w.disk); }
  }

  /** Whatever happened before, a directory a restart accepts holds exactly the renamed-in records: one
      line each, linked from genesis, ending at the head, with every returned append among them. */
  lemma CrashSafety(c: Config, steps: seq<Step>, w: World)
    requires Faithful(c) && Reaches(c, Start(), steps, w) && Recover(c, w.disk).Some?
    ensures GoodChain(c, w.chain)
    ensures Lines(w.disk.chain) == LinesOf(c, w.chain) && Partial(w.disk.chain) == []
    ensures Recover(c, w.disk) == Some(HeadOf(c, w.chain))
    ensures forall r | r in w.returned :: r.seqNo < |w.chain| && w.chain[r.seqNo] == r
    ensures forall r | r in w.returned :: c.encodes(r) && Lines(w.disk.chain)[r.seqNo] + [NEWLINE] == Written(c, r)
  {
    ReachedInv(c, steps, w);
    Decides(c, w);
    forall r | r in w.returned ensures c.encodes(r) && LinesOf(c, w.chain)[r.seqNo] + [NEWLINE] == Written(c, r) {
      LinesOfAt(c, w.chain, r.seqNo);
    }
  }

  /** In every reachable state a restart refuses exactly when some append put a byte of its line in the file
      and ended before its rename, or some line fell short without an error, or the head file is torn;
      otherwise it accepts at the head of everything renamed in. */
  lemma ExactRecovery(c: Config, steps: seq<Step>, w: World)
    requires Faithful(c) && Reaches(c, Start(), steps, w)
    ensures Recover(c, w.disk)
            == if w.stopped || w.short.Some? || w.disk.head.Torn? then None else Some(HeadOf(c, w.chain))
    ensures w.disk.head.HeadIs? ==> w.disk.head.head == HeadOf(c, w.chain)
  {
    ReachedInv(c, steps, w);
    Decides(c, w);
  }

  /** Where every write is whole or throws, this is the documented rule: a head file, once there, is refused
      exactly after an append that reached the chain file and not its rename. */
  lemma RecoveryAsDocumented(c: Config, steps: seq<Step>, w: World)
    requires Faithful(c) && Reaches(c, Start(), steps, w) && w.disk.head.HeadIs? && w.short.None?
    ensures Recover(c, w.disk) == if w.stopped then None else Some(w.disk.head.head)
  {
    ExactRecovery(c, steps, w);
  }

  /** A first start whose head write tears leaves a directory that every restart refuses, though no append ran. */
  lemma TornFirstHead(c: Config, first: FileWrite)
    requires first == Cut || first == Throws(InPart)
    ensures var m := Mem(Genesis(c), if first.Throws? then Some(NotOpened) else None,
                         if first.Throws? then None else Some([]), 0, 0);
            && Enabled(c, Start(), Open(first, m))
            && var w := Next(c, Start(), Open(first, m));
               Reaches(c, Start(), [Open(first, m)], w)
               && w.disk.head.Torn? && Recover(c, w.disk).None? && w.chain == [] && !w.stopped && w.short.None?
  {
    var m := Mem(Genesis(c), if first.Throws? then Some(NotOpened) else None,
                 if first.Throws? then None else Some([]), 0, 0);
    assert Lines([]) == [] && Partial([]) == [];
    assert [Open(first, m)][1..] == [];
  }

  /** A line that falls short without an error: the append renames and returns, and every restart refuses. */
  lemma ShortLineReturned(c: Config, e: Entry, now: nat)
    requires Faithful(c) && c.encodes(Record(0, now, e.fields, e.payload, e.metadata, GENESIS))
    ensures var m := Mem(Genesis(c), None, Some([]), 0, 0);
            var steps := [Open(Complete, m), Do(e, now, SOUND.(line := Short(0)))];
            && Enabled(c, Start(), steps[0])
            && var w1 := Next(c, Start(), steps[0]);
               && Enabled(c, w1, steps[1])
               && var w := Next(c, w1, steps[1]);
                  Reaches(c, Start(), steps, w) && |w.returned| == 1 && !w.stopped && w.short == Some(0)
                  && w.disk.head.HeadIs? && Recover(c, w.disk).None?
  {
    var m := Mem(Genesis(c), None, Some([]), 0, 0);
    var steps := [Open(Complete, m), Do(e, now, SOUND.(line := Short(0)))];
    assert Lines([]) == [] && Partial([]) == [];
    var w1 := Next(c, Start(), steps[0]);
    var w := Next(c, w1, steps[1]);
    assert steps[1..] == [steps[1]] && steps[1..][1..] == [];
    assert Reaches(c, w, [], w) && Reaches(c, w1, [steps[1]], w);
    ExactRecovery(c, steps, w);
  }

  /** Steps of one process that keep it running. */
  predicate SameProcess(steps: seq<Step>) {
    forall i :: 0 <= i < |steps| ==> steps[i].Do? || steps[i].Refuse?
  }

  /** Once the log refuses, its process never changes the directory again, and keeps its first reason. */
  lemma {:induction false} RefusalIsFinal(c: Config, w: World, steps: seq<Step>, w': World)
    requires w.proc.Some? && w.proc.value.failure.Some?
    requires SameProcess(steps) && Reaches(c, w, steps, w')
    ensures w'.disk == w.disk && w'.proc == w.proc && w'.chain == w.chain && w'.returned == w.returned
    decreases |steps|
  {
    if steps != [] {
      assert Next(c, w, steps[0]) == w;
      RefusalIsFinal(c, w, steps[1..], w');
    }
  }
}
