/** The chain writer: a directory on disk, one log instance over it, and each operation's exact effect.
    Every I/O step can fail, and a write can also fall short without an error; a `Fault` says what each step
    of one append does, and a process that dies at a step leaves the disk that a failure there leaves. */
module Log {
  import opened Common
  import opened Unicode
  import opened Json
  import opened Canonical
  import opened Encoding
  import opened History
  import opened ChainFile
  import opened AnchorNames

  // ---- what is on disk and in memory ----

  datatype Head = Head(chainId: Str, seqNo: nat, digest: Digest)

  /** `Torn` is a file whose write stopped part way: it does not parse. */
  datatype HeadFile = NoFile | Torn | HeadIs(head: Head)

  datatype Anchor = Anchor(head: Head, commitment: Digest, timestamp: nat, signature: Bytes)

  datatype AnchorFile = TornAnchor | Signed(anchor: Anchor)

  datatype Disk = Disk(chain: Bytes, head: HeadFile, tmp: HeadFile, anchors: seq<Member<AnchorFile>>)

  datatype Reason = NotOpened | AppendFailed | HeadStuck | RefusedBy(why: Str)

  /** The fields of a log instance. */
  datatype Mem = Mem(head: Head, failure: Option<Reason>, offsets: Option<seq<nat>>, chainBytes: nat, appended: nat)

  /** What appending the line does. A short write keeps a part and raises no error: the count that
      `writeSync` returns is not looked at. */
  datatype LineWrite = Whole | Short(kept: nat) | Fails(kept: nat)

  /** What a file write that throws leaves: the file as it was, a torn file, or all of it. */
  datatype Leftover = Untouched | InPart | InFull

  /** What writing a whole file does; `Cut` leaves a torn file and raises no error. */
  datatype FileWrite = Complete | Cut | Throws(left: Leftover)

  /** What each step of one append does: the line, reading the head, the temporary head, the rename, the
      sync of the directory. The first that throws ends the append. */
  datatype Fault = Fault(line: LineWrite, read: bool, tmp: FileWrite, rename: bool, sync: bool)

  const SOUND: Fault := Fault(Whole, true, Complete, true, true)

  /** What a caller hands the log, after defaulting. The log adds position, time and link. */
  datatype Entry = Entry(fields: seq<Str>, payload: Option<Js>, metadata: Option<Js>)

  datatype Answer = Unavailable | Rejected | Appended(record: Record, digest: Digest)

  /** What one deployment's log is built from: its chain id, which records encode, the line and the
      digest of a record, how a line is read back, and the commitment to a head. */
  datatype Config = Config(
    chainId: Str, encodes: Record -> bool, line: Record -> Bytes, parse: Bytes -> Option<Record>,
    hash: Hash, commit: Head -> Option<Digest>)

  /** Encoding v3 under a hash function. */
  function V3(H: Bytes -> Digest, chainId: Str): Config {
    Config(chainId,
           (r: Record) => Encodes(r),
           (r: Record) => if Lineable(r) then Line(r) else [],
           (b: Bytes) => ParseLine(b),
           RecordHash(H),
           (h: Head) => CommitmentOf(H, h))
  }

  /** The record's line, which is not empty, and what it reads back as. */
  ghost predicate LineOf(c: Config, r: Record) {
    OneLine(c.line(r)) && c.line(r) != [] && c.parse(c.line(r)) == Some(r)
  }

  /** The bytes start as some line starts. */
  ghost predicate Started(c: Config, q: Bytes) {
    q != [] && exists r: Record :: c.encodes(r) && c.line(r) != [] && c.line(r)[0] == q[0]
  }

  /** What the chain proofs ask of an encoding: a record that encodes is one line and reads back as itself,
      and a line that was started and not ended runs into no line that follows it. */
  ghost predicate Faithful(c: Config) {
    && (forall r: Record :: c.encodes(r) ==> LineOf(c, r))
    && (forall q: Bytes, r: Record :: Started(c, q) && c.encodes(r) ==> c.parse(q + c.line(r)).None?)
  }

  lemma V3Faithful(H: Bytes -> Digest, chainId: Str)
    ensures Faithful(V3(H, chainId))
  {
    var c := V3(H, chainId);
    forall r: Record | c.encodes(r) ensures LineOf(c, r) { V3Line(H, chainId, r); }
    forall q: Bytes, r: Record | Started(c, q) && c.encodes(r) ensures c.parse(q + c.line(r)).None? {
      var r0: Record :| c.encodes(r0) && c.line(r0) != [] && c.line(r0)[0] == q[0];
      V3Line(H, chainId, r0);
      V3Line(H, chainId, r);
      LinesNeverMerge(q, r);
    }
  }

  lemma V3Line(H: Bytes -> Digest, chainId: Str, r: Record)
    requires Encodes(r)
    ensures LineOf(V3(H, chainId), r) && Lineable(r) && V3(H, chainId).line(r) == Line(r) && Line(r)[0] == LBRACE
  {
    EncodesLine(r);
    LineRoundTrip(r);
    LinesNeverMerge([LBRACE], r);
  }

  predicate EncodesAsV3(c: Config, H: Bytes -> Digest, r: Record) {
    c.encodes(r) == Encodes(r) && (Lineable(r) ==> c.line(r) == Line(r)) && c.hash(r) == RecordHash(H)(r)
  }

  predicate ReadsAsV3(c: Config, b: Bytes) { c.parse(b) == ParseLine(b) }

  predicate CommitsAsV3(c: Config, H: Bytes -> Digest, h: Head) { c.commit(h) == CommitmentOf(H, h) }

  /** Encoding v3, one use at a time. */
  ghost predicate IsV3(c: Config, H: Bytes -> Digest) {
    && (forall r: Record :: EncodesAsV3(c, H, r))
    && (forall b: Bytes :: ReadsAsV3(c, b))
    && (forall h: Head :: CommitsAsV3(c, H, h))
  }

  lemma V3IsV3(H: Bytes -> Digest, chainId: Str)
    ensures IsV3(V3(H, chainId), H)
  {
  }

  // ---- the specification of each operation ----

  function Genesis(c: Config): Head { Head(c.chainId, 0, GENESIS) }

  predicate Encodes(r: Record) { Valid(r) && Digestible(r) }

  lemma EncodesLine(r: Record)
    requires Encodes(r)
    ensures Lineable(r) && OneLine(Line(r)) && ParseLine(Line(r)) == Some(r)
  {
    if r.payload.Some? { JcsExactly(r.payload.value); }
    if r.metadata.Some? { JcsExactly(r.metadata.value); }
    LineRoundTrip(r);
  }

  function CommitmentOf(H: Bytes -> Digest, h: Head): Option<Digest> {
    if h.seqNo <= MAX_SAFE && |Utf8(h.chainId)| < FIELD_LIMIT
    then Some(H(HeadPreimage(h.seqNo, h.digest, h.chainId))) else None
  }

  /** The line as written, newline included. */
  function Written(c: Config, r: Record): Bytes {
    c.line(r) + [NEWLINE]
  }

  /** `openHead` on a directory that has a head file: the head, when the last record agrees with it. */
  function HeadOnDisk(c: Config, chain: Bytes, h: Head): Option<Head> {
    if h.chainId != c.chainId then None
    else if chain != [] && Partial(chain) != [] then None
    else if h.seqNo == 0 then
      if (Lines(chain) != [] && LastLine(chain) != []) || h.digest != GENESIS then None else Some(h)
    else if chain == [] || Lines(chain) == [] then None
    else if LastIs(c, LastLine(chain), h) then Some(h)
    else None
  }

  /** The last line holds the record the head names: its seq, and its digest recomputed. */
  predicate LastIs(c: Config, last: Bytes, h: Head) {
    match c.parse(last)
    case None => false
    case Some(r) => r.seqNo == h.seqNo - 1 && c.encodes(r) && c.hash(r) == h.digest
  }

  /** What startup decides: the head it accepts, or None when it refuses. */
  function Recover(c: Config, d: Disk): Option<Head> {
    match d.head
    case NoFile => if d.chain == [] then Some(Genesis(c)) else None
    case Torn => None
    case HeadIs(h) =>
      if HeadOnDisk(c, d.chain, h).Some? && Partial(d.chain) == [] && |Lines(d.chain)| == h.seqNo then Some(h) else None
  }

  /** Startup creates the head file when there is none; that write can throw or fall short too. */
  function OpenDisk(c: Config, d: Disk, first: FileWrite): Disk {
    if d.head.NoFile? && d.chain == [] then d.(head := Left(first, NoFile, Genesis(c))) else d
  }

  /** The file a write leaves. */
  function Left(write: FileWrite, was: HeadFile, h: Head): HeadFile {
    match write
    case Complete => HeadIs(h)
    case Cut => Torn
    case Throws(left) => if left.Untouched? then was else if left.InPart? then Torn else HeadIs(h)
  }

  /** The head `openHead` returns, or None when it throws. */
  function OpenedHead(c: Config, d: Disk, first: FileWrite): Option<Head> {
    match d.head
    case NoFile => if d.chain == [] && !first.Throws? then Some(Genesis(c)) else None
    case Torn => None
    case HeadIs(h) => HeadOnDisk(c, d.chain, h)
  }

  /** A just-opened instance. It serves only when the whole index agreed with the head. */
  predicate IsOpened(c: Config, d: Disk, first: FileWrite, m: Mem) {
    var h := OpenedHead(c, d, first);
    && m.appended == 0
    && m.head == (if h.Some? then h.value else Genesis(c))
    && (m.failure.None? <==> h.Some? && Partial(d.chain) == [] && |Lines(d.chain)| == h.value.seqNo)
    && (m.failure.Some? ==> m.failure == Some(NotOpened) && m.offsets == None && m.chainBytes == 0)
    && (m.failure.None? ==> m.offsets.Some? && IsIndex(m.offsets.value, Lines(d.chain)) && m.chainBytes == |d.chain|)
  }

  /** The constructor decides what `Recover` says: an instance serves exactly when startup accepts the
      directory, unless the first head write over a new directory throws. */
  lemma OpenedServesExactly(c: Config, d: Disk, first: FileWrite, m: Mem)
    requires IsOpened(c, d, first, m)
    ensures m.failure.None? <==> Recover(c, d).Some? && !(d.head.NoFile? && first.Throws?)
    ensures m.failure.None? ==> Recover(c, d) == Some(m.head)
  {
    assert Lines([]) == [] && Partial([]) == [];
  }

  /** The last line holds a record that ends a chain with this head: at the position before it, and of its digest. */
  ghost predicate EndsAt(c: Config, last: Bytes, h: Head) {
    exists r: Record :: c.parse(last) == Some(r) && r.seqNo + 1 == h.seqNo && c.encodes(r) && c.hash(r) == h.digest
  }

  /** A directory that vouches for a head: the head file names it under this chain id, the chain file is whole lines,
      as many as it counts, and the last of them ends there, or none does and it is at genesis. */
  ghost predicate Vouches(c: Config, d: Disk, h: Head) {
    && d.head == HeadIs(h) && h.chainId == c.chainId
    && Partial(d.chain) == [] && |Lines(d.chain)| == h.seqNo
    && if h.seqNo == 0 then h.digest == GENESIS else EndsAt(c, LastLine(d.chain), h)
  }

  /** For every directory, however it came about: a new instance serves exactly over one that vouches for its head,
      or over an empty one without a head file when the first head write does not throw. */
  lemma StartupExactly(c: Config, d: Disk, first: FileWrite, m: Mem)
    requires IsOpened(c, d, first, m)
    ensures m.failure.None? <==> Vouches(c, d, m.head) || (d.head.NoFile? && d.chain == [] && !first.Throws?)
    ensures m.failure.None? && d.head.NoFile? ==> m.head == Head(c.chainId, 0, GENESIS)
    ensures m.failure.None? && m.head.seqNo == 0 ==>
              m.head.chainId == c.chainId && forall i :: 0 <= i < 32 ==> m.head.digest[i] == 0
  {
    assert Lines([]) == [] && Partial([]) == [];
    SplitNothing(d.chain);
    if d.head.HeadIs? && Lines(d.chain) != [] && c.parse(LastLine(d.chain)).Some? {
      assert LastIs(c, LastLine(d.chain), d.head.head) ==> EndsAt(c, LastLine(d.chain), d.head.head);
    }
  }

  lemma SplitNothing(b: Bytes)
    ensures Lines(b) == [] && Partial(b) == [] ==> b == []
  {
    if b != [] { SplitNonEmpty(b); }
  }

  /** Replacing what stands in the last line by anything of another digest makes every startup refuse. */
  lemma EditedLastIsRefused(c: Config, d: Disk, first: FileWrite, m: Mem)
    requires IsOpened(c, d, first, m) && d.head.HeadIs? && d.head.head.seqNo > 0 && Lines(d.chain) != []
    requires match c.parse(LastLine(d.chain)) case None => true case Some(r) => c.hash(r) != d.head.head.digest
    ensures m.failure.Some?
  {
    StartupExactly(c, d, first, m);
  }

  function Compose(m: Mem, e: Entry, now: nat): Record {
    Record(m.head.seqNo, now, e.fields, e.payload, e.metadata, m.head.digest)
  }

  function NextHead(c: Config, m: Mem, r: Record): Head {
    Head(c.chainId, r.seqNo + 1, c.hash(r))
  }

  /** The append gets as far as writing: the log accepts and the record encodes. */
  predicate Starts(c: Config, m: Mem, e: Entry, now: nat) {
    m.failure.None? && c.encodes(Compose(m, e, now))
  }

  /** The rename takes effect over the head this writer expects. */
  predicate RenamesOver(d: Disk, expected: Head, fault: Fault) {
    Stages(d, expected, fault) && !fault.tmp.Throws? && fault.rename
  }

  /** The temporary head is written. */
  predicate Stages(d: Disk, expected: Head, fault: Fault) {
    !fault.line.Fails? && fault.read && d.head == HeadIs(expected)
  }

  predicate Renames(d: Disk, m: Mem, fault: Fault) { RenamesOver(d, m.head, fault) }

  /** At least one byte of the new line reaches the chain file. */
  predicate Touches(fault: Fault) {
    fault.line.Whole? || fault.line.kept > 0
  }

  /** The part of a line that reaches the chain file. */
  function Part(line: Bytes, fault: Fault): Bytes {
    if fault.line.Whole? then line else line[..Min(fault.line.kept, |line|)]
  }

  function Kept(c: Config, r: Record, fault: Fault): Bytes { Part(Written(c, r), fault) }

  function Stored(d: Disk, expected: Head, next: Head, line: Bytes, fault: Fault): Disk {
    var d1 := d.(chain := d.chain + Part(line, fault));
    if RenamesOver(d, expected, fault) then d1.(head := Left(fault.tmp, d.tmp, next), tmp := NoFile)
    else if Stages(d, expected, fault) then d1.(tmp := Left(fault.tmp, d.tmp, next))
    else d1
  }

  /** The byte length counted is that of the whole line, whatever reached the file. */
  function StoredMem(d: Disk, m: Mem, next: Head, size: nat, fault: Fault): Mem {
    if fault.line.Fails? then m.(failure := Some(AppendFailed))
    else if !Renames(d, m, fault) || !fault.sync then m.(failure := Some(HeadStuck))
    else Mem(next, None, if m.offsets.Some? then Some(m.offsets.value + [m.chainBytes]) else None,
             m.chainBytes + size, m.appended + 1)
  }

  function AppendDisk(c: Config, d: Disk, m: Mem, e: Entry, now: nat, fault: Fault): Disk {
    var r := Compose(m, e, now);
    if Starts(c, m, e, now) then Stored(d, m.head, NextHead(c, m, r), Written(c, r), fault) else d
  }

  function AppendMem(c: Config, d: Disk, m: Mem, e: Entry, now: nat, fault: Fault): Mem {
    var r := Compose(m, e, now);
    if Starts(c, m, e, now) then StoredMem(d, m, NextHead(c, m, r), |Written(c, r)|, fault) else m
  }

  function AppendAnswer(c: Config, d: Disk, m: Mem, e: Entry, now: nat, fault: Fault): Answer {
    var r := Compose(m, e, now);
    if m.failure.Some? then Unavailable
    else if !c.encodes(r) then Rejected
    else if Renames(d, m, fault) && fault.sync then Appended(r, c.hash(r))
    else Unavailable
  }

  /** An append returns exactly when the log accepts, the record encodes, and no step of its I/O throws, the head
      on disk being the instance's; what it returns is the record at the next position, at this time, with what it
      was handed, linked to the head. */
  lemma AppendReturnsExactly(c: Config, d: Disk, m: Mem, e: Entry, now: nat, fault: Fault, r: Record)
    requires r.seqNo == m.head.seqNo && r.timestamp == now && r.prev == m.head.digest
    requires r.fields == e.fields && r.payload == e.payload && r.metadata == e.metadata
    ensures var a, m' := AppendAnswer(c, d, m, e, now, fault), AppendMem(c, d, m, e, now, fault);
            && (a.Appended? <==>
                 && m.failure.None? && c.encodes(r) && !fault.line.Fails? && fault.read && d.head == HeadIs(m.head)
                 && !fault.tmp.Throws? && fault.rename && fault.sync)
            && (a.Appended? ==>
                 && a.record == r && a.digest == c.hash(r) && m'.failure.None?
                 && m'.head == Head(c.chainId, m.head.seqNo + 1, c.hash(r)) && m'.appended == m.appended + 1)
  {
  }

  /** Any other append changes nothing, when the log refused before or the record does not encode, or else leaves the
      log refusing. At most a part of the line is added to the chain file, and all of it when its write is whole. */
  lemma OtherwiseRefuses(c: Config, d: Disk, m: Mem, e: Entry, now: nat, fault: Fault)
    ensures var a, d', m' := AppendAnswer(c, d, m, e, now, fault), AppendDisk(c, d, m, e, now, fault),
                             AppendMem(c, d, m, e, now, fault);
            var r := Compose(m, e, now);
            && (m.failure.Some? ==> a == Unavailable && d' == d && m' == m)
            && (m.failure.None? && !c.encodes(r) ==> a == Rejected && d' == d && m' == m)
            && (m.failure.None? && c.encodes(r) && !a.Appended? ==> a == Unavailable && m'.failure.Some?)
            && (m.failure.None? && c.encodes(r) ==>
                 && d.chain <= d'.chain && d'.chain[|d.chain|..] <= c.line(r) + [NEWLINE]
                 && (fault.line.Whole? ==> d'.chain == d.chain + (c.line(r) + [NEWLINE])))
            && d'.anchors == d.anchors
  {
    if m.failure.None? && c.encodes(Compose(m, e, now)) {
      var p := Kept(c, Compose(m, e, now), fault);
      assert (d.chain + p)[|d.chain|..] == p;
    }
  }

  // ---- pages ----

  datatype Served = Served(seqNo: nat, digest: Digest, line: Bytes)

  /** One line parsed, its seq checked against its position, its digest recomputed. */
  function ServeLine(c: Config, l: Bytes, at: nat): Option<Served> {
    match c.parse(l)
    case None => None
    case Some(r) =>
      if r.seqNo == at && c.encodes(r) then Some(Served(r.seqNo, c.hash(r), l)) else None
  }

  function Server(c: Config): (Bytes, nat) -> Option<Served> {
    (l: Bytes, at: nat) => ServeLine(c, l, at)
  }

  /** Each line in turn, at consecutive positions; one refusal refuses all. */
  function Each(serve: (Bytes, nat) -> Option<Served>, ls: seq<Bytes>, from: nat): Option<seq<Served>> {
    if ls == [] then Some([])
    else match (serve(ls[0], from), Each(serve, ls[1..], from + 1))
         case (Some(first), Some(rest)) => Some([first] + rest)
         case _ => None
  }

  function After(before: seq<Served>, rest: Option<seq<Served>>): Option<seq<Served>> {
    match rest case None => None case Some(r) => Some(before + r)
  }

  lemma EachStep(serve: (Bytes, nat) -> Option<Served>, ls: seq<Bytes>, i: nat, from: nat, before: seq<Served>)
    requires i < |ls|
    ensures After(before, Each(serve, ls[i..], from + i))
         == match serve(ls[i], from + i)
            case None => None
            case Some(one) => After(before + [one], Each(serve, ls[i + 1..], from + i + 1))
  {
    assert ls[i..][1..] == ls[i + 1..];
    var rest := Each(serve, ls[i + 1..], from + i + 1);
    if serve(ls[i], from + i).Some? && rest.Some? {
      Regroup3(before, [serve(ls[i], from + i).value], rest.value);
    }
  }

  function ServeLines(c: Config, ls: seq<Bytes>, from: nat): Option<seq<Served>> {
    Each(Server(c), ls, from)
  }

  /** The lines of one byte range, refused unless it is whole lines, as many as expected. */
  function RangeLines(chain: Bytes, start: nat, end: nat, count: nat): Option<seq<Bytes>> {
    if start > end || end > |chain| then None
    else
      var text := chain[start..end];
      if text == [] || Partial(text) != [] || |Lines(text)| != count then None else Some(Lines(text))
  }

  function PageRecords(c: Config, chain: Bytes, m: Mem, from: nat, to: nat): Option<seq<Served>>
    requires m.offsets.Some?
  {
    if from >= to then Some([])
    else if from >= |m.offsets.value| then None
    else
      var start := m.offsets.value[from];
      var end := if to < |m.offsets.value| then m.offsets.value[to] else m.chainBytes;
      match RangeLines(chain, start, end, to - from)
      case None => None
      case Some(ls) => ServeLines(c, ls, from)
  }

  /** A page takes the anchors after `from` up to `to`, and at 0 the one at genesis too. */
  predicate InPage(name: Str, from: nat, to: nat) {
    match SeqOfName(name)
    case None => false
    case Some(s) => (s > from || (from == 0 && s == 0)) && s <= to
  }

  /** The anchors of one page, in name order; None is a file that does not parse. */
  function PageAnchors(files: seq<Member<AnchorFile>>, from: nat, to: nat): Option<seq<Anchor>> {
    if files == [] then Some([])
    else
      var n := |files| - 1;
      match PageAnchors(files[..n], from, to)
      case None => None
      case Some(before) =>
        if !InPage(files[n].key, from, to) then Some(before)
        else match files[n].value
             case TornAnchor => None
             case Signed(a) => Some(before + [a])
  }

  datatype ChainPage = ChainPage(
    head: Head, commitment: Digest, records: seq<Served>, anchors: seq<Anchor>, next: nat)

  /** `page`; None is a thrown error. */
  function PageOf(c: Config, d: Disk, m: Mem, from: int, limit: int): Option<ChainPage> {
    if m.offsets.None? || from < 0 || limit < 1 then None
    else
      var to := Min(m.head.seqNo, from + limit);
      match (c.commit(m.head), PageRecords(c, d.chain, m, from, to), PageAnchors(Sort(d.anchors), from, to))
      case (Some(k), Some(records), Some(anchors)) => Some(ChainPage(m.head, k, records, anchors, to))
      case _ => None
  }

  // ---- anchors ----

  /** What an export signs: captured before the signature, unsigned until it arrives. */
  function Capture(c: Config, m: Mem, now: nat): Option<Anchor> {
    if m.failure.Some? then None
    else match c.commit(m.head)
         case None => None
         case Some(k) => Some(Anchor(m.head, k, now, []))
  }

  /** Writing a file replaces one of the same name, as setting a member replaces one of the same key. */
  function Put<T>(ms: seq<Member<T>>, key: Str, v: T): seq<Member<T>> {
    if ms == [] then [Member(key, v)]
    else if ms[0].key == key then [Member(key, v)] + ms[1..]
    else [ms[0]] + Put(ms[1..], key, v)
  }

  /** The anchor file a write leaves. */
  function LeftAnchor(a: Anchor, signature: Bytes, write: FileWrite): AnchorFile {
    if write.Complete? || (write.Throws? && write.left.InFull?) then Signed(a.(signature := signature)) else TornAnchor
  }

  /** The write does something to the file. */
  predicate Writes(write: FileWrite) { !(write.Throws? && write.left.Untouched?) }

  function PutAnchor(d: Disk, a: Anchor, f: AnchorFile): Disk {
    d.(anchors := Put(d.anchors, AnchorName(a.head.seqNo, a.timestamp), f))
  }

  /** The directory after an anchor's file was written, or left alone. */
  function Filed(d: Disk, a: Anchor, signature: Bytes, write: FileWrite): Disk {
    if Writes(write) then PutAnchor(d, a, LeftAnchor(a, signature, write)) else d
  }

  // ---- the classes ----

  /** A chain directory. */
  class Directory {
    var chain: Bytes
    var head: HeadFile
    var tmp: HeadFile
    var anchors: seq<Member<AnchorFile>>

    constructor ()
      ensures Contents() == Disk([], NoFile, NoFile, [])
    {
      chain, head, tmp, anchors := [], NoFile, NoFile, [];
    }

    function Contents(): Disk
      reads this
    {
      Disk(chain, head, tmp, anchors)
    }
  }

  class ProvidenceLog {
    const dir: Directory
    const H: Bytes -> Digest
    const c: Config
    var head: Head
    var failure: Option<Reason>
    var offsets: Option<seq<nat>>
    var chainBytes: nat
    var recordsSinceStart: nat

    function Fields(): Mem
      reads this
    {
      Mem(head, failure, offsets, chainBytes, recordsSinceStart)
    }

    /** The digests this instance computes are those its specification names. */
    ghost predicate Built() { IsV3(c, H) }

    constructor (dir: Directory, H: Bytes -> Digest, chainId: Str, first: FileWrite)
      requires ChainIdOk(chainId)
      modifies dir
      ensures this.dir == dir && this.H == H && c == V3(H, chainId)
      ensures dir.Contents() == OpenDisk(c, old(dir.Contents()), first)
      ensures IsOpened(c, old(dir.Contents()), first, Fields())
      ensures failure.None? && head.seqNo > 0 ==>
                && head.chainId == chainId && old(dir.head) == HeadIs(head) && Lines(old(dir.chain)) != []
                && exists r: Record :: c.parse(LastLine(old(dir.chain))) == Some(r) && r.seqNo + 1 == head.seqNo
                                       && c.hash(r) == head.digest
    {
      this.dir, this.H, this.c := dir, H, V3(H, chainId);
      head, failure, offsets := Head(chainId, 0, GENESIS), None, None;
      chainBytes, recordsSinceStart := 0, 0;
      new;
      V3IsV3(H, chainId);
      var found := OpenHead(first);
      if found.None? {
        failure := Some(NotOpened);
      } else {
        head := found.value;
        var ok := IndexLines();
        if !ok { failure := Some(NotOpened); }
      }
      StartupExactly(c, old(dir.Contents()), first, Fields());
    }

    /** `openHead`; None is a thrown error. */
    method OpenHead(first: FileWrite) returns (h: Option<Head>)
      requires Built()
      modifies dir
      ensures dir.Contents() == OpenDisk(c, old(dir.Contents()), first)
      ensures h == OpenedHead(c, old(dir.Contents()), first)
    {
      if dir.head.NoFile? {
        if dir.chain != [] { return None; }
        dir.head := Left(first, dir.head, Genesis(c));
        if first.Throws? { return None; }
        return Some(Genesis(c));
      }
      if dir.head.Torn? { return None; }
      var onDisk := dir.head.head;
      if onDisk.chainId != c.chainId { return None; }
      if dir.chain != [] && Partial(dir.chain) != [] { return None; }
      if onDisk.seqNo == 0 {
        if Lines(dir.chain) != [] && LastLine(dir.chain) != [] { return None; }
        if onDisk.digest != GENESIS { return None; }
        return Some(onDisk);
      }
      if dir.chain == [] || Lines(dir.chain) == [] { return None; }
      var agrees := LastAgrees(LastLine(dir.chain), onDisk);
      h := if agrees then Some(onDisk) else None;
    }

    /** The last record's own digest must be the head. */
    method LastAgrees(last: Bytes, onDisk: Head) returns (ok: bool)
      requires Built()
      ensures ok == LastIs(c, last, onDisk)
    {
      assert ReadsAsV3(c, last);
      var parsed := ParseLine(last);
      assert parsed.Some? ==> EncodesAsV3(c, H, parsed.value);
      if parsed.None? || parsed.value.seqNo != onDisk.seqNo - 1 { return false; }
      var digest := RecordDigest(parsed.value, H);
      ok := digest == Some(onDisk.digest);
    }

    /** `indexLines`; false is a thrown error, which leaves the index unset. */
    method IndexLines() returns (ok: bool)
      modifies this`offsets, this`chainBytes
      ensures ok <==> Partial(dir.chain) == [] && |Lines(dir.chain)| == head.seqNo
      ensures ok ==> offsets.Some? && IsIndex(offsets.value, Lines(dir.chain)) && chainBytes == |dir.chain|
      ensures !ok ==> offsets == old(offsets) && chainBytes == old(chainBytes)
    {
      var found, start := IndexBytes(dir.chain);
      if start != |dir.chain| || |found| != head.seqNo { return false; }
      offsets, chainBytes := Some(found), |dir.chain|;
      ok := true;
    }

    /** `refuseFrom`: the first reason stays. */
    method RefuseFrom(why: Str)
      modifies this`failure
      ensures failure == if old(failure).Some? then old(failure) else Some(RefusedBy(why))
    {
      if failure.None? { failure := Some(RefusedBy(why)); }
    }

    method Append(e: Entry, now: nat, fault: Fault) returns (answer: Answer)
      requires Built() && |e.fields| == 10
      modifies this, dir
      ensures dir.Contents() == AppendDisk(c, old(dir.Contents()), old(Fields()), e, now, fault)
      ensures Fields() == AppendMem(c, old(dir.Contents()), old(Fields()), e, now, fault)
      ensures answer == AppendAnswer(c, old(dir.Contents()), old(Fields()), e, now, fault)
    {
      if failure.Some? { return Unavailable; }
      var record := Compose(Fields(), e, now);
      var encoded := Encode(record);
      if encoded.None? { return Rejected; }
      answer := StoreEncoded(e, now, record, encoded.value.0, encoded.value.1, fault);
    }

    /** What is left of an append once its record has encoded. */
    method StoreEncoded(ghost e: Entry, ghost now: nat, record: Record, line: Bytes, digest: Digest, fault: Fault)
      returns (answer: Answer)
      requires failure.None? && record == Compose(Fields(), e, now) && c.encodes(record)
      requires line == Written(c, record) && digest == c.hash(record)
      modifies this, dir
      ensures dir.Contents() == AppendDisk(c, old(dir.Contents()), old(Fields()), e, now, fault)
      ensures Fields() == AppendMem(c, old(dir.Contents()), old(Fields()), e, now, fault)
      ensures answer == AppendAnswer(c, old(dir.Contents()), old(Fields()), e, now, fault)
    {
      answer := Store(record, line, digest, fault);
    }

    /** The I/O of an append, and what the instance keeps of it. */
    method Store(record: Record, line: Bytes, digest: Digest, fault: Fault) returns (answer: Answer)
      requires failure.None?
      modifies this, dir
      ensures var next := Head(c.chainId, record.seqNo + 1, digest);
              && dir.Contents() == Stored(old(dir.Contents()), old(head), next, line, fault)
              && Fields() == StoredMem(old(dir.Contents()), old(Fields()), next, |line|, fault)
      ensures answer == if RenamesOver(old(dir.Contents()), old(head), fault) && fault.sync
                        then Appended(record, digest) else Unavailable
    {
      dir.chain := dir.chain + if fault.line.Whole? then line else line[..Min(fault.line.kept, |line|)];
      if fault.line.Fails? {
        failure := Some(AppendFailed);
        return Unavailable;
      }
      var next := Head(c.chainId, record.seqNo + 1, digest);
      var replaced := ReplaceHead(head, next, fault);
      if !replaced {
        failure := Some(HeadStuck);
        return Unavailable;
      }
      head := next;
      if offsets.Some? { offsets := Some(offsets.value + [chainBytes]); }
      chainBytes := chainBytes + |line|;
      recordsSinceStart := recordsSinceStart + 1;
      answer := Appended(record, digest);
    }

    /** The schema, the digest and the line of a new record; None is a thrown error. */
    method Encode(record: Record) returns (encoded: Option<(Bytes, Digest)>)
      requires Built() && |record.fields| == 10
      ensures encoded == if c.encodes(record) then Some((Written(c, record), c.hash(record))) else None
    {
      assert EncodesAsV3(c, H, record);
      if !Valid(record) { return None; }
      var digest := RecordDigest(record, H);
      if digest.None? { return None; }
      EncodesLine(record);
      encoded := Some((Line(record) + [NEWLINE], digest.value));
    }

    /** `replaceHead`: the rename happens only over the head this writer expects. */
    method ReplaceHead(expected: Head, next: Head, fault: Fault) returns (ok: bool)
      requires !fault.line.Fails?
      modifies dir
      ensures dir.chain == old(dir.chain) && dir.anchors == old(dir.anchors)
      ensures var expects := fault.read && old(dir.head) == HeadIs(expected);
              var renames := expects && !fault.tmp.Throws? && fault.rename;
              && (ok <==> renames && fault.sync)
              && dir.head == (if renames then Left(fault.tmp, old(dir.tmp), next) else old(dir.head))
              && dir.tmp == (if !expects then old(dir.tmp) else if renames then NoFile
                             else Left(fault.tmp, old(dir.tmp), next))
    {
      if !fault.read || dir.head != HeadIs(expected) { return false; }
      dir.tmp := Left(fault.tmp, dir.tmp, next);
      if fault.tmp.Throws? || !fault.rename { return false; }
      dir.head := dir.tmp;
      dir.tmp := NoFile;
      ok := fault.sync;
    }

    /** `page`; None is a thrown error. */
    method Page(from: int, limit: int) returns (page: Option<ChainPage>)
      requires Built()
      ensures page == PageOf(c, dir.Contents(), Fields(), from, limit)
    {
      if offsets.None? || from < 0 || limit < 1 { return None; }
      assert CommitsAsV3(c, H, head);
      var commitment := HeadCommitment(head.seqNo, head.digest, head.chainId, H);
      if commitment.None? { return None; }
      var to := Min(head.seqNo, from + limit);
      var records: seq<Served> := [];
      if from < to {
        var served := ReadLines(from, to);
        if served.None? { return None; }
        records := served.value;
      }
      var anchors := ReadAnchors(from, to);
      if anchors.None? { return None; }
      page := Some(ChainPage(head, commitment.value, records, anchors.value, to));
    }

    method ReadLines(from: nat, to: nat) returns (records: Option<seq<Served>>)
      requires from < to && offsets.Some?
      ensures records == PageRecords(c, dir.chain, Fields(), from, to)
    {
      if from >= |offsets.value| { return None; }
      var start := offsets.value[from];
      var end := if to < |offsets.value| then offsets.value[to] else chainBytes;
      var range := RangeLines(dir.chain, start, end, to - from);
      if range.None? { return None; }
      records := ServeAll(Server(c), range.value, from);
    }

    method ReadAnchors(from: nat, to: nat) returns (anchors: Option<seq<Anchor>>)
      ensures anchors == PageAnchors(Sort(dir.anchors), from, to)
    {
      var files := Sort(dir.anchors);
      var found: seq<Anchor> := [];
      var i := 0;
      while i < |files|
        invariant 0 <= i <= |files|
        invariant PageAnchors(files[..i], from, to) == Some(found)
      {
        assert files[..i + 1][..i] == files[..i];
        if InPage(files[i].key, from, to) {
          if files[i].value.TornAnchor? {
            AnchorsFail(files, from, to, i + 1);
            return None;
          }
          found := found + [files[i].value.anchor];
        }
        i := i + 1;
      }
      assert files[..|files|] == files;
      anchors := Some(found);
    }

    /** The part of `exportAnchor` before the signature: the head as it is now. */
    method BeginExport(now: nat) returns (a: Option<Anchor>)
      requires Built()
      ensures a == Capture(c, Fields(), now)
    {
      if failure.Some? { return None; }
      assert CommitsAsV3(c, H, head);
      var commitment := HeadCommitment(head.seqNo, head.digest, head.chainId, H);
      if commitment.None? { return None; }
      a := Some(Anchor(head, commitment.value, now, []));
    }

    /** The part after it: write the file, whole or torn. */
    method FinishExport(a: Anchor, signature: Bytes, write: FileWrite)
      modifies dir
      ensures dir.Contents() == Filed(old(dir.Contents()), a, signature, write)
    {
      if !Writes(write) { return; }
      var name := AnchorName(a.head.seqNo, a.timestamp);
      dir.anchors := Put(dir.anchors, name, LeftAnchor(a, signature, write));
    }
  }

  /** The loop over a page's lines, stopping at the first that is refused. */
  method ServeAll(serve: (Bytes, nat) -> Option<Served>, lines: seq<Bytes>, from: nat)
    returns (records: Option<seq<Served>>)
    ensures records == Each(serve, lines, from)
  {
    var served: seq<Served> := [];
    var i := 0;
    ghost var all := Each(serve, lines, from);
    assert lines[0..] == lines && lines[|lines|..] == [];
    assert all.Some? ==> served + all.value == all.value;
    while i < |lines|
      invariant 0 <= i <= |lines|
      invariant all == After(served, Each(serve, lines[i..], from + i))
    {
      EachStep(serve, lines, i, from, served);
      var one := serve(lines[i], from + i);
      if one.None? { return None; }
      served := served + [one.value];
      i := i + 1;
    }
    assert served + [] == served;
    records := Some(served);
  }

  lemma {:induction false} AnchorsFail(files: seq<Member<AnchorFile>>, from: nat, to: nat, k: nat)
    requires k <= |files| && PageAnchors(files[..k], from, to).None?
    ensures PageAnchors(files, from, to).None?
    decreases |files|
  {
    if k == |files| {
      assert files[..k] == files;
    } else {
      var n := |files| - 1;
      assert files[..n][..k] == files[..k];
      AnchorsFail(files[..n], from, to, k);
    }
  }
}
