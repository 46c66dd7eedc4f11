/** The anchor scheduler: a chain of attempts, each waiting for the one before, over a log that keeps
    appending while a signature is pending. */
module Scheduler {
  import opened Common
  import opened Json
  import opened Encoding
  import opened AnchorNames
  import opened Log
  import opened Recovery

  /** One attempt queued by `anchorNow`. `read` is the head a finished attempt read, None when the log
      already refused. */
  datatype Task = Waiting | Signing(anchor: Anchor) | Done(read: Option<Head>)

  datatype Sched = Sched(lastAnchoredSeq: int, tasks: seq<Task>, stopped: bool)

  const ANCHOR_FAILED: Reason := RefusedBy(Ascii("anchor failed"))

  function Refused(m: Mem): Mem {
    if m.failure.Some? then m else m.(failure := Some(ANCHOR_FAILED))
  }

  function Enqueue(s: Sched): Sched { s.(tasks := s.tasks + [Waiting]) }

  /** `stop`: the first call queues a last attempt. */
  function Stopping(s: Sched): Sched {
    if s.stopped then s else Enqueue(s.(stopped := true))
  }

  /** Attempt i may begin: the promise it was chained on has settled. */
  predicate CanBegin(s: Sched, i: nat) {
    i < |s.tasks| && s.tasks[i].Waiting? && (i > 0 ==> s.tasks[i - 1].Done?)
  }

  /** The part of attempt i before its signature. */
  function BeginTask(c: Config, m: Mem, s: Sched, i: nat, now: nat): Sched
    requires i < |s.tasks|
  {
    s.(tasks := s.tasks[i :=
      if m.failure.Some? then Done(None)
      else if m.head.seqNo == s.lastAnchoredSeq then Done(Some(m.head))
      else match Capture(c, m, now) case Some(a) => Signing(a) case None => Done(Some(m.head))])
  }

  function BeginMem(c: Config, m: Mem, s: Sched, now: nat): Mem {
    if m.failure.None? && m.head.seqNo != s.lastAnchoredSeq && Capture(c, m, now).None? then Refused(m) else m
  }

  /** The signature of attempt i arrives, or fails; then the file is written, or that fails. */
  function SettleTask(s: Sched, i: nat, signature: Option<Bytes>, write: FileWrite): Sched
    requires i < |s.tasks| && s.tasks[i].Signing?
  {
    var a := s.tasks[i].anchor;
    var ok := signature.Some? && !write.Throws?;
    s.(tasks := s.tasks[i := Done(Some(a.head))],
       lastAnchoredSeq := if ok then a.head.seqNo else s.lastAnchoredSeq)
  }

  function SettleMem(m: Mem, signature: Option<Bytes>, write: FileWrite): Mem {
    if signature.Some? && !write.Throws? then m else Refused(m)
  }

  function SettleDisk(d: Disk, a: Anchor, signature: Option<Bytes>, write: FileWrite): Disk {
    match signature
    case None => d
    case Some(sig) => Filed(d, a, sig, write)
  }

  // ---- the class ----

  class AnchorScheduler {
    const log: ProvidenceLog
    var lastAnchoredSeq: int
    var tasks: seq<Task>
    var stopped: bool

    function Fields(): Sched
      reads this
    {
      Sched(lastAnchoredSeq, tasks, stopped)
    }

    constructor (log: ProvidenceLog)
      ensures this.log == log && Fields() == Sched(-1, [], false)
    {
      this.log := log;
      lastAnchoredSeq, tasks, stopped := -1, [], false;
    }

    /** The listener `start` registers with the log. */
    method OnAppend()
      modifies this
      ensures Fields() == if log.recordsSinceStart == 1 then Enqueue(old(Fields())) else old(Fields())
    {
      if log.recordsSinceStart == 1 { AnchorNow(); }
    }

    method AnchorNow()
      modifies this
      ensures Fields() == Enqueue(old(Fields()))
    {
      tasks := tasks + [Waiting];
    }

    method Stop()
      modifies this
      ensures Fields() == Stopping(old(Fields()))
    {
      if !stopped {
        stopped := true;
        AnchorNow();
      }
    }

    method Begin(i: nat, now: nat)
      requires log.Built() && CanBegin(Fields(), i)
      modifies this, log
      ensures Fields() == BeginTask(log.c, old(log.Fields()), old(Fields()), i, now)
      ensures log.Fields() == BeginMem(log.c, old(log.Fields()), old(Fields()), now)
    {
      if log.failure.Some? {
        tasks := tasks[i := Done(None)];
        return;
      }
      var head := log.head;
      if head.seqNo == lastAnchoredSeq {
        tasks := tasks[i := Done(Some(head))];
        return;
      }
      var captured := log.BeginExport(now);
      if captured.None? {
        log.RefuseFrom(Ascii("anchor failed"));
        tasks := tasks[i := Done(Some(head))];
      } else {
        tasks := tasks[i := Signing(captured.value)];
      }
    }

    method Settle(i: nat, signature: Option<Bytes>, write: FileWrite)
      requires log.Built() && i < |tasks| && tasks[i].Signing?
      modifies this, log, log.dir
      ensures Fields() == SettleTask(old(Fields()), i, signature, write)
      ensures log.Fields() == SettleMem(old(log.Fields()), signature, write)
      ensures log.dir.Contents() == SettleDisk(old(log.dir.Contents()), old(tasks[i].anchor), signature, write)
    {
      var anchor := tasks[i].anchor;
      tasks := tasks[i := Done(Some(anchor.head))];
      if signature.Some? {
        log.FinishExport(anchor, signature.value, write);
        if !write.Throws? {
          lastAnchoredSeq := anchor.head.seqNo;
          return;
        }
      }
      log.RefuseFrom(Ascii("anchor failed"));
    }
  }

  // ---- runs ----

  /** `exported` lists the positions this scheduler took for anchored, and `cut` those among them whose anchor
      file fell short without an error; `atStop` is the attempt the first `stop` queued and how long the
      chain was then. */
  datatype Past = Past(exported: seq<nat>, cut: set<nat>, atStop: Option<(nat, nat)>)

  datatype System = System(w: World, s: Sched, past: Past)

  const NO_PAST: Past := Past([], {}, None)

  const NEW_SCHED: Sched := Sched(-1, [], false)

  datatype Event =
    | LogStep(step: Step)
    | Tick
    | Stop
    | Begin(i: nat, now: nat)
    | Settle(i: nat, signature: Option<Bytes>, write: FileWrite)

  function StartSystem(): System { System(Start(), NEW_SCHED, NO_PAST) }

  predicate Possible(c: Config, y: System, e: Event) {
    match e
    case LogStep(step) => Enabled(c, y.w, step)
    case Tick => y.w.proc.Some? && !y.s.stopped
    case Stop => y.w.proc.Some?
    case Begin(i, now) => y.w.proc.Some? && CanBegin(y.s, i)
    case Settle(i, _, _) => y.w.proc.Some? && i < |y.s.tasks| && y.s.tasks[i].Signing?
  }

  /** An append that returns runs the listener; any other end or start of a process drops the scheduler. */
  function AfterLogStep(c: Config, y: System, step: Step): System
    requires Enabled(c, y.w, step)
  {
    var w := Next(c, y.w, step);
    match step
    case Do(e, now, fault) =>
      var returned := AppendAnswer(c, y.w.disk, y.w.proc.value, e, now, fault).Appended?;
      y.(w := w, s := if returned && w.proc.value.appended == 1 then Enqueue(y.s) else y.s)
    case Refuse(_) => y.(w := w)
    case _ => System(w, NEW_SCHED, NO_PAST)
  }

  function After(c: Config, y: System, e: Event): System
    requires Possible(c, y, e)
  {
    match e
    case LogStep(step) => AfterLogStep(c, y, step)
    case Tick => y.(s := Enqueue(y.s))
    case Stop =>
      y.(s := Stopping(y.s),
         past := if y.s.stopped then y.past else y.past.(atStop := Some((|y.s.tasks|, |y.w.chain|))))
    case Begin(i, now) =>
      y.(s := BeginTask(c, y.w.proc.value, y.s, i, now),
         w := y.w.(proc := Some(BeginMem(c, y.w.proc.value, y.s, now))))
    case Settle(i, signature, write) =>
      var a := y.s.tasks[i].anchor;
      System(y.w.(disk := SettleDisk(y.w.disk, a, signature, write),
                  proc := Some(SettleMem(y.w.proc.value, signature, write))),
             SettleTask(y.s, i, signature, write), SettlePast(y.past, a.head.seqNo, signature, write))
  }

  function SettlePast(p: Past, n: nat, signature: Option<Bytes>, write: FileWrite): Past {
    if signature.None? || write.Throws? then p
    else p.(exported := p.exported + [n], cut := if write.Cut? then p.cut + {n} else p.cut)
  }

  predicate Runs(c: Config, y: System, es: seq<Event>, y': System)
    decreases |es|
  {
    if es == [] then y' == y
    else Possible(c, y, es[0]) && Runs(c, After(c, y, es[0]), es[1..], y')
  }

  // ---- the invariant ----

  /** An anchor names a committed prefix: its length, its last digest, and the commitment to them. */
  predicate Names(c: Config, chain: seq<Record>, a: Anchor) {
    && a.head.seqNo <= |chain| && a.head == HeadOf(c, chain[..a.head.seqNo])
    && c.commit(a.head) == Some(a.commitment)
  }

  predicate FilesSound(c: Config, chain: seq<Record>, files: seq<Member<AnchorFile>>) {
    && DistinctKeys(files)
    && forall f | f in files && f.value.Signed? ::
         Names(c, chain, f.value.anchor) && f.key == AnchorName(f.value.anchor.head.seqNo, f.value.anchor.timestamp)
  }

  predicate AnchorFor(files: seq<Member<AnchorFile>>, h: Head) {
    exists f :: f in files && f.value.Signed? && f.value.anchor.head == h
  }

  /** An attempt that is not done holds back all later ones. */
  predicate InOrder(tasks: seq<Task>) {
    forall i, j :: 0 <= i < j < |tasks| && !tasks[i].Done? ==> tasks[j].Waiting?
  }

  /** A head the scheduler took for anchored: its anchor is on disk, unless the log refuses or the file fell short. */
  predicate Taken(w: World, m: Mem, cut: set<nat>, h: Head) {
    m.failure.Some? || AnchorFor(w.disk.anchors, h) || h.seqNo in cut
  }

  predicate TaskSound(c: Config, w: World, m: Mem, last: int, cut: set<nat>, t: Task) {
    match t
    case Waiting => true
    case Signing(a) => Names(c, w.chain, a) && last < a.head.seqNo <= m.head.seqNo
    case Done(None) => m.failure.Some?
    case Done(Some(h)) => h.seqNo <= |w.chain| && h == HeadOf(c, w.chain[..h.seqNo]) && Taken(w, m, cut, h)
  }

  predicate Increasing(ns: seq<nat>) {
    forall i, j :: 0 <= i < j < |ns| ==> ns[i] < ns[j]
  }

  /** A torn file under the name of position n. */
  ghost predicate TornAt(files: seq<Member<AnchorFile>>, n: nat) {
    exists f :: f in files && f.value.TornAnchor? && NamedFor(f.key, n)
  }

  ghost predicate NamedFor(name: Str, n: nat) {
    exists t: nat :: name == AnchorName(n, t)
  }

  /** Where the scheduler stands, and what it took for anchored. */
  ghost predicate LastSound(c: Config, w: World, m: Mem, s: Sched, p: Past) {
    && Increasing(p.exported)
    && s.lastAnchoredSeq == (if p.exported == [] then -1 else p.exported[|p.exported| - 1])
    && s.lastAnchoredSeq <= m.head.seqNo <= |w.chain|
    && (s.lastAnchoredSeq >= 0 ==> Taken(w, m, p.cut, HeadOf(c, w.chain[..s.lastAnchoredSeq])))
    && (forall n | n in p.cut :: n <= s.lastAnchoredSeq && TornAt(w.disk.anchors, n))
  }

  /** The attempt `stop` queued reads a head no shorter than the chain was at `stop`. */
  predicate StopSound(chain: seq<Record>, tasks: seq<Task>, k: nat, n: nat) {
    && k < |tasks| && n <= |chain|
    && (tasks[k].Signing? ==> tasks[k].anchor.head.seqNo >= n)
    && (tasks[k].Done? && tasks[k].read.Some? ==> tasks[k].read.value.seqNo >= n)
  }

  ghost predicate SchedSound(c: Config, w: World, m: Mem, s: Sched, p: Past) {
    && InOrder(s.tasks)
    && (forall i :: 0 <= i < |s.tasks| ==> TaskSound(c, w, m, s.lastAnchoredSeq, p.cut, s.tasks[i]))
    && LastSound(c, w, m, s, p)
    && (p.atStop.Some? ==> StopSound(w.chain, s.tasks, p.atStop.value.0, p.atStop.value.1))
  }

  ghost predicate SystemInv(c: Config, y: System) {
    && Inv(c, y.w)
    && FilesSound(c, y.w.chain, y.w.disk.anchors)
    && (y.w.proc.Some? ==> SchedSound(c, y.w, y.w.proc.value, y.s, y.past))
  }

  // ---- files ----

  lemma {:induction false} PutHas<T>(files: seq<Member<T>>, name: Str, f: T, x: Member<T>)
    requires DistinctKeys(files)
    ensures x in Put(files, name, f) <==> x == Member(name, f) || (x in files && x.key != name)
  {
    if files != [] {
      var rest := files[1..];
      RestDistinct(files);
      assert x in files <==> x == files[0] || x in rest;
      if files[0].key != name {
        PutHas(rest, name, f, x);
        assert x in Put(files, name, f) <==> x == files[0] || x in Put(rest, name, f);
      } else {
        assert x in Put(files, name, f) <==> x == Member(name, f) || x in rest;
      }
    }
  }

  lemma RestDistinct<T>(files: seq<Member<T>>)
    requires DistinctKeys(files) && files != []
    ensures DistinctKeys(files[1..]) && forall x | x in files[1..] :: x.key != files[0].key
  {
    var rest := files[1..];
    forall i, j | 0 <= i < j < |rest| ensures rest[i].key != rest[j].key {
      assert rest[i] == files[i + 1] && rest[j] == files[j + 1];
    }
  }

  lemma {:induction false} PutDistinct<T>(files: seq<Member<T>>, name: Str, f: T)
    requires DistinctKeys(files)
    ensures DistinctKeys(Put(files, name, f))
  {
    if files != [] {
      RestDistinct(files);
      if files[0].key != name {
        var after := Put(files[1..], name, f);
        PutDistinct(files[1..], name, f);
        forall x | x in after ensures x.key != files[0].key { PutHas(files[1..], name, f, x); }
      }
    }
  }

  lemma DigitsEnd(p: Str, x: Str, p': Str, x': Str)
    requires Digits(p) && Digits(p') && p + ([MINUS] + x) == p' + ([MINUS] + x')
    ensures p == p'
  {
    var n, n' := p + ([MINUS] + x), p' + ([MINUS] + x');
    assert n[|p|] == MINUS && n'[|p'|] == MINUS;
    assert forall k :: 0 <= k < |p| ==> n[k] in p;
    assert forall k :: 0 <= k < |p'| ==> n'[k] in p';
    assert n[..|p|] == p && n'[..|p'|] == p';
  }

  lemma NameFixesSeq(s: nat, t: nat, s': nat, t': nat)
    requires AnchorName(s, t) == AnchorName(s', t')
    ensures s == s'
  {
    DecimalValue(s);
    DecimalValue(s');
    PadKeepsValue(Decimal(s), NAME_DIGITS);
    PadKeepsValue(Decimal(s'), NAME_DIGITS);
    var x, x' := Decimal(t) + Ascii(".json"), Decimal(t') + Ascii(".json");
    Regroup3([MINUS], Decimal(t), Ascii(".json"));
    Regroup3([MINUS], Decimal(t'), Ascii(".json"));
    DigitsEnd(PadStart(Decimal(s), NAME_DIGITS), x, PadStart(Decimal(s'), NAME_DIGITS), x');
  }

  lemma NamesGrow(c: Config, chain: seq<Record>, chain': seq<Record>, a: Anchor)
    requires chain <= chain' && Names(c, chain, a)
    ensures Names(c, chain', a)
  {
    assert chain'[..a.head.seqNo] == chain[..a.head.seqNo];
  }

  lemma FilesGrow(c: Config, chain: seq<Record>, chain': seq<Record>, files: seq<Member<AnchorFile>>)
    requires chain <= chain' && FilesSound(c, chain, files)
    ensures FilesSound(c, chain', files)
  {
    forall f | f in files && f.value.Signed? ensures Names(c, chain', f.value.anchor) {
      NamesGrow(c, chain, chain', f.value.anchor);
    }
  }

  lemma PutIs<T>(files: seq<Member<T>>, name: Str, f: T)
    requires DistinctKeys(files)
    ensures DistinctKeys(Put(files, name, f))
    ensures forall x :: x in Put(files, name, f) <==> x == Member(name, f) || (x in files && x.key != name)
  {
    PutDistinct(files, name, f);
    forall x ensures x in Put(files, name, f) <==> x == Member(name, f) || (x in files && x.key != name) {
      PutHas(files, name, f, x);
    }
  }

  lemma PutKeepsFiles(c: Config, chain: seq<Record>, files: seq<Member<AnchorFile>>, a: Anchor, f: AnchorFile)
    requires FilesSound(c, chain, files) && Names(c, chain, a)
    requires f.Signed? ==>
               && f.anchor.head == a.head && f.anchor.commitment == a.commitment
               && f.anchor.timestamp == a.timestamp
    ensures FilesSound(c, chain, Put(files, AnchorName(a.head.seqNo, a.timestamp), f))
  {
    PutIs(files, AnchorName(a.head.seqNo, a.timestamp), f);
  }

  /** Writing an anchor loses no head its anchor, but for a file that is cut. */
  lemma PutKeepsAnchors(c: Config, chain: seq<Record>, files: seq<Member<AnchorFile>>, a: Anchor, f: AnchorFile,
                        h: Head)
    requires FilesSound(c, chain, files) && Names(c, chain, a) && AnchorFor(files, h)
    requires f.Signed? ==> f.anchor.head == a.head
    ensures AnchorFor(Put(files, AnchorName(a.head.seqNo, a.timestamp), f), h)
            || (f.TornAnchor? && h.seqNo == a.head.seqNo)
  {
    var name := AnchorName(a.head.seqNo, a.timestamp);
    var after := Put(files, name, f);
    PutIs(files, name, f);
    var g :| g in files && g.value.Signed? && g.value.anchor.head == h;
    if g.key == name {
      NameFixesSeq(h.seqNo, g.value.anchor.timestamp, a.head.seqNo, a.timestamp);
      assert Member(name, f) in after;
    } else {
      assert g in after;
    }
  }

  lemma PutKeepsTorn(files: seq<Member<AnchorFile>>, seqNo: nat, t: nat, f: AnchorFile, n: nat)
    requires DistinctKeys(files) && TornAt(files, n) && (n != seqNo || f.TornAnchor?)
    ensures TornAt(Put(files, AnchorName(seqNo, t), f), n)
  {
    var name := AnchorName(seqNo, t);
    PutIs(files, name, f);
    var g :| g in files && g.value.TornAnchor? && NamedFor(g.key, n);
    if g.key == name {
      var t' :| g.key == AnchorName(n, t');
      NameFixesSeq(n, t', seqNo, t);
      assert Member(name, f) in Put(files, name, f);
    } else {
      assert g in Put(files, name, f);
    }
  }

  lemma PutWrites(files: seq<Member<AnchorFile>>, a: Anchor, signature: Bytes, write: FileWrite)
    requires DistinctKeys(files)
    ensures var after := Put(files, AnchorName(a.head.seqNo, a.timestamp), LeftAnchor(a, signature, write));
            if LeftAnchor(a, signature, write).Signed? then AnchorFor(after, a.head) else TornAt(after, a.head.seqNo)
  {
    var name, f := AnchorName(a.head.seqNo, a.timestamp), LeftAnchor(a, signature, write);
    PutIs(files, name, f);
    assert Member(name, f) in Put(files, name, f) && NamedFor(name, a.head.seqNo);
  }

  // ---- every step keeps the invariant ----

  /** What any step of one process does to the world the scheduler looks at: every head that had an anchor
      still has one, unless its file was just cut. */
  ghost predicate Onward(w: World, m: Mem, w': World, m': Mem, cut: set<nat>) {
    && w.chain <= w'.chain
    && (m.failure.Some? ==> m'.failure.Some?)
    && m.head.seqNo <= m'.head.seqNo
    && (m'.failure.Some?
        || forall h :: AnchorFor(w.disk.anchors, h) ==> AnchorFor(w'.disk.anchors, h) || h.seqNo in cut)
  }

  lemma TaskKeeps(c: Config, w: World, m: Mem, w': World, m': Mem, last: int, last': int, cut: set<nat>,
                  cut': set<nat>, t: Task)
    requires Onward(w, m, w', m', cut') && TaskSound(c, w, m, last, cut, t) && cut <= cut'
    requires t.Signing? ==> last' == last
    ensures TaskSound(c, w', m', last', cut', t)
  {
    match t {
      case Waiting =>
      case Signing(a) => NamesGrow(c, w.chain, w'.chain, a);
      case Done(None) =>
      case Done(Some(h)) => assert w'.chain[..h.seqNo] == w.chain[..h.seqNo];
    }
  }

  /** A step that leaves the queue and the files alone keeps the scheduler sound. */
  lemma SchedKeeps(c: Config, w: World, m: Mem, w': World, m': Mem, s: Sched, p: Past)
    requires SchedSound(c, w, m, s, p)
    requires Onward(w, m, w', m', {}) && m'.head.seqNo <= |w'.chain| && w'.disk.anchors == w.disk.anchors
    ensures SchedSound(c, w', m', s, p)
  {
    forall i | 0 <= i < |s.tasks| ensures TaskSound(c, w', m', s.lastAnchoredSeq, p.cut, s.tasks[i]) {
      OnwardMore(w, m, w', m', {}, p.cut);
      TaskKeeps(c, w, m, w', m', s.lastAnchoredSeq, s.lastAnchoredSeq, p.cut, p.cut, s.tasks[i]);
    }
    if s.lastAnchoredSeq >= 0 {
      assert w'.chain[..s.lastAnchoredSeq] == w.chain[..s.lastAnchoredSeq];
    }
  }

  lemma OnwardMore(w: World, m: Mem, w': World, m': Mem, cut: set<nat>, cut': set<nat>)
    requires Onward(w, m, w', m', cut) && cut <= cut'
    ensures Onward(w, m, w', m', cut')
  {
  }

  lemma EnqueueKeeps(c: Config, w: World, m: Mem, s: Sched, p: Past)
    requires SchedSound(c, w, m, s, p)
    ensures SchedSound(c, w, m, Enqueue(s), p)
  {
  }

  lemma DoOnward(c: Config, w: World, e: Entry, now: nat, fault: Fault)
    requires w.proc.Some? && w.proc.value.head.seqNo <= |w.chain|
    ensures var w' := Next(c, w, Do(e, now, fault));
            && Onward(w, w.proc.value, w', w'.proc.value, {}) && w'.proc.value.head.seqNo <= |w'.chain|
            && w'.disk.anchors == w.disk.anchors
  {
  }

  /** A step of the log itself, after which the listener may have queued an attempt. */
  lemma LogMoves(c: Config, y: System, m: Mem, w': World, m': Mem, s': Sched)
    requires SystemInv(c, y) && y.w.proc == Some(m) && w'.proc == Some(m')
    requires Inv(c, w') && Onward(y.w, m, w', m', {}) && m'.head.seqNo <= |w'.chain|
    requires w'.disk.anchors == y.w.disk.anchors && (s' == y.s || s' == Enqueue(y.s))
    ensures SystemInv(c, y.(w := w', s := s'))
  {
    FilesGrow(c, y.w.chain, w'.chain, y.w.disk.anchors);
    SchedKeeps(c, y.w, m, w', m', y.s, y.past);
    EnqueueKeeps(c, w', m', y.s, y.past);
  }

  lemma DoSystemKeeps(c: Config, y: System, e: Entry, now: nat, fault: Fault)
    requires SystemInv(c, y) && y.w.proc.Some?
    ensures SystemInv(c, AfterLogStep(c, y, Do(e, now, fault)))
  {
    var w', y' := Next(c, y.w, Do(e, now, fault)), AfterLogStep(c, y, Do(e, now, fault));
    DoOnward(c, y.w, e, now, fault);
    assert Inv(c, w') by { DoKeeps(c, y.w, e, now, fault); }
    LogMoves(c, y, y.w.proc.value, w', w'.proc.value, y'.s);
  }

  lemma OpenedHeadInChain(c: Config, w: World, first: FileWrite, m: Mem)
    requires Inv(c, w) && IsOpened(c, w.disk, first, m)
    ensures m.head.seqNo <= |w.chain|
  {
  }

  lemma OpenSystemKeeps(c: Config, y: System, first: FileWrite, mem: Mem)
    requires SystemInv(c, y) && Enabled(c, y.w, Open(first, mem))
    ensures SystemInv(c, AfterLogStep(c, y, Open(first, mem)))
  {
    OpenedHeadInChain(c, y.w, first, mem);
    assert Inv(c, Next(c, y.w, Open(first, mem))) by { StepKeeps(c, y.w, Open(first, mem)); }
  }

  lemma DieSystemKeeps(c: Config, y: System, e: Entry, now: nat, fault: Fault)
    requires SystemInv(c, y) && y.w.proc.Some?
    ensures SystemInv(c, AfterLogStep(c, y, Die(e, now, fault)))
  {
    var w' := Next(c, y.w, Die(e, now, fault));
    assert Inv(c, w') by { StepKeeps(c, y.w, Die(e, now, fault)); }
    assert w'.disk.anchors == y.w.disk.anchors && y.w.chain <= w'.chain;
    FilesGrow(c, y.w.chain, w'.chain, y.w.disk.anchors);
  }

  lemma RefuseSystemKeeps(c: Config, y: System, why: Str)
    requires SystemInv(c, y) && y.w.proc.Some?
    ensures SystemInv(c, AfterLogStep(c, y, Refuse(why)))
  {
    var w' := Next(c, y.w, Refuse(why));
    assert Inv(c, w') by { StepKeeps(c, y.w, Refuse(why)); }
    LogMoves(c, y, y.w.proc.value, w', w'.proc.value, y.s);
  }

  lemma LogStepKeeps(c: Config, y: System, step: Step)
    requires SystemInv(c, y) && Enabled(c, y.w, step)
    ensures SystemInv(c, AfterLogStep(c, y, step))
  {
    match step {
      case Open(first, mem) => OpenSystemKeeps(c, y, first, mem);
      case Do(e, now, fault) => DoSystemKeeps(c, y, e, now, fault);
      case Die(e, now, fault) => DieSystemKeeps(c, y, e, now, fault);
      case Kill => StepKeeps(c, y.w, Kill);
      case Refuse(why) => RefuseSystemKeeps(c, y, why);
    }
  }

  /** Refusing appends, or writing an anchor file, is nothing to the chain. */
  lemma InvIgnoresAnchors(c: Config, w: World, m: Mem, anchors: seq<Member<AnchorFile>>)
    requires Inv(c, w) && w.proc.Some? && (m == w.proc.value || m == Refused(w.proc.value))
    ensures Inv(c, w.(disk := w.disk.(anchors := anchors), proc := Some(m)))
  {
  }

  /** What attempt i becomes when it begins is sound, and reads no less than the chain then held. */
  lemma BegunSound(c: Config, w: World, m: Mem, s: Sched, p: Past, i: nat, now: nat)
    requires GoodChain(c, w.chain) && LiveSound(c, w, m) && LastSound(c, w, m, s, p) && i < |s.tasks|
    ensures var t := BeginTask(c, m, s, i, now).tasks[i];
            && TaskSound(c, w, BeginMem(c, m, s, now), s.lastAnchoredSeq, p.cut, t)
            && (t.Signing? ==> t.anchor.head.seqNo == |w.chain|)
            && (t.Done? && t.read.Some? ==> t.read.value.seqNo == |w.chain|)
  {
    if m.failure.None? {
      assert w.chain[..|w.chain|] == w.chain;
    }
  }

  lemma OrderKeeps(s: Sched, i: nat, t: Task)
    requires InOrder(s.tasks) && CanBegin(s, i)
    ensures InOrder(s.tasks[i := t])
  {
    assert forall j :: i < j < |s.tasks| ==> s.tasks[j].Waiting?;
    assert forall j :: 0 <= j < i ==> s.tasks[j].Done?;
  }

  lemma StopBegins(chain: seq<Record>, tasks: seq<Task>, i: nat, t: Task, k: nat, n: nat)
    requires StopSound(chain, tasks, k, n) && i < |tasks|
    requires t.Signing? ==> t.anchor.head.seqNo == |chain|
    requires t.Done? && t.read.Some? ==> t.read.value.seqNo == |chain|
    ensures StopSound(chain, tasks[i := t], k, n)
  {
  }

  /** One attempt moves on. */
  lemma TaskReplaced(c: Config, w: World, m: Mem, s: Sched, p: Past, i: nat, t: Task)
    requires SchedSound(c, w, m, s, p) && i < |s.tasks|
    requires TaskSound(c, w, m, s.lastAnchoredSeq, p.cut, t) && InOrder(s.tasks[i := t])
    requires p.atStop.Some? ==> StopSound(w.chain, s.tasks[i := t], p.atStop.value.0, p.atStop.value.1)
    ensures SchedSound(c, w, m, s.(tasks := s.tasks[i := t]), p)
  {
  }

  /** Attempt i becomes t, and the log may come to refuse. */
  lemma Begun(c: Config, y: System, i: nat, t: Task, m: Mem, m': Mem)
    requires SystemInv(c, y) && y.w.proc == Some(m) && CanBegin(y.s, i) && (m' == m || m' == Refused(m))
    requires TaskSound(c, y.w, m', y.s.lastAnchoredSeq, y.past.cut, t)
    requires t.Signing? ==> t.anchor.head.seqNo == |y.w.chain|
    requires t.Done? && t.read.Some? ==> t.read.value.seqNo == |y.w.chain|
    ensures SystemInv(c, y.(w := y.w.(proc := Some(m')), s := y.s.(tasks := y.s.tasks[i := t])))
  {
    var w' := y.w.(proc := Some(m'));
    InvIgnoresAnchors(c, y.w, m', y.w.disk.anchors);
    SchedKeeps(c, y.w, m, w', m', y.s, y.past);
    OrderKeeps(y.s, i, t);
    if y.past.atStop.Some? { StopBegins(y.w.chain, y.s.tasks, i, t, y.past.atStop.value.0, y.past.atStop.value.1); }
    TaskReplaced(c, w', m', y.s, y.past, i, t);
  }

  lemma BeginKeeps(c: Config, y: System, i: nat, now: nat)
    requires SystemInv(c, y) && y.w.proc.Some? && CanBegin(y.s, i)
    ensures SystemInv(c, After(c, y, Begin(i, now)))
  {
    var m := y.w.proc.value;
    BegunSound(c, y.w, m, y.s, y.past, i, now);
    Begun(c, y, i, BeginTask(c, m, y.s, i, now).tasks[i], m, BeginMem(c, m, y.s, now));
  }

  lemma IncreasingGrows(ns: seq<nat>, n: nat)
    requires Increasing(ns) && (ns != [] ==> ns[|ns| - 1] < n)
    ensures Increasing(ns + [n])
  {
    var k := |ns|;
    forall i | 0 <= i < k ensures ns[i] < n {
      if i < k - 1 { assert ns[i] < ns[k - 1]; }
    }
  }

  /** The settled attempt's anchor, which names a prefix above the last. */
  lemma PendingIs(c: Config, y: System, i: nat)
    requires SystemInv(c, y) && y.w.proc.Some? && i < |y.s.tasks| && y.s.tasks[i].Signing?
    ensures var a := y.s.tasks[i].anchor;
            && Names(c, y.w.chain, a) && y.s.lastAnchoredSeq < a.head.seqNo <= y.w.proc.value.head.seqNo
            && FilesSound(c, y.w.chain, y.w.disk.anchors) && y.w.proc.value.head.seqNo <= |y.w.chain|
  {
    assert TaskSound(c, y.w, y.w.proc.value, y.s.lastAnchoredSeq, y.past.cut, y.s.tasks[i]);
  }

  /** What settling writes, and what it leaves of the files before. */
  lemma SettleFiles(c: Config, w: World, m: Mem, a: Anchor, signature: Option<Bytes>, write: FileWrite, p: Past)
    requires FilesSound(c, w.chain, w.disk.anchors) && Names(c, w.chain, a)
    ensures var d', m', p' := SettleDisk(w.disk, a, signature, write), SettleMem(m, signature, write),
                              SettlePast(p, a.head.seqNo, signature, write);
            && FilesSound(c, w.chain, d'.anchors)
            && Onward(w, m, w.(disk := d', proc := Some(m')), m', p'.cut)
            && Taken(w.(disk := d'), m', p'.cut, a.head)
  {
    if signature.Some? && Writes(write) {
      var f := LeftAnchor(a, signature.value, write);
      PutKeepsFiles(c, w.chain, w.disk.anchors, a, f);
      PutWrites(w.disk.anchors, a, signature.value, write);
      forall h | AnchorFor(w.disk.anchors, h)
        ensures AnchorFor(Put(w.disk.anchors, AnchorName(a.head.seqNo, a.timestamp), f), h)
                || (f.TornAnchor? && h.seqNo == a.head.seqNo)
      {
        PutKeepsAnchors(c, w.chain, w.disk.anchors, a, f, h);
      }
    }
  }

  lemma SettledTorn(c: Config, w: World, a: Anchor, signature: Option<Bytes>, write: FileWrite, last: int, p: Past)
    requires FilesSound(c, w.chain, w.disk.anchors) && last < a.head.seqNo
    requires forall n | n in p.cut :: n <= last && TornAt(w.disk.anchors, n)
    ensures forall n | n in SettlePast(p, a.head.seqNo, signature, write).cut ::
              n <= a.head.seqNo && TornAt(SettleDisk(w.disk, a, signature, write).anchors, n)
  {
    if signature.Some? && Writes(write) {
      PutWrites(w.disk.anchors, a, signature.value, write);
      forall n | n in p.cut ensures TornAt(SettleDisk(w.disk, a, signature, write).anchors, n) {
        PutKeepsTorn(w.disk.anchors, a.head.seqNo, a.timestamp, LeftAnchor(a, signature.value, write), n);
      }
    }
  }

  lemma SettleOnward(c: Config, y: System, i: nat, signature: Option<Bytes>, write: FileWrite)
    requires SystemInv(c, y) && y.w.proc.Some? && i < |y.s.tasks| && y.s.tasks[i].Signing?
    ensures var y' := After(c, y, Settle(i, signature, write));
            && Inv(c, y'.w) && FilesSound(c, y'.w.chain, y'.w.disk.anchors)
            && Onward(y.w, y.w.proc.value, y'.w, y'.w.proc.value, y'.past.cut)
            && Taken(y'.w, y'.w.proc.value, y'.past.cut, y.s.tasks[i].anchor.head)
  {
    var a, m := y.s.tasks[i].anchor, y.w.proc.value;
    var m' := SettleMem(m, signature, write);
    var y' := After(c, y, Settle(i, signature, write));
    PendingIs(c, y, i);
    SettleFiles(c, y.w, m, a, signature, write, y.past);
    InvIgnoresAnchors(c, y.w, m', y'.w.disk.anchors);
    assert y'.w == y.w.(disk := y.w.disk.(anchors := y'.w.disk.anchors), proc := Some(m'));
  }

  /** Only the settled attempt was pending: those before it are done and those after it wait. */
  lemma OthersNotPending(tasks: seq<Task>, i: nat, j: nat)
    requires InOrder(tasks) && i < |tasks| && j < |tasks| && i != j && tasks[i].Signing?
    ensures !tasks[j].Signing?
  {
    if j < i {
      assert !tasks[j].Done? ==> tasks[i].Waiting?;
    } else {
      assert tasks[j].Waiting?;
    }
  }

  lemma TaskSettles(c: Config, w: World, m: Mem, s: Sched, cut: set<nat>, w': World, m': Mem, s': Sched, cut': set<nat>,
                    i: nat, j: nat)
    requires i < |s.tasks| && j < |s.tasks| && s.tasks[i].Signing? && InOrder(s.tasks)
    requires s'.tasks == s.tasks[i := Done(Some(s.tasks[i].anchor.head))]
    requires Onward(w, m, w', m', cut') && cut <= cut' && Taken(w', m', cut', s.tasks[i].anchor.head)
    requires Names(c, w.chain, s.tasks[i].anchor) && TaskSound(c, w, m, s.lastAnchoredSeq, cut, s.tasks[j])
    ensures TaskSound(c, w', m', s'.lastAnchoredSeq, cut', s'.tasks[j])
  {
    if j != i {
      OthersNotPending(s.tasks, i, j);
      TaskKeeps(c, w, m, w', m', s.lastAnchoredSeq, s'.lastAnchoredSeq, cut, cut', s.tasks[j]);
    } else {
      NamesGrow(c, w.chain, w'.chain, s.tasks[i].anchor);
    }
  }

  lemma OrderSettles(tasks: seq<Task>, i: nat, t: Task)
    requires InOrder(tasks) && i < |tasks| && tasks[i].Signing? && t.Done?
    ensures InOrder(tasks[i := t])
  {
    assert forall k :: 0 <= k < i && !tasks[k].Done? ==> tasks[i].Waiting?;
  }

  lemma SettledTasks(c: Config, y: System, i: nat, signature: Option<Bytes>, write: FileWrite)
    requires SystemInv(c, y) && y.w.proc.Some? && i < |y.s.tasks| && y.s.tasks[i].Signing?
    requires var y' := After(c, y, Settle(i, signature, write));
             && Onward(y.w, y.w.proc.value, y'.w, y'.w.proc.value, y'.past.cut)
             && Taken(y'.w, y'.w.proc.value, y'.past.cut, y.s.tasks[i].anchor.head)
    ensures var y' := After(c, y, Settle(i, signature, write));
            && InOrder(y'.s.tasks)
            && forall j :: 0 <= j < |y'.s.tasks| ==>
                 TaskSound(c, y'.w, y'.w.proc.value, y'.s.lastAnchoredSeq, y'.past.cut, y'.s.tasks[j])
  {
    var y' := After(c, y, Settle(i, signature, write));
    PendingIs(c, y, i);
    OrderSettles(y.s.tasks, i, y'.s.tasks[i]);
    forall j | 0 <= j < |y.s.tasks|
      ensures TaskSound(c, y'.w, y'.w.proc.value, y'.s.lastAnchoredSeq, y'.past.cut, y'.s.tasks[j])
    {
      TaskSettles(c, y.w, y.w.proc.value, y.s, y.past.cut, y'.w, y'.w.proc.value, y'.s, y'.past.cut, i, j);
    }
  }

  /** The scheduler's place after an attempt: the anchor's position, or where it was, over a log that then refuses. */
  lemma LastSettles(c: Config, w: World, m: Mem, s: Sched, p: Past, w': World, m': Mem, s': Sched, p': Past, h: Head)
    requires LastSound(c, w, m, s, p) && Onward(w, m, w', m', p'.cut) && m'.head.seqNo <= |w'.chain|
    requires s.lastAnchoredSeq < h.seqNo <= m.head.seqNo && h == HeadOf(c, w.chain[..h.seqNo])
             && Taken(w', m', p'.cut, h)
    requires forall n | n in p'.cut :: n <= s'.lastAnchoredSeq && TornAt(w'.disk.anchors, n)
    requires if p'.exported == p.exported then s'.lastAnchoredSeq == s.lastAnchoredSeq && m'.failure.Some?
             else p'.exported == p.exported + [h.seqNo] && s'.lastAnchoredSeq == h.seqNo
    ensures LastSound(c, w', m', s', p')
  {
    if p'.exported != p.exported { IncreasingGrows(p.exported, h.seqNo); }
    assert w'.chain[..h.seqNo] == w.chain[..h.seqNo];
  }

  lemma SettledCut(c: Config, y: System, i: nat, signature: Option<Bytes>, write: FileWrite)
    requires SystemInv(c, y) && y.w.proc.Some? && i < |y.s.tasks| && y.s.tasks[i].Signing?
    ensures var y' := After(c, y, Settle(i, signature, write));
            forall n | n in y'.past.cut :: n <= y'.s.lastAnchoredSeq && TornAt(y'.w.disk.anchors, n)
  {
    var a := y.s.tasks[i].anchor;
    PendingIs(c, y, i);
    SettledTorn(c, y.w, a, signature, write, y.s.lastAnchoredSeq, y.past);
  }

  lemma SettledLast(c: Config, y: System, i: nat, signature: Option<Bytes>, write: FileWrite)
    requires SystemInv(c, y) && y.w.proc.Some? && i < |y.s.tasks| && y.s.tasks[i].Signing?
    requires var y' := After(c, y, Settle(i, signature, write));
             && Onward(y.w, y.w.proc.value, y'.w, y'.w.proc.value, y'.past.cut)
             && Taken(y'.w, y'.w.proc.value, y'.past.cut, y.s.tasks[i].anchor.head)
    ensures var y' := After(c, y, Settle(i, signature, write));
            LastSound(c, y'.w, y'.w.proc.value, y'.s, y'.past)
  {
    var a, y' := y.s.tasks[i].anchor, After(c, y, Settle(i, signature, write));
    PendingIs(c, y, i);
    SettledCut(c, y, i, signature, write);
    assert |y.past.exported + [a.head.seqNo]| != |y.past.exported|;
    LastSettles(c, y.w, y.w.proc.value, y.s, y.past, y'.w, y'.w.proc.value, y'.s, y'.past, a.head);
  }

  lemma StopSettles(chain: seq<Record>, tasks: seq<Task>, i: nat, k: nat, n: nat)
    requires StopSound(chain, tasks, k, n) && i < |tasks| && tasks[i].Signing?
    ensures StopSound(chain, tasks[i := Done(Some(tasks[i].anchor.head))], k, n)
  {
  }

  lemma Assembles(c: Config, y: System, m: Mem)
    requires Inv(c, y.w) && FilesSound(c, y.w.chain, y.w.disk.anchors) && y.w.proc == Some(m) && InOrder(y.s.tasks)
    requires forall j :: 0 <= j < |y.s.tasks| ==> TaskSound(c, y.w, m, y.s.lastAnchoredSeq, y.past.cut, y.s.tasks[j])
    requires LastSound(c, y.w, m, y.s, y.past)
    requires y.past.atStop.Some? ==> StopSound(y.w.chain, y.s.tasks, y.past.atStop.value.0, y.past.atStop.value.1)
    ensures SystemInv(c, y)
  {
  }

  lemma SettleKeeps(c: Config, y: System, i: nat, signature: Option<Bytes>, write: FileWrite)
    requires SystemInv(c, y) && y.w.proc.Some? && i < |y.s.tasks| && y.s.tasks[i].Signing?
    ensures SystemInv(c, After(c, y, Settle(i, signature, write)))
  {
    var y' := After(c, y, Settle(i, signature, write));
    SettleOnward(c, y, i, signature, write);
    SettledTasks(c, y, i, signature, write);
    SettledLast(c, y, i, signature, write);
    if y.past.atStop.Some? { StopSettles(y.w.chain, y.s.tasks, i, y.past.atStop.value.0, y.past.atStop.value.1); }
    Assembles(c, y', y'.w.proc.value);
  }

  lemma EventKeeps(c: Config, y: System, e: Event)
    requires SystemInv(c, y) && Possible(c, y, e)
    ensures SystemInv(c, After(c, y, e))
  {
    match e {
      case LogStep(step) => LogStepKeeps(c, y, step);
      case Tick => EnqueueKeeps(c, y.w, y.w.proc.value, y.s, y.past);
      case Stop => EnqueueKeeps(c, y.w, y.w.proc.value, y.s.(stopped := true), y.past);
      case Begin(i, now) => BeginKeeps(c, y, i, now);
      case Settle(i, signature, write) => SettleKeeps(c, y, i, signature, write);
    }
  }

  lemma {:induction false} RunsKeep(c: Config, y: System, es: seq<Event>, y': System)
    requires SystemInv(c, y) && Runs(c, y, es, y')
    ensures SystemInv(c, y')
    decreases |es|
  {
    if es != [] {
      EventKeeps(c, y, es[0]);
      RunsKeep(c, After(c, y, es[0]), es[1..], y');
    }
  }

  lemma ReachableSound(c: Config, es: seq<Event>, y: System)
    requires Faithful(c) && Runs(c, StartSystem(), es, y)
    ensures SystemInv(c, y)
  {
    StartInv(c);
    RunsKeep(c, StartSystem(), es, y);
  }

  // ---- the theorems ----

  /** Across appends, crashes, restarts, pending and failed signatures and torn writes, every anchor
      on disk that parses names the length and digest of a prefix of the committed chain, commits to
      that head, and is filed under its position. */
  lemma AnchorsNamePrefixes(c: Config, es: seq<Event>, y: System, f: Member<AnchorFile>)
    requires Faithful(c) && Runs(c, StartSystem(), es, y)
    requires f in y.w.disk.anchors && f.value.Signed?
    ensures var a := f.value.anchor;
            && a.head.seqNo <= |y.w.chain|
            && a.head == HeadOf(c, y.w.chain[..a.head.seqNo])
            && c.commit(a.head) == Some(a.commitment)
            && f.key == AnchorName(a.head.seqNo, a.timestamp)
  {
    ReachableSound(c, es, y);
  }

  /** One scheduler never has two exports in flight, and anchors each position at most once, upwards. */
  lemma OneExportAtATime(c: Config, es: seq<Event>, y: System, i: nat, j: nat)
    requires Faithful(c) && Runs(c, StartSystem(), es, y) && y.w.proc.Some?
    requires i < |y.s.tasks| && j < |y.s.tasks| && y.s.tasks[i].Signing? && y.s.tasks[j].Signing?
    ensures i == j
    ensures forall n | n in y.past.exported :: n < y.s.tasks[i].anchor.head.seqNo
    ensures Increasing(y.past.exported)
  {
    ReachableSound(c, es, y);
    PendingIs(c, y, i);
    ExportedBelow(c, y);
  }

  lemma ExportedBelow(c: Config, y: System)
    requires SystemInv(c, y) && y.w.proc.Some?
    ensures Increasing(y.past.exported) && forall n | n in y.past.exported :: n <= y.s.lastAnchoredSeq
  {
    var ns := y.past.exported;
    forall n | n in ns ensures n <= y.s.lastAnchoredSeq {
      var k :| 0 <= k < |ns| && ns[k] == n;
      if k < |ns| - 1 { assert ns[k] < ns[|ns| - 1]; }
    }
  }

  predicate LeftBehind(c: Config, chain: seq<Record>, files: seq<Member<AnchorFile>>, cut: set<nat>,
                       read: Option<Head>) {
    && read.Some? && read.value.seqNo <= |chain| && read.value == HeadOf(c, chain[..read.value.seqNo])
    && (AnchorFor(files, read.value) || read.value.seqNo in cut)
  }

  /** What a finished attempt left. */
  lemma DoneLeft(c: Config, y: System, k: nat)
    requires SystemInv(c, y) && y.w.proc.Some? && k < |y.s.tasks| && y.s.tasks[k].Done? && y.w.proc.value.failure.None?
    ensures LeftBehind(c, y.w.chain, y.w.disk.anchors, y.past.cut, y.s.tasks[k].read)
  {
    assert TaskSound(c, y.w, y.w.proc.value, y.s.lastAnchoredSeq, y.past.cut, y.s.tasks[k]);
  }

  lemma StopRead(c: Config, y: System, k: nat, n: nat)
    requires SystemInv(c, y) && y.w.proc.Some? && y.past.atStop == Some((k, n))
    ensures StopSound(y.w.chain, y.s.tasks, k, n)
  {
  }

  lemma AllCutTorn(c: Config, y: System)
    requires SystemInv(c, y) && y.w.proc.Some?
    ensures forall n | n in y.past.cut :: TornAt(y.w.disk.anchors, n)
  {
  }

  /** When the attempt queued by the first `stop` is done, the log refuses or an anchor is on disk for the
      head that attempt read, unless that very file fell short without an error, and then it is torn. The
      head read is no shorter than the chain was at `stop`; with nothing appended since, it is the final head. */
  lemma StopAnchors(c: Config, es: seq<Event>, y: System, k: nat, n: nat)
    requires Faithful(c) && Runs(c, StartSystem(), es, y) && y.w.proc.Some? && y.w.proc.value.failure.None?
    requires y.past.atStop == Some((k, n)) && k < |y.s.tasks| && y.s.tasks[k].Done?
    ensures y.s.tasks[k].read.Some?
    ensures var h := y.s.tasks[k].read.value;
            && h.seqNo >= n && (|y.w.chain| == n ==> h == HeadOf(c, y.w.chain))
            && (h.seqNo !in y.past.cut ==> AnchorFor(y.w.disk.anchors, h))
            && (h.seqNo in y.past.cut ==> TornAt(y.w.disk.anchors, h.seqNo))
  {
    StopReads(c, es, y, k, n);
    var h := y.s.tasks[k].read.value;
    assert h.seqNo in y.past.cut ==> TornAt(y.w.disk.anchors, h.seqNo) by {
      ReachableSound(c, es, y);
      AllCutTorn(c, y);
    }
  }

  /** What the attempt read, and what it left unless its file fell short. */
  lemma StopReads(c: Config, es: seq<Event>, y: System, k: nat, n: nat)
    requires Faithful(c) && Runs(c, StartSystem(), es, y) && y.w.proc.Some? && y.w.proc.value.failure.None?
    requires y.past.atStop == Some((k, n)) && k < |y.s.tasks| && y.s.tasks[k].Done?
    ensures var read := y.s.tasks[k].read;
            && read.Some? && read.value.seqNo >= n && (|y.w.chain| == n ==> read.value == HeadOf(c, y.w.chain))
            && (AnchorFor(y.w.disk.anchors, read.value) || read.value.seqNo in y.past.cut)
  {
    assert StopSound(y.w.chain, y.s.tasks, k, n) by {
      ReachableSound(c, es, y);
      StopRead(c, y, k, n);
    }
    var chain := y.w.chain;
    assert LeftBehind(c, chain, y.w.disk.anchors, y.past.cut, y.s.tasks[k].read) by {
      ReachableSound(c, es, y);
      DoneLeft(c, y, k);
    }
    assert chain[..|chain|] == chain;
  }

  /** Events within one process. */
  predicate SameLife(es: seq<Event>) {
    forall i :: 0 <= i < |es| ==> es[i].LogStep? ==> es[i].step.Do? || es[i].step.Refuse?
  }

  /** Once an append or an anchor has failed, nothing the process does later touches the chain or the
      head file, whatever is still pending. */
  lemma {:induction false} FailedStaysStill(c: Config, y: System, es: seq<Event>, y': System)
    requires y.w.proc.Some? && y.w.proc.value.failure.Some? && SameLife(es) && Runs(c, y, es, y')
    ensures y'.w.disk == y.w.disk.(anchors := y'.w.disk.anchors)
    ensures y'.w.chain == y.w.chain && y'.w.returned == y.w.returned
    ensures y'.w.proc == y.w.proc
    decreases |es|
  {
    if es != [] {
      var next := After(c, y, es[0]);
      assert next.w.proc == y.w.proc && next.w.disk == y.w.disk.(anchors := next.w.disk.anchors);
      FailedStaysStill(c, next, es[1..], y');
    }
  }
}
