/** What anchor files hold: over every run, the captures that attempts made and the signatures that arrived for them. */
module Exports {
  import opened Common
  import opened Json
  import opened AnchorNames
  import opened Log
  import opened Recovery
  import opened Scheduler

  /** What an attempt took when it began: the instance's head, the commitment to it, and the time. */
  datatype Begun = Begun(head: Head, commitment: Digest, time: nat)

  /** An attempt's capture and the signature that arrived for it. */
  datatype Export = Export(begun: Begun, signature: Bytes)

  /** The attempts of this process that began and captured, and every signature that ever arrived. */
  datatype Ledger = Ledger(begun: map<nat, Begun>, exports: seq<Export>)

  const NO_EXPORTS: Ledger := Ledger(map[], [])

  /** The head moved since the last anchor, and the log vouches for it. */
  predicate Captures(c: Config, y: System) {
    && y.w.proc.Some? && y.w.proc.value.failure.None?
    && y.w.proc.value.head.seqNo != y.s.lastAnchoredSeq && c.commit(y.w.proc.value.head).Some?
  }

  function Enter(c: Config, y: System, l: Ledger, e: Scheduler.Event): Ledger {
    match e
    case Begin(i, now) =>
      if !Captures(c, y) then l
      else
        var head := y.w.proc.value.head;
        l.(begun := l.begun[i := Begun(head, c.commit(head).value, now)])
    case Settle(i, signature, _) =>
      if signature.None? || i !in l.begun then l
      else l.(exports := l.exports + [Export(l.begun[i], signature.value)])
    case LogStep(step) => if step.Do? || step.Refuse? then l else l.(begun := map[])
    case _ => l
  }

  /** The ledger after a run. */
  function LedgerAfter(c: Config, y: System, l: Ledger, es: seq<Scheduler.Event>, y': System): Ledger
    requires Runs(c, y, es, y')
    decreases |es|
  {
    if es == [] then l else LedgerAfter(c, Scheduler.After(c, y, es[0]), Enter(c, y, l, es[0]), es[1..], y')
  }

  /** The anchor as it is signed. */
  function AnchorOf(x: Export): Anchor { Anchor(x.begun.head, x.begun.commitment, x.begun.time, x.signature) }

  predicate TaskFrom(l: Ledger, i: nat, t: Task) {
    t.Signing? ==> i in l.begun && t.anchor == Anchor(l.begun[i].head, l.begun[i].commitment, l.begun[i].time, [])
  }

  predicate FileFrom(l: Ledger, f: Member<AnchorFile>) {
    f.value.Signed? ==>
      exists x :: x in l.exports && f.value.anchor == AnchorOf(x)
                  && f.key == AnchorName(x.begun.head.seqNo, x.begun.time)
  }

  ghost predicate Kept(y: System, l: Ledger) {
    && (forall i :: 0 <= i < |y.s.tasks| ==> TaskFrom(l, i, y.s.tasks[i]))
    && (forall f | f in y.w.disk.anchors :: FileFrom(l, f))
    && DistinctKeys(y.w.disk.anchors)
  }

  lemma FilesStay(l: Ledger, l': Ledger, files: seq<Member<AnchorFile>>)
    requires (forall f | f in files :: FileFrom(l, f)) && l.exports <= l'.exports
    ensures forall f | f in files :: FileFrom(l', f)
  {
    forall f | f in files ensures FileFrom(l', f) {
      if f.value.Signed? {
        var x :| x in l.exports && f.value.anchor == AnchorOf(x)
                 && f.key == AnchorName(x.begun.head.seqNo, x.begun.time);
        assert x in l'.exports;
      }
    }
  }

  lemma BeginEnters(c: Config, y: System, l: Ledger, i: nat, now: nat)
    requires Kept(y, l) && Possible(c, y, Scheduler.Begin(i, now))
    ensures Kept(Scheduler.After(c, y, Scheduler.Begin(i, now)), Enter(c, y, l, Scheduler.Begin(i, now)))
  {
    var y', l' := Scheduler.After(c, y, Scheduler.Begin(i, now)), Enter(c, y, l, Scheduler.Begin(i, now));
    FilesStay(l, l', y.w.disk.anchors);
    forall j | 0 <= j < |y'.s.tasks| ensures TaskFrom(l', j, y'.s.tasks[j]) {
      assert TaskFrom(l, j, y.s.tasks[j]);
    }
  }

  lemma SettleEnters(c: Config, y: System, l: Ledger, i: nat, signature: Option<Bytes>, write: FileWrite)
    requires Kept(y, l) && Possible(c, y, Scheduler.Settle(i, signature, write))
    ensures var e := Scheduler.Settle(i, signature, write);
            Kept(Scheduler.After(c, y, e), Enter(c, y, l, e))
  {
    var e := Scheduler.Settle(i, signature, write);
    var y', l' := Scheduler.After(c, y, e), Enter(c, y, l, e);
    FilesStay(l, l', y.w.disk.anchors);
    assert TaskFrom(l, i, y.s.tasks[i]);
    forall j | 0 <= j < |y'.s.tasks| ensures TaskFrom(l', j, y'.s.tasks[j]) {
      assert TaskFrom(l, j, y.s.tasks[j]);
    }
    if signature.Some? && Writes(write) {
      var x := Export(l.begun[i], signature.value);
      assert x in l'.exports;
      Filing(l', y.w.disk.anchors, y.s.tasks[i].anchor, x, write);
    }
  }

  lemma Filing(l: Ledger, files: seq<Member<AnchorFile>>, a: Anchor, x: Export, write: FileWrite)
    requires DistinctKeys(files) && (forall f | f in files :: FileFrom(l, f)) && x in l.exports
    requires a.(signature := x.signature) == AnchorOf(x)
    ensures var after := Put(files, AnchorName(a.head.seqNo, a.timestamp), LeftAnchor(a, x.signature, write));
            DistinctKeys(after) && forall f | f in after :: FileFrom(l, f)
  {
    PutIs(files, AnchorName(a.head.seqNo, a.timestamp), LeftAnchor(a, x.signature, write));
  }

  lemma LogEnters(c: Config, y: System, l: Ledger, step: Step)
    requires Kept(y, l) && Enabled(c, y.w, step)
    ensures Kept(Scheduler.After(c, y, LogStep(step)), Enter(c, y, l, LogStep(step)))
  {
    var y', l' := Scheduler.After(c, y, LogStep(step)), Enter(c, y, l, LogStep(step));
    FilesStay(l, l', y.w.disk.anchors);
    forall j | 0 <= j < |y'.s.tasks| ensures TaskFrom(l', j, y'.s.tasks[j]) {
      if j < |y.s.tasks| { assert TaskFrom(l, j, y.s.tasks[j]); }
    }
  }

  lemma EventEnters(c: Config, y: System, l: Ledger, e: Scheduler.Event)
    requires Kept(y, l) && Possible(c, y, e)
    ensures Kept(Scheduler.After(c, y, e), Enter(c, y, l, e))
  {
    match e {
      case LogStep(step) => LogEnters(c, y, l, step);
      case Begin(i, now) => BeginEnters(c, y, l, i, now);
      case Settle(i, signature, write) => SettleEnters(c, y, l, i, signature, write);
      case _ =>
        forall j | 0 <= j < |y.s.tasks| ensures TaskFrom(l, j, y.s.tasks[j]) {}
    }
  }

  lemma {:induction false} RunKeepsLedger(c: Config, y: System, l: Ledger, es: seq<Scheduler.Event>, y': System)
    requires Kept(y, l) && Runs(c, y, es, y')
    ensures Kept(y', LedgerAfter(c, y, l, es, y'))
    decreases |es|
  {
    if es != [] {
      EventEnters(c, y, l, es[0]);
      RunKeepsLedger(c, Scheduler.After(c, y, es[0]), Enter(c, y, l, es[0]), es[1..], y');
    }
  }

  // ---- the theorems ----

  /** Over every run: each anchor file that parses holds exactly what some attempt captured when it began, its head,
      the commitment to it and the time, with the signature that arrived for that attempt, under that position and
      time. */
  lemma AnchorsAreExports(c: Config, es: seq<Scheduler.Event>, y: System, f: Member<AnchorFile>)
    requires Runs(c, StartSystem(), es, y) && f in y.w.disk.anchors && f.value.Signed?
    ensures exists x :: x in LedgerAfter(c, StartSystem(), NO_EXPORTS, es, y).exports
              && f.value.anchor.head == x.begun.head && f.value.anchor.commitment == x.begun.commitment
              && f.value.anchor.timestamp == x.begun.time && f.value.anchor.signature == x.signature
              && f.key == AnchorName(x.begun.head.seqNo, x.begun.time)
  {
    RunKeepsLedger(c, StartSystem(), NO_EXPORTS, es, y);
    assert FileFrom(LedgerAfter(c, StartSystem(), NO_EXPORTS, es, y), f);
    var x :| x in LedgerAfter(c, StartSystem(), NO_EXPORTS, es, y).exports && f.value.anchor == AnchorOf(x)
             && f.key == AnchorName(x.begun.head.seqNo, x.begun.time);
  }

  /** And a signature that arrives is filed so, when the write is complete. */
  lemma SettledIsFiled(c: Config, es: seq<Scheduler.Event>, y: System, i: nat, signature: Bytes)
    requires Runs(c, StartSystem(), es, y) && Possible(c, y, Scheduler.Settle(i, Some(signature), Complete))
    ensures var l := LedgerAfter(c, StartSystem(), NO_EXPORTS, es, y);
            && i in l.begun
            && Member(AnchorName(l.begun[i].head.seqNo, l.begun[i].time),
                      Signed(Anchor(l.begun[i].head, l.begun[i].commitment, l.begun[i].time, signature)))
               in Scheduler.After(c, y, Scheduler.Settle(i, Some(signature), Complete)).w.disk.anchors
  {
    RunKeepsLedger(c, StartSystem(), NO_EXPORTS, es, y);
    var l := LedgerAfter(c, StartSystem(), NO_EXPORTS, es, y);
    assert TaskFrom(l, i, y.s.tasks[i]);
    var a := y.s.tasks[i].anchor;
    PutIs(y.w.disk.anchors, AnchorName(a.head.seqNo, a.timestamp), LeftAnchor(a, signature, Complete));
  }

  /** When the attempt queued by the first `stop` is done and the log serves, the file for the head it read carries
      the signature that arrived for a capture of that head, unless that very file fell short without an error. */
  lemma StopLeavesSigned(c: Config, es: seq<Scheduler.Event>, y: System, k: nat, n: nat)
    requires Faithful(c) && Runs(c, StartSystem(), es, y) && y.w.proc.Some? && y.w.proc.value.failure.None?
    requires y.past.atStop == Some((k, n)) && k < |y.s.tasks| && y.s.tasks[k].Done?
    ensures y.s.tasks[k].read.Some?
    ensures var h := y.s.tasks[k].read.value;
            && h.seqNo >= n && (|y.w.chain| == n ==> h == HeadOf(c, y.w.chain))
            && (h.seqNo !in y.past.cut ==>
                 exists f, x :: f in y.w.disk.anchors && x in LedgerAfter(c, StartSystem(), NO_EXPORTS, es, y).exports
                   && f.value == Signed(Anchor(h, x.begun.commitment, x.begun.time, x.signature)) && x.begun.head == h)
  {
    StopAnchors(c, es, y, k, n);
    var h := y.s.tasks[k].read.value;
    if h.seqNo !in y.past.cut {
      var f :| f in y.w.disk.anchors && f.value.Signed? && f.value.anchor.head == h;
      AnchorsAreExports(c, es, y, f);
      var x :| x in LedgerAfter(c, StartSystem(), NO_EXPORTS, es, y).exports
               && f.value.anchor.head == x.begun.head && f.value.anchor.commitment == x.begun.commitment
               && f.value.anchor.timestamp == x.begun.time && f.value.anchor.signature == x.signature;
      assert f.value == Signed(Anchor(h, x.begun.commitment, x.begun.time, x.signature));
    }
  }

  /** The listener queues an attempt on the first record a process appends, and on no other. */
  lemma FirstAppendQueues(c: Config, y: System, e: Entry, now: nat, fault: Fault)
    requires Possible(c, y, LogStep(Do(e, now, fault)))
    ensures var y', m := Scheduler.After(c, y, LogStep(Do(e, now, fault))), y.w.proc.value;
            y'.s.tasks == if AppendAnswer(c, y.w.disk, m, e, now, fault).Appended? && m.appended == 0
                          then y.s.tasks + [Waiting] else y.s.tasks
  {
  }
}
