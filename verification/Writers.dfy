/** Several log instances over one directory, opened and appending in any order, with every I/O error. */
module Writers {
  import opened Common
  import opened Unicode
  import opened Encoding
  import opened ChainFile
  import opened Log
  import opened Recovery

  /** The instances that were opened, by name; one that died simply takes no more steps. `chain` is what has
      been renamed in, `returned` what appends have returned, and `strays` how many whole lines reached the
      file without their rename. */
  datatype Shared = Shared(disk: Disk, procs: map<nat, Mem>, chain: seq<Record>, returned: seq<Record>, strays: nat)

  datatype Step =
    | Open(p: nat, first: FileWrite, mem: Mem)
    | Append(p: nat, e: Entry, now: nat, fault: Fault)
    | Refuse(p: nat, why: Str)

  const NOBODY: Shared := Shared(Disk([], NoFile, NoFile, []), map[], [], [], 0)

  predicate Enabled(c: Config, w: Shared, s: Step) {
    match s
    case Open(p, first, mem) => p !in w.procs && IsOpened(c, w.disk, first, mem)
    case Append(p, _, _, _) => p in w.procs
    case Refuse(p, _) => p in w.procs
  }

  /** The append's whole line reaches the file. */
  predicate LeavesLine(c: Config, m: Mem, e: Entry, now: nat, fault: Fault) {
    Kept(c, Compose(m, e, now), fault) == Written(c, Compose(m, e, now))
  }

  function Next(c: Config, w: Shared, s: Step): Shared
    requires Enabled(c, w, s)
  {
    match s
    case Open(p, first, mem) => w.(disk := OpenDisk(c, w.disk, first), procs := w.procs[p := mem])
    case Append(p, e, now, fault) =>
      var m := w.procs[p];
      var a := AppendAnswer(c, w.disk, m, e, now, fault);
      var commits := Commits(c, w.disk, m, e, now, fault);
      Shared(AppendDisk(c, w.disk, m, e, now, fault),
             w.procs[p := AppendMem(c, w.disk, m, e, now, fault)],
             if commits then w.chain + [Compose(m, e, now)] else w.chain,
             if a.Appended? then w.returned + [a.record] else w.returned,
             if Starts(c, m, e, now) && !commits && LeavesLine(c, m, e, now, fault) then w.strays + 1 else w.strays)
    case Refuse(p, why) =>
      var m := w.procs[p];
      w.(procs := w.procs[p := if m.failure.None? then m.(failure := Some(RefusedBy(why))) else m])
  }

  predicate Reaches(c: Config, w: Shared, steps: seq<Step>, w': Shared)
    decreases |steps|
  {
    if steps == [] then w' == w
    else Enabled(c, w, steps[0]) && Reaches(c, Next(c, w, steps[0]), steps[1..], w')
  }

  /** The condition several writers need: no append leaves a part of its line. It reaches the file whole, or
      it throws before its first byte. */
  predicate Clean(c: Config, w: Shared, s: Step)
    requires Enabled(c, w, s)
  {
    match s
    case Append(p, e, now, fault) =>
      var m := w.procs[p];
      Starts(c, m, e, now) ==>
        LeavesLine(c, m, e, now, fault) || (fault.line.Fails? && Kept(c, Compose(m, e, now), fault) == [])
    case _ => true
  }

  /** A run in which every step is clean. */
  predicate CleanRun(c: Config, w: Shared, steps: seq<Step>, w': Shared)
    decreases |steps|
  {
    if steps == [] then w' == w
    else Enabled(c, w, steps[0]) && Clean(c, w, steps[0]) && CleanRun(c, Next(c, w, steps[0]), steps[1..], w')
  }

  // ---- the invariant ----

  /** The file holds one line for each record renamed in, and one more for each stray. */
  ghost predicate FileSound(c: Config, w: Shared) {
    && GoodChain(c, w.chain)
    && Partial(w.disk.chain) == [] && |Lines(w.disk.chain)| == |w.chain| + w.strays
    && (w.strays == 0 ==> w.disk.chain == ChainBytes(c, w.chain))
    && (w.disk.head.HeadIs? ==> w.disk.head.head == HeadOf(c, w.chain))
    && (w.disk.head.NoFile? ==>
          w.chain == [] && w.disk.chain == [] && forall p | p in w.procs :: w.procs[p].failure.Some?)
  }

  /** A live instance's head is that of a prefix of the chain. */
  predicate Behind(c: Config, chain: seq<Record>, m: Mem) {
    m.failure.None? ==> m.head.seqNo <= |chain| && m.head == HeadOf(c, chain[..m.head.seqNo])
  }

  predicate ReturnedIn(chain: seq<Record>, returned: seq<Record>) {
    forall r | r in returned :: r.seqNo < |chain| && chain[r.seqNo] == r
  }

  ghost predicate SharedInv(c: Config, w: Shared) {
    && FileSound(c, w)
    && (forall p | p in w.procs :: Behind(c, w.chain, w.procs[p]))
    && ReturnedIn(w.chain, w.returned)
  }

  lemma BehindStill(c: Config, chain: seq<Record>, r: Record, m: Mem)
    requires Behind(c, chain, m)
    ensures Behind(c, chain + [r], m)
  {
    if m.failure.None? { SamePrefix(chain, r, m.head.seqNo); }
  }

  /** The record a rename brings in follows the chain. */
  lemma RenamedFollows(c: Config, w: Shared, m: Mem, e: Entry, now: nat, fault: Fault)
    requires FileSound(c, w) && Commits(c, w.disk, m, e, now, fault)
    ensures var r := Compose(m, e, now);
            && GoodChain(c, w.chain + [r]) && HeadOf(c, w.chain + [r]) == NextHead(c, m, r)
            && ChainBytes(c, w.chain + [r]) == ChainBytes(c, w.chain) + Written(c, r)
  {
    ChainGrows(c, w.chain, Compose(m, e, now));
  }

  lemma AppendKeepsFile(c: Config, w: Shared, p: nat, e: Entry, now: nat, fault: Fault)
    requires FileSound(c, w) && p in w.procs && Clean(c, w, Step.Append(p, e, now, fault))
    ensures FileSound(c, Next(c, w, Step.Append(p, e, now, fault)))
  {
    var m := w.procs[p];
    if Starts(c, m, e, now) {
      if Commits(c, w.disk, m, e, now, fault) {
        CommitKeepsFile(c, w, p, e, now, fault);
      } else {
        StrayKeepsFile(c, w, p, e, now, fault);
      }
    }
  }

  lemma CommitKeepsFile(c: Config, w: Shared, p: nat, e: Entry, now: nat, fault: Fault)
    requires FileSound(c, w) && p in w.procs && Clean(c, w, Step.Append(p, e, now, fault))
    requires Commits(c, w.disk, w.procs[p], e, now, fault)
    ensures FileSound(c, Next(c, w, Step.Append(p, e, now, fault)))
  {
    KeptLines(c, w.disk.chain, Compose(w.procs[p], e, now), fault);
    RenamedFollows(c, w, w.procs[p], e, now, fault);
  }

  lemma StrayKeepsFile(c: Config, w: Shared, p: nat, e: Entry, now: nat, fault: Fault)
    requires FileSound(c, w) && p in w.procs && Clean(c, w, Step.Append(p, e, now, fault))
    requires Starts(c, w.procs[p], e, now) && !Commits(c, w.disk, w.procs[p], e, now, fault)
    ensures FileSound(c, Next(c, w, Step.Append(p, e, now, fault)))
  {
    KeptLines(c, w.disk.chain, Compose(w.procs[p], e, now), fault);
    assert w.disk.chain + [] == w.disk.chain;
  }

  lemma AppendKeepsProc(c: Config, w: Shared, p: nat, e: Entry, now: nat, fault: Fault, q: nat)
    requires FileSound(c, w) && p in w.procs && q in w.procs && Behind(c, w.chain, w.procs[q])
    ensures var w' := Next(c, w, Step.Append(p, e, now, fault)); Behind(c, w'.chain, w'.procs[q])
  {
    var m := w.procs[p];
    if Commits(c, w.disk, m, e, now, fault) {
      var r := Compose(m, e, now);
      RenamedFollows(c, w, m, e, now, fault);
      BehindStill(c, w.chain, r, w.procs[q]);
      WholePrefix(w.chain + [r]);
    }
  }

  lemma AppendKeepsReturned(c: Config, w: Shared, p: nat, e: Entry, now: nat, fault: Fault)
    requires FileSound(c, w) && p in w.procs && ReturnedIn(w.chain, w.returned)
    ensures var w' := Next(c, w, Step.Append(p, e, now, fault)); ReturnedIn(w'.chain, w'.returned)
  {
    var m, w' := w.procs[p], Next(c, w, Step.Append(p, e, now, fault));
    forall r | r in w'.returned ensures r.seqNo < |w'.chain| && w'.chain[r.seqNo] == r {
      if r !in w.returned { assert AppendAnswer(c, w.disk, m, e, now, fault) == Appended(r, c.hash(r)); }
    }
  }

  /** Startup over a shared directory. */
  lemma SharedDecides(c: Config, w: Shared)
    requires FileSound(c, w)
    ensures Recover(c, w.disk) == if w.strays > 0 || w.disk.head.Torn? then None else Some(HeadOf(c, w.chain))
    ensures Recover(c, w.disk).Some? ==> Lines(w.disk.chain) == LinesOf(c, w.chain)
  {
    LinesAreWhole(c, w.chain);
    if w.strays == 0 && w.disk.head.HeadIs? { RecoverDecides(c, w.chain, w.disk); }
  }

  lemma OpenKeepsShared(c: Config, w: Shared, p: nat, first: FileWrite, mem: Mem)
    requires SharedInv(c, w) && Enabled(c, w, Step.Open(p, first, mem))
    ensures SharedInv(c, Next(c, w, Step.Open(p, first, mem)))
  {
    OpenedServesExactly(c, w.disk, first, mem);
    SharedDecides(c, w);
    WholePrefix(w.chain);
  }

  lemma StepKeepsShared(c: Config, w: Shared, s: Step)
    requires SharedInv(c, w) && Enabled(c, w, s) && Clean(c, w, s)
    ensures SharedInv(c, Next(c, w, s))
    ensures w.chain <= Next(c, w, s).chain && w.strays <= Next(c, w, s).strays
  {
    match s {
      case Open(p, first, mem) => OpenKeepsShared(c, w, p, first, mem);
      case Append(p, e, now, fault) =>
        AppendKeepsFile(c, w, p, e, now, fault);
        AppendKeepsReturned(c, w, p, e, now, fault);
        forall q | q in w.procs ensures Behind(c, Next(c, w, s).chain, Next(c, w, s).procs[q]) {
          AppendKeepsProc(c, w, p, e, now, fault, q);
        }
      case Refuse(p, why) =>
    }
  }

  /** Over any clean run of any number of instances the strays, lines in the file minus lines renamed in,
      never grow fewer. */
  lemma {:induction false} RunKeepsShared(c: Config, w: Shared, steps: seq<Step>, w': Shared)
    requires SharedInv(c, w) && CleanRun(c, w, steps, w')
    ensures SharedInv(c, w') && w.chain <= w'.chain && w.strays <= w'.strays
    decreases |steps|
  {
    if steps != [] {
      StepKeepsShared(c, w, steps[0]);
      RunKeepsShared(c, Next(c, w, steps[0]), steps[1..], w');
    }
  }

  lemma ReachedShared(c: Config, steps: seq<Step>, w: Shared)
    requires Faithful(c) && CleanRun(c, NOBODY, steps, w)
    ensures SharedInv(c, w)
  {
    assert Lines([]) == [] && Partial([]) == [];
    RunKeepsShared(c, NOBODY, steps, w);
  }

  // ---- the theorems ----

  /** Any number of instances, any faults, no line left in part: a restart refuses exactly when some line was
      left without its rename, or the head file is torn. Otherwise it accepts at the head of everything renamed
      in, and the file holds exactly those lines, every returned append among them. */
  lemma SharedRecovery(c: Config, steps: seq<Step>, w: Shared)
    requires Faithful(c) && CleanRun(c, NOBODY, steps, w)
    ensures Recover(c, w.disk) == if w.strays > 0 || w.disk.head.Torn? then None else Some(HeadOf(c, w.chain))
    ensures w.strays == |Lines(w.disk.chain)| - |w.chain|
    ensures w.disk.head.HeadIs? ==> w.disk.head.head == HeadOf(c, w.chain)
    ensures Recover(c, w.disk).Some? ==>
              && GoodChain(c, w.chain) && Lines(w.disk.chain) == LinesOf(c, w.chain) && Partial(w.disk.chain) == []
              && (forall r | r in w.returned :: r.seqNo < |w.chain| && w.chain[r.seqNo] == r)
  {
    ReachedShared(c, steps, w);
    SharedDecides(c, w);
  }

  /** Instance p is live and holds the head that is on disk. */
  predicate Current(w: Shared, p: nat) {
    p in w.procs && w.procs[p].failure.None? && w.disk.head == HeadIs(w.procs[p].head)
  }

  /** Instance p is live and holds another head. */
  predicate Stale(w: Shared, p: nat) {
    p in w.procs && w.procs[p].failure.None? && w.disk.head != HeadIs(w.procs[p].head)
  }

  /** Instance p is dead, or behind the chain. */
  predicate Passed(w: Shared, p: nat) {
    p in w.procs && (w.procs[p].failure.Some? || w.procs[p].head.seqNo < |w.chain|)
  }

  /** An append that encodes, whatever fails in it: by a current instance it takes effect, so that every other
      live instance is passed, or its instance refuses; by a stale instance it takes no effect, leaves at most a
      stray line, and its instance refuses. */
  lemma AppendDecides(c: Config, w: Shared, p: nat, e: Entry, now: nat, fault: Fault)
    requires SharedInv(c, w) && p in w.procs && Starts(c, w.procs[p], e, now)
             && Clean(c, w, Step.Append(p, e, now, fault))
    ensures var w', r := Next(c, w, Step.Append(p, e, now, fault)), Compose(w.procs[p], e, now);
            var renamed := Renames(w.disk, w.procs[p], fault);
            && (Stale(w, p) ==> !renamed)
            && (renamed ==> w'.chain == w.chain + [r] && w'.strays == w.strays
                            && forall q | q != p && q in w.procs :: Passed(w', q))
            && (!renamed ==> w'.chain == w.chain && w'.disk.head == w.disk.head && w'.procs[p].failure.Some?
                             && w'.strays == w.strays + if LeavesLine(c, w.procs[p], e, now, fault) then 1 else 0)
            && (AppendAnswer(c, w.disk, w.procs[p], e, now, fault)
                == if renamed && fault.sync then Appended(r, c.hash(r)) else Unavailable)
  {
    forall q | q in w.procs ensures Behind(c, w.chain, w.procs[q]) {}
  }

  /** An instance the chain has passed never commits again. */
  lemma PassedCannotCommit(c: Config, w: Shared, q: nat, e: Entry, now: nat, fault: Fault)
    requires FileSound(c, w) && Passed(w, q)
    ensures !Commits(c, w.disk, w.procs[q], e, now, fault)
    ensures !AppendAnswer(c, w.disk, w.procs[q], e, now, fault).Appended?
  {
  }

  lemma PassedStays(c: Config, w: Shared, s: Step, q: nat)
    requires SharedInv(c, w) && Enabled(c, w, s) && Clean(c, w, s) && Passed(w, q)
    ensures Passed(Next(c, w, s), q)
  {
    StepKeepsShared(c, w, s);
    if s.Append? && s.p == q { PassedCannotCommit(c, w, q, s.e, s.now, s.fault); }
  }

  lemma {:induction false} PassedForever(c: Config, w: Shared, steps: seq<Step>, w': Shared, q: nat)
    requires SharedInv(c, w) && CleanRun(c, w, steps, w') && Passed(w, q)
    ensures SharedInv(c, w') && Passed(w', q)
    decreases |steps|
  {
    if steps != [] {
      PassedStays(c, w, steps[0], q);
      StepKeepsShared(c, w, steps[0]);
      PassedForever(c, Next(c, w, steps[0]), steps[1..], w', q);
    }
  }

  /** Of two live instances at one head, once an append of one takes effect, the other never commits again. */
  lemma FirstWriterWins(c: Config, before: seq<Step>, w: Shared, p: nat, q: nat, e: Entry, now: nat, fault: Fault,
                        steps: seq<Step>, w': Shared, e': Entry, now': nat, fault': Fault)
    requires Faithful(c) && CleanRun(c, NOBODY, before, w) && p != q && Current(w, p) && Current(w, q)
    requires Commits(c, w.disk, w.procs[p], e, now, fault) && Clean(c, w, Step.Append(p, e, now, fault))
    requires CleanRun(c, Next(c, w, Step.Append(p, e, now, fault)), steps, w')
    ensures q in w'.procs && !Commits(c, w'.disk, w'.procs[q], e', now', fault')
    ensures !AppendAnswer(c, w'.disk, w'.procs[q], e', now', fault').Appended?
  {
    ReachedShared(c, before, w);
    AppendDecides(c, w, p, e, now, fault);
    StepKeepsShared(c, w, Step.Append(p, e, now, fault));
    PassedForever(c, Next(c, w, Step.Append(p, e, now, fault)), steps, w', q);
    PassedCannotCommit(c, w', q, e', now', fault');
  }

  /** After one stale append that left its line, whatever is appended or opened later, no startup accepts. */
  lemma StaleAppendIsFinal(c: Config, before: seq<Step>, w: Shared, p: nat, e: Entry, now: nat, fault: Fault,
                           steps: seq<Step>, w': Shared)
    requires Faithful(c) && CleanRun(c, NOBODY, before, w)
    requires Stale(w, p) && Starts(c, w.procs[p], e, now) && LeavesLine(c, w.procs[p], e, now, fault)
    requires CleanRun(c, Next(c, w, Step.Append(p, e, now, fault)), steps, w')
    ensures Recover(c, w'.disk).None?
  {
    ReachedShared(c, before, w);
    StepKeepsShared(c, w, Step.Append(p, e, now, fault));
    RunKeepsShared(c, Next(c, w, Step.Append(p, e, now, fault)), steps, w');
    SharedDecides(c, w');
  }

  // ---- the condition is needed ----

  lemma RunFront(c: Config, w: Shared, s: Step, steps: seq<Step>, w': Shared)
    requires Enabled(c, w, s) && Reaches(c, Next(c, w, s), steps, w')
    ensures Reaches(c, w, [s] + steps, w')
  {
    assert ([s] + steps)[1..] == steps;
  }

  function Opening(c: Config): Mem { Mem(Genesis(c), None, Some([]), 0, 0) }

  /** Two instances over a fresh directory. */
  function Pair2(c: Config): Shared {
    Shared(Disk([], HeadIs(Genesis(c)), NoFile, []), map[0 := Opening(c), 1 := Opening(c)], [], [], 0)
  }

  /** The run that opens them and goes on with `steps`. */
  function PairRun(c: Config, steps: seq<Step>): seq<Step> {
    [Step.Open(0, Complete, Opening(c))] + ([Step.Open(1, Complete, Opening(c))] + steps)
  }

  lemma PairOpens(c: Config, steps: seq<Step>, w: Shared)
    requires Reaches(c, Pair2(c), steps, w)
    ensures Reaches(c, NOBODY, PairRun(c, steps), w)
  {
    assert Lines([]) == [] && Partial([]) == [];
    var one := Next(c, NOBODY, Step.Open(0, Complete, Opening(c)));
    assert Next(c, one, Step.Open(1, Complete, Opening(c))) == Pair2(c);
    RunFront(c, one, Step.Open(1, Complete, Opening(c)), steps, w);
    RunFront(c, NOBODY, Step.Open(0, Complete, Opening(c)), [Step.Open(1, Complete, Opening(c))] + steps, w);
  }

  function First(e: Entry, now: nat): Record { Record(0, now, e.fields, e.payload, e.metadata, GENESIS) }

  function Second(c: Config, e: Entry, now: nat): Record {
    Record(1, now, e.fields, e.payload, e.metadata, c.hash(First(e, now)))
  }

  /** Instance 0's line stops after its first byte; then instance 1 appends twice. */
  function TornSteps(e: Entry): seq<Step> {
    [Step.Append(0, e, 0, SOUND.(line := Fails(1)))]
    + ([Step.Append(1, e, 0, SOUND)] + ([Step.Append(1, e, 0, SOUND)] + []))
  }

  /** Instance 0's line is lost without an error; instance 1, behind, leaves another in its place; then
      instance 0 appends again. */
  function LostSteps(e: Entry): seq<Step> {
    [Step.Append(0, e, 0, SOUND.(line := Short(0)))]
    + ([Step.Append(1, e, 1, SOUND)] + ([Step.Append(0, e, 0, SOUND)] + []))
  }

  lemma RunThree(c: Config, w: Shared, s0: Step, s1: Step, s2: Step)
    requires Enabled(c, w, s0) && Enabled(c, Next(c, w, s0), s1) && Enabled(c, Next(c, Next(c, w, s0), s1), s2)
    ensures Reaches(c, w, [s0] + ([s1] + ([s2] + [])), Next(c, Next(c, Next(c, w, s0), s1), s2))
  {
    var w1 := Next(c, w, s0);
    var w2 := Next(c, w1, s1);
    var w3 := Next(c, w2, s2);
    assert Reaches(c, w3, [], w3);
    RunFront(c, w2, s2, [], w3);
    RunFront(c, w1, s1, [s2] + [], w3);
    RunFront(c, w, s0, [s1] + ([s2] + []), w3);
  }

  lemma TornEndsIn(c: Config, e: Entry) returns (w: Shared)
    requires c.encodes(First(e, 0)) && c.encodes(Second(c, e, 0)) && c.line(First(e, 0)) != []
    ensures Reaches(c, Pair2(c), TornSteps(e), w)
    ensures !Clean(c, Pair2(c), TornSteps(e)[0])
    ensures var l0, l1 := c.line(First(e, 0)), c.line(Second(c, e, 0));
            && w.disk.chain == [l0[0]] + (l0 + [NEWLINE]) + (l1 + [NEWLINE])
            && w.disk.head == HeadIs(Head(c.chainId, 2, c.hash(Second(c, e, 0))))
  {
    var s0, s1 := Step.Append(0, e, 0, SOUND.(line := Fails(1))), Step.Append(1, e, 0, SOUND);
    var l0 := c.line(First(e, 0));
    RunThree(c, Pair2(c), s0, s1, s1);
    var w1 := Next(c, Pair2(c), s0);
    assert Written(c, First(e, 0))[..1] == [l0[0]];
    assert w1.disk.chain == [l0[0]];
    var w2 := Next(c, w1, s1);
    assert w2.disk.head == HeadIs(w2.procs[1].head);
    w := Next(c, w2, s1);
  }

  lemma LostEndsIn(c: Config, e: Entry) returns (w: Shared)
    requires c.encodes(First(e, 0)) && c.encodes(First(e, 1)) && c.encodes(Second(c, e, 0))
    ensures Reaches(c, Pair2(c), LostSteps(e), w)
    ensures !Clean(c, Pair2(c), LostSteps(e)[0])
    ensures w.disk.chain == Written(c, First(e, 1)) + Written(c, Second(c, e, 0))
    ensures w.disk.head == HeadIs(Head(c.chainId, 2, c.hash(Second(c, e, 0))))
    ensures w.chain == [First(e, 0), Second(c, e, 0)] && First(e, 0) in w.returned
  {
    var s0, s1 := Step.Append(0, e, 0, SOUND.(line := Short(0))), Step.Append(1, e, 1, SOUND);
    var s2 := Step.Append(0, e, 0, SOUND);
    RunThree(c, Pair2(c), s0, s1, s2);
    var w1 := Next(c, Pair2(c), s0);
    assert w1.disk.chain == [] && w1.returned == [First(e, 0)];
    var w2 := Next(c, w1, s1);
    assert w2.disk.chain == Written(c, First(e, 1)) && w2.disk.head == HeadIs(w2.procs[0].head);
    w := Next(c, w2, s2);
  }

  lemma TwoLines(l0: Bytes, l1: Bytes)
    requires OneLine(l0) && OneLine(l1)
    ensures Lines((l0 + [NEWLINE]) + (l1 + [NEWLINE])) == [l0, l1] && Partial((l0 + [NEWLINE]) + (l1 + [NEWLINE])) == []
  {
    assert Lines([]) == [] && Partial([]) == [];
    SplitAppendLine([], l0);
    assert [] + (l0 + [NEWLINE]) == l0 + [NEWLINE] && [] + l0 == l0 && [] + l1 == l1;
    SplitAppendLine(l0 + [NEWLINE], l1);
  }

  /** A torn byte becomes part of the next writer's line; the line count and the last line agree with the
      head, and a restart accepts a file whose first line is no record. */
  lemma TornRunAccepted(c: Config, e: Entry) returns (w: Shared)
    requires Faithful(c) && c.encodes(First(e, 0)) && c.encodes(Second(c, e, 0))
    ensures Reaches(c, Pair2(c), TornSteps(e), w) && !Clean(c, Pair2(c), TornSteps(e)[0])
    ensures Recover(c, w.disk).Some?
    ensures Lines(w.disk.chain) != [] && c.parse(Lines(w.disk.chain)[0]).None?
  {
    assert LineOf(c, First(e, 0)) && LineOf(c, Second(c, e, 0));
    w := TornEndsIn(c, e);
    var l0, l1 := c.line(First(e, 0)), c.line(Second(c, e, 0));
    assert Started(c, [l0[0]]);
    assert l0[0] in l0;
    Regroup3([l0[0]], l0, [NEWLINE]);
    TwoLines([l0[0]] + l0, l1);
  }

  /** A lost line's place is taken by a line that was never renamed in; a restart accepts the file, though the
      append it lacks has returned. */
  lemma LostRunAccepted(c: Config, e: Entry) returns (w: Shared)
    requires Faithful(c) && c.encodes(First(e, 0)) && c.encodes(First(e, 1)) && c.encodes(Second(c, e, 0))
    ensures Reaches(c, Pair2(c), LostSteps(e), w) && !Clean(c, Pair2(c), LostSteps(e)[0])
    ensures Recover(c, w.disk).Some? && First(e, 0) in w.returned
    ensures c.line(First(e, 0)) !in Lines(w.disk.chain)
  {
    assert LineOf(c, First(e, 0)) && LineOf(c, First(e, 1)) && LineOf(c, Second(c, e, 0));
    w := LostEndsIn(c, e);
    TwoLines(c.line(First(e, 1)), c.line(Second(c, e, 0)));
  }

  // ---- the same runs under encoding v3 ----

  function BareFields(event: Str): (fields: seq<Str>)
    ensures |fields| == 10 && fields[EVENT_TYPE] == event && forall k :: 1 <= k < 10 ==> fields[k] == []
  {
    [event, [], [], [], [], [], [], [], [], []]
  }

  function BareDeny(): Entry { Entry(BareFields(Ascii("deny")), None, None) }

  /** An event of a known type and nothing else encodes. */
  lemma BareRecordEncodes(event: Str, r: Record)
    requires event in EventTypes() && FieldEncodes(event)
    requires r.seqNo <= MAX_SAFE && r.timestamp <= MAX_SAFE && r.payload == None && r.metadata == None
    requires |r.fields| == 10 && r.fields[EVENT_TYPE] == event && forall k :: 1 <= k < 10 ==> r.fields[k] == []
    ensures Encodes(r)
  {
    BareFieldsEncode(event, r.fields);
    BareDigestible(r);
  }

  lemma BareFieldsEncode(event: Str, fields: seq<Str>)
    requires FieldEncodes(event) && |fields| == 10 && fields[0] == event && forall k :: 1 <= k < 10 ==> fields[k] == []
    ensures forall s | s in fields :: FieldEncodes(s)
  {
    forall s | s in fields ensures FieldEncodes(s) {
      var k :| 0 <= k < 10 && fields[k] == s;
    }
  }

  lemma BareDigestible(r: Record)
    requires r.seqNo <= MAX_SAFE && r.timestamp <= MAX_SAFE && r.payload == None && r.metadata == None
    requires |r.fields| == 10 && forall s | s in r.fields :: FieldEncodes(s)
    ensures Digestible(r)
  {
  }

  lemma DenyIsEvent()
    ensures Ascii("deny") in EventTypes()
  {
    assert EventTypes()[1] == Ascii("deny");
  }

  lemma DenyFieldEncodes()
    ensures FieldEncodes(Ascii("deny"))
  {
    PlainUnits(Ascii("deny"));
    Utf8Length(Ascii("deny"));
  }

  lemma DenyEncodes(seqNo: nat, now: nat, prev: Digest)
    requires seqNo <= MAX_SAFE && now <= MAX_SAFE
    ensures Encodes(Record(seqNo, now, BareFields(Ascii("deny")), None, None, prev))
  {
    DenyIsEvent();
    DenyFieldEncodes();
    BareRecordEncodes(Ascii("deny"), Record(seqNo, now, BareFields(Ascii("deny")), None, None, prev));
  }

  /** The condition is needed, for every hash and chain id: one torn line, and two writers, and a restart
      accepts a file whose first line is no record. */
  lemma TornLineAccepted(H: Bytes -> Digest, chainId: Str) returns (w: Shared)
    ensures var c := V3(H, chainId);
            && Reaches(c, NOBODY, PairRun(c, TornSteps(BareDeny())), w)
            && !Clean(c, Pair2(c), TornSteps(BareDeny())[0])
            && Recover(c, w.disk).Some?
            && Lines(w.disk.chain) != [] && c.parse(Lines(w.disk.chain)[0]).None?
  {
    var c := V3(H, chainId);
    DenyEncodes(0, 0, GENESIS);
    DenyEncodes(1, 0, c.hash(First(BareDeny(), 0)));
    V3Faithful(H, chainId);
    w := TornRunAccepted(c, BareDeny());
    PairOpens(c, TornSteps(BareDeny()), w);
  }

  /** And one line lost without an error: a restart accepts a file without a record whose append returned. */
  lemma LostLineAccepted(H: Bytes -> Digest, chainId: Str) returns (w: Shared)
    ensures var c := V3(H, chainId);
            && Reaches(c, NOBODY, PairRun(c, LostSteps(BareDeny())), w)
            && !Clean(c, Pair2(c), LostSteps(BareDeny())[0])
            && Recover(c, w.disk).Some? && First(BareDeny(), 0) in w.returned
            && c.line(First(BareDeny(), 0)) !in Lines(w.disk.chain)
  {
    var c := V3(H, chainId);
    DenyEncodes(0, 0, GENESIS);
    DenyEncodes(0, 1, GENESIS);
    DenyEncodes(1, 0, c.hash(First(BareDeny(), 0)));
    V3Faithful(H, chainId);
    w := LostRunAccepted(c, BareDeny());
    PairOpens(c, LostSteps(BareDeny()), w);
  }
}
