/** Pages as they are served, whatever the file has become: a byte range that does not hold the lines asked for
    is refused, and pages requested while the chain grows still put it together. */
module Serving {
  import opened Common
  import opened Encoding
  import opened ChainFile
  import opened Log
  import opened Recovery
  import opened Paging

  predicate EndsIn(b: Bytes, l: Bytes) { |l| <= |b| && b[|b| - |l|..] == l }

  predicate IsLine(c: Config, r: Record, l: Bytes) { c.encodes(r) && c.line(r) == l }

  /** A line is read only where it starts, and only as a whole: nothing parses that ends in a line and has more
      before it, nor what is left of a line behind its start. */
  ghost predicate Unmixed(c: Config) {
    && (forall q: Bytes, r: Record :: q != [] && c.encodes(r) ==> c.parse(q + c.line(r)).None?)
    && (forall p: Bytes, s: Bytes, r: Record :: p != [] && IsLine(c, r, p + s) ==> c.parse(s).None?)
  }

  lemma V3Unmixed(H: Bytes -> Digest, chainId: Str)
    ensures Unmixed(V3(H, chainId))
  {
    var c := V3(H, chainId);
    forall q: Bytes, r: Record | q != [] && c.encodes(r) ensures c.parse(q + c.line(r)).None? {
      V3Line(H, chainId, r);
      LineReadsFromItsStart(q, r);
    }
    forall p: Bytes, s: Bytes, r: Record | p != [] && IsLine(c, r, p + s) ensures c.parse(s).None? {
      V3Line(H, chainId, r);
      LineReadsWhole(p, s, r);
    }
  }

  lemma LongerIsRefused(c: Config, l: Bytes, r: Record)
    requires Unmixed(c) && c.encodes(r) && EndsIn(l, c.line(r)) && |c.line(r)| < |l|
    ensures c.parse(l).None?
  {
    assert l == l[..|l| - |c.line(r)|] + c.line(r);
  }

  lemma ShorterIsRefused(c: Config, l: Bytes, r: Record)
    requires Unmixed(c) && c.encodes(r) && EndsIn(c.line(r), l) && |l| < |c.line(r)|
    ensures c.parse(l).None?
  {
    var n := c.line(r);
    assert n == n[..|n| - |l|] + l;
    assert IsLine(c, r, n[..|n| - |l|] + l);
  }

  /** Of what ends where a line ends, only that line parses. */
  lemma ParsesOnlyItself(c: Config, b: Bytes, l: Bytes, r: Record)
    requires Unmixed(c) && c.encodes(r) && EndsIn(b, c.line(r)) && EndsIn(b, l) && c.parse(l).Some?
    ensures l == c.line(r)
  {
    if |c.line(r)| < |l| {
      LongerIsRefused(c, l, r);
    } else if |l| < |c.line(r)| {
      ShorterIsRefused(c, l, r);
    }
  }

  // ---- lines of a byte range ----

  lemma EndsInGrows(b: Bytes, l: Bytes, u: Byte)
    requires EndsIn(b, l)
    ensures EndsIn(b + [u], l + [u])
  {
    assert (b + [u])[|b| - |l|..] == b[|b| - |l|..] + [u];
  }

  /** The lines of the last bytes of a file end lines of the file. */
  lemma {:induction false} LinesBehind(x: Bytes, y: Bytes)
    ensures forall l | l in Lines(y) :: exists k :: 0 <= k < |Lines(x + y)| && EndsIn(Lines(x + y)[k], l)
    ensures EndsIn(Partial(x + y), Partial(y))
  {
    if y == [] {
      assert x + y == x;
    } else {
      var n := |y| - 1;
      LinesBehind(x, y[..n]);
      assert (x + y)[..|x + y| - 1] == x + y[..n];
      var before, after := Lines(x + y[..n]), Lines(x + y);
      forall l | l in Lines(y) ensures exists k :: 0 <= k < |after| && EndsIn(after[k], l) {
        if l in Lines(y[..n]) {
          var k :| 0 <= k < |before| && EndsIn(before[k], l);
          assert after[k] == before[k];
        } else {
          assert after[|before|] == Partial(x + y[..n]) && l == Partial(y[..n]);
        }
      }
      if y[n] != NEWLINE { EndsInGrows(Partial(x + y[..n]), Partial(y[..n]), y[n]); }
    }
  }

  /** More bytes only add lines. */
  lemma {:induction false} LinesBefore(a: Bytes, z: Bytes)
    ensures Lines(a) <= Lines(a + z)
  {
    if z == [] {
      assert a + z == a;
    } else {
      var n := |z| - 1;
      LinesBefore(a, z[..n]);
      assert (a + z)[..|a + z| - 1] == a + z[..n];
    }
  }

  /** Every line of a byte range ends a line of the file. */
  lemma RangeEndsLines(b: Bytes, start: nat, end: nat, l: Bytes)
    requires start <= end <= |b| && l in Lines(b[start..end])
    ensures exists k :: 0 <= k < |Lines(b)| && EndsIn(Lines(b)[k], l)
  {
    LinesBehind(b[..start], b[start..end]);
    assert b[..start] + b[start..end] == b[..end];
    LinesBefore(b[..end], b[end..]);
    assert b[..end] + b[end..] == b;
    var k :| 0 <= k < |Lines(b[..end])| && EndsIn(Lines(b[..end])[k], l);
    assert Lines(b)[k] == Lines(b[..end])[k];
  }

  // ---- what the file's lines end in ----

  /** The file's line ends in the line of a record that is committed at its position, or of one whose append
      stopped before its rename. */
  predicate TailOf(c: Config, w: World, l: Bytes, r: Record) {
    && c.encodes(r) && EndsIn(l, c.line(r))
    && if r.seqNo < |w.chain| then w.chain[r.seqNo] == r else w.stopped
  }

  ghost predicate Tailed(c: Config, w: World) {
    forall l | l in Lines(w.disk.chain) :: exists r: Record :: TailOf(c, w, l, r)
  }

  lemma TailStays(c: Config, w: World, w': World, l: Bytes)
    requires exists r: Record :: TailOf(c, w, l, r)
    requires w.chain <= w'.chain && (w.stopped ==> w'.stopped && w'.chain == w.chain)
    ensures exists r: Record :: TailOf(c, w', l, r)
  {
    var r: Record :| TailOf(c, w, l, r);
    assert TailOf(c, w', l, r);
  }

  /** Steps that leave the chain file alone. */
  lemma TailsStay(c: Config, w: World, w': World)
    requires Tailed(c, w) && w'.disk.chain == w.disk.chain && w'.chain == w.chain && w'.stopped == w.stopped
    ensures Tailed(c, w')
  {
    forall l | l in Lines(w'.disk.chain) ensures exists r: Record :: TailOf(c, w', l, r) { TailStays(c, w, w', l); }
  }

  lemma AppendKeepsTails(c: Config, w: World, m: Mem, e: Entry, now: nat, fault: Fault)
    requires GoodChain(c, w.chain) && LiveSound(c, w, m) && Tailed(c, w)
    ensures Tailed(c, AfterAppend(c, w, m, e, now, fault))
  {
    var w', r := AfterAppend(c, w, m, e, now, fault), Compose(m, e, now);
    if Starts(c, m, e, now) {
      KeptLines(c, w.disk.chain, r, fault);
      if Kept(c, r, fault) == Written(c, r) { NewTail(c, w, m, e, now, fault); }
      forall l | l in Lines(w'.disk.chain) ensures exists t: Record :: TailOf(c, w', l, t) {
        if l in Lines(w.disk.chain) { TailStays(c, w, w', l); }
      }
    }
  }

  /** The one line an append may add. */
  lemma NewTail(c: Config, w: World, m: Mem, e: Entry, now: nat, fault: Fault)
    requires LiveSound(c, w, m) && Starts(c, m, e, now)
    requires Kept(c, Compose(m, e, now), fault) == Written(c, Compose(m, e, now))
    ensures TailOf(c, AfterAppend(c, w, m, e, now, fault), Partial(w.disk.chain) + c.line(Compose(m, e, now)),
                   Compose(m, e, now))
  {
  }

  lemma StepKeepsTails(c: Config, w: World, s: Step)
    requires Inv(c, w) && Enabled(c, w, s) && Tailed(c, w)
    ensures Tailed(c, Next(c, w, s))
  {
    match s {
      case Do(e, now, fault) =>
        AppendKeepsTails(c, w, w.proc.value, e, now, fault);
        TailsStay(c, AfterAppend(c, w, w.proc.value, e, now, fault), Next(c, w, s));
      case Die(e, now, fault) =>
        AppendKeepsTails(c, w, w.proc.value, e, now, fault);
        TailsStay(c, AfterAppend(c, w, w.proc.value, e, now, fault), Next(c, w, s));
      case _ => TailsStay(c, w, Next(c, w, s));
    }
  }

  lemma {:induction false} RunKeepsTails(c: Config, w: World, steps: seq<Step>, w': World)
    requires Inv(c, w) && Tailed(c, w) && Reaches(c, w, steps, w')
    ensures Tailed(c, w')
    decreases |steps|
  {
    if steps != [] {
      StepKeepsTails(c, w, steps[0]);
      StepKeeps(c, w, steps[0]);
      RunKeepsTails(c, Next(c, w, steps[0]), steps[1..], w');
    }
  }

  // ---- pages ----

  /** A line of the file that is served at a committed position is that record's. */
  lemma ServedIsCommitted(c: Config, w: World, b: Bytes, l: Bytes, at: nat)
    requires Faithful(c) && Unmixed(c) && Tailed(c, w) && b in Lines(w.disk.chain) && EndsIn(b, l) && at < |w.chain|
    requires ServeLine(c, l, at).Some?
    ensures ServeLine(c, l, at).value == Served(at, c.hash(w.chain[at]), c.line(w.chain[at]))
    ensures w.chain[at].seqNo == at
  {
    var r: Record :| TailOf(c, w, b, r);
    ParsesOnlyItself(c, b, l, r);
    assert LineOf(c, r);
  }

  lemma {:induction false} EachServes(serve: (Bytes, nat) -> Option<Served>, ls: seq<Bytes>, from: nat)
    requires Each(serve, ls, from).Some?
    ensures |Each(serve, ls, from).value| == |ls|
    ensures forall i :: 0 <= i < |ls| ==> serve(ls[i], from + i) == Some(Each(serve, ls, from).value[i])
  {
    if ls != [] {
      EachServes(serve, ls[1..], from + 1);
      var rest := Each(serve, ls[1..], from + 1).value;
      forall i | 0 <= i < |ls| ensures serve(ls[i], from + i) == Some(Each(serve, ls, from).value[i]) {
        if i > 0 { assert ls[i] == ls[1..][i - 1] && serve(ls[1..][i - 1], from + 1 + (i - 1)) == Some(rest[i - 1]); }
      }
    }
  }

  lemma ServedStretch(c: Config, w: World, ls: seq<Bytes>, start: nat, end: nat, from: nat, to: nat, head: nat)
    requires Faithful(c) && Unmixed(c) && Tailed(c, w) && start <= end <= |w.disk.chain|
    requires ls == Lines(w.disk.chain[start..end]) && |ls| == to - from && from <= to <= head <= |w.chain|
    requires ServeLines(c, ls, from).Some?
    ensures ServeLines(c, ls, from).value == ServedOf(c, w.chain[..head])[from..to]
  {
    EachServes(Server(c), ls, from);
    var ss, plain := ServeLines(c, ls, from).value, ServedOf(c, w.chain[..head])[from..to];
    forall i | 0 <= i < |ss| ensures ss[i] == plain[i] {
      RangeEndsLines(w.disk.chain, start, end, ls[i]);
      var k :| 0 <= k < |Lines(w.disk.chain)| && EndsIn(Lines(w.disk.chain)[k], ls[i]);
      assert Server(c)(ls[i], from + i) == ServeLine(c, ls[i], from + i);
      ServedIsCommitted(c, w, Lines(w.disk.chain)[k], ls[i], from + i);
      assert w.chain[..head][from + i] == w.chain[from + i];
    }
  }

  lemma ServedPageIsPlain(c: Config, w: World, m: Mem, from: nat, limit: nat)
    requires Faithful(c) && Unmixed(c) && Tailed(c, w) && m.offsets.Some? && m.head.seqNo <= |w.chain| && limit >= 1
    requires PageRecords(c, w.disk.chain, m, from, Min(m.head.seqNo, from + limit)).Some?
    ensures PageRecords(c, w.disk.chain, m, from, Min(m.head.seqNo, from + limit)).value
         == PlainPage(c, w.chain, m, from, limit)
  {
    var to := Min(m.head.seqNo, from + limit);
    if from < to {
      var start := m.offsets.value[from];
      var end := if to < |m.offsets.value| then m.offsets.value[to] else m.chainBytes;
      var ls := RangeLines(w.disk.chain, start, end, to - from).value;
      ServedStretch(c, w, ls, start, end, from, to, m.head.seqNo);
    }
  }

  lemma EmptyIsTailed(c: Config)
    ensures Tailed(c, Start())
  {
    assert Lines([]) == [];
  }

  /** In every reachable state, whatever fell short or was left behind: a page of records that is served is the
      plain list's. A byte range that no longer holds the lines asked for is refused. */
  lemma PagesNeverWrong(c: Config, steps: seq<Step>, w: World, from: nat, limit: nat)
    requires Faithful(c) && Unmixed(c) && Reaches(c, Start(), steps, w)
    requires w.proc.Some? && w.proc.value.offsets.Some? && limit >= 1
    ensures var m := w.proc.value;
            && m.head.seqNo <= |w.chain|
            && (PageRecords(c, w.disk.chain, m, from, Min(m.head.seqNo, from + limit)).Some? ==>
                 PageRecords(c, w.disk.chain, m, from, Min(m.head.seqNo, from + limit)).value
                 == PlainPage(c, w.chain, m, from, limit))
  {
    var m := w.proc.value;
    ReachedInv(c, steps, w);
    StartInv(c);
    EmptyIsTailed(c);
    RunKeepsTails(c, Start(), steps, w);
    if PageRecords(c, w.disk.chain, m, from, Min(m.head.seqNo, from + limit)).Some? {
      ServedPageIsPlain(c, w, m, from, limit);
    }
  }

  // ---- pages while the chain grows ----

  /** Some steps, and then a page. */
  datatype Visit = Visit(steps: seq<Step>, w: World, limit: nat)

  /** From world w and position `from`, each page requested where the one before left off, after any steps in
      between: appends, failures, deaths and restarts. `records` is what the pages held, `end` the last `next`. */
  predicate Visits(c: Config, w: World, from: nat, visits: seq<Visit>, records: seq<Served>, end: nat)
    decreases |visits|
  {
    if visits == [] then records == [] && end == from
    else
      var v := visits[0];
      PageComes(c, w, from, v)
      && var page := PageServed(c, w, from, v);
         |page| <= |records| && records[..|page|] == page
         && Visits(c, v.w, Until(v, from), visits[1..], records[|page|..], end)
  }

  /** The steps of a visit lead to its world, where the page is served. */
  predicate PageComes(c: Config, w: World, from: nat, v: Visit) {
    && Reaches(c, w, v.steps, v.w) && v.w.proc.Some? && v.w.proc.value.offsets.Some? && v.limit >= 1
    && PageRecords(c, v.w.disk.chain, v.w.proc.value, from, Until(v, from)).Some?
  }

  function PageServed(c: Config, w: World, from: nat, v: Visit): seq<Served>
    requires PageComes(c, w, from, v)
  {
    PageRecords(c, v.w.disk.chain, v.w.proc.value, from, Until(v, from)).value
  }

  function Until(v: Visit, from: nat): nat
    requires v.w.proc.Some?
  {
    Min(v.w.proc.value.head.seqNo, from + v.limit)
  }

  /** Where a crawler stands, no later head is behind it. */
  ghost predicate Reached(w: World, n: nat) {
    n <= |w.chain| && (w.proc.Some? && w.proc.value.offsets.Some? ==> n <= w.proc.value.head.seqNo)
  }

  lemma AppendKeepsReached(c: Config, w: World, m: Mem, e: Entry, now: nat, fault: Fault, n: nat)
    requires n <= |w.chain| && (m.offsets.Some? ==> n <= m.head.seqNo)
    ensures n <= |AfterAppend(c, w, m, e, now, fault).chain|
    ensures var m' := AppendMem(c, w.disk, m, e, now, fault); m'.offsets.Some? ==> n <= m'.head.seqNo
  {
  }

  lemma StepKeepsReached(c: Config, w: World, s: Step, n: nat)
    requires DiskSound(c, w) && Enabled(c, w, s) && Reached(w, n)
    ensures Reached(Next(c, w, s), n)
  {
    match s {
      case Open(first, mem) => FreshServes(c, w, first, mem);
      case Do(e, now, fault) => AppendKeepsReached(c, w, w.proc.value, e, now, fault, n);
      case Die(e, now, fault) => AppendKeepsReached(c, w, w.proc.value, e, now, fault, n);
      case _ =>
    }
  }

  lemma {:induction false} RunKeepsReached(c: Config, w: World, steps: seq<Step>, w': World, n: nat)
    requires Inv(c, w) && Reaches(c, w, steps, w') && Reached(w, n)
    ensures Reached(w', n) && w.chain <= w'.chain
    decreases |steps|
  {
    if steps != [] {
      StepKeepsReached(c, w, steps[0], n);
      StepKeeps(c, w, steps[0]);
      RunKeepsReached(c, Next(c, w, steps[0]), steps[1..], w', n);
    }
  }

  /** What holds before each visit. */
  ghost predicate Crawling(c: Config, w: World, from: nat) {
    Faithful(c) && Unmixed(c) && Inv(c, w) && Tailed(c, w) && Reached(w, from)
  }

  /** The steps before one visit's page. */
  lemma VisitArrives(c: Config, w: World, from: nat, v: Visit)
    requires Crawling(c, w, from) && Reaches(c, w, v.steps, v.w)
    ensures w.chain <= v.w.chain && Crawling(c, v.w, from)
  {
    RunKeepsReached(c, w, v.steps, v.w, from);
    RunKeeps(c, w, v.steps, v.w);
    RunKeepsTails(c, w, v.steps, v.w);
  }

  /** And the page. */
  lemma VisitServes(c: Config, w: World, from: nat, v: Visit)
    requires Crawling(c, v.w, from) && PageComes(c, w, from, v)
    ensures from <= Until(v, from) <= v.w.proc.value.head.seqNo <= |v.w.chain|
    ensures PageServed(c, w, from, v) == PlainPage(c, v.w.chain, v.w.proc.value, from, v.limit)
    ensures Reached(v.w, Until(v, from))
  {
    ServedPageIsPlain(c, v.w, v.w.proc.value, from, v.limit);
  }

  lemma CrawlMoves(c: Config, w: World, from: nat, to: nat)
    requires Crawling(c, w, from) && Reached(w, to)
    ensures Crawling(c, w, to)
  {
  }

  /** The same visits, each page the plain list's. */
  predicate PlainVisits(c: Config, w: World, from: nat, visits: seq<Visit>, records: seq<Served>, end: nat)
    decreases |visits|
  {
    if visits == [] then records == [] && end == from
    else
      var v := visits[0];
      && v.w.proc.Some? && from <= Until(v, from) <= v.w.proc.value.head.seqNo <= |v.w.chain| && w.chain <= v.w.chain
      && var page := PlainPage(c, v.w.chain, v.w.proc.value, from, v.limit);
         && |page| <= |records| && records[..|page|] == page
         && PlainVisits(c, v.w, Until(v, from), visits[1..], records[|page|..], end)
  }

  lemma VisitIsPlain(c: Config, w: World, from: nat, v: Visit)
    requires Crawling(c, w, from) && PageComes(c, w, from, v)
    ensures w.chain <= v.w.chain && from <= Until(v, from) <= v.w.proc.value.head.seqNo <= |v.w.chain|
    ensures PageServed(c, w, from, v) == PlainPage(c, v.w.chain, v.w.proc.value, from, v.limit)
    ensures Crawling(c, v.w, Until(v, from))
  {
    VisitArrives(c, w, from, v);
    VisitServes(c, w, from, v);
    CrawlMoves(c, v.w, from, Until(v, from));
  }

  lemma {:induction false} VisitsArePlain(c: Config, w: World, from: nat, visits: seq<Visit>, records: seq<Served>,
                                          end: nat)
    requires Crawling(c, w, from) && Visits(c, w, from, visits, records, end)
    ensures PlainVisits(c, w, from, visits, records, end)
    decreases |visits|
  {
    if visits != [] {
      var v := visits[0];
      VisitIsPlain(c, w, from, v);
      var rest := records[|PageServed(c, w, from, v)|..];
      VisitsArePlain(c, v.w, Until(v, from), visits[1..], rest, end);
    }
  }

  function LastWorld(w: World, visits: seq<Visit>): World {
    if visits == [] then w else visits[|visits| - 1].w
  }

  lemma {:induction false} VisitsJoin(c: Config, w: World, from: nat, visits: seq<Visit>, records: seq<Served>,
                                      end: nat)
    requires from <= |w.chain| && PlainVisits(c, w, from, visits, records, end)
    ensures w.chain <= LastWorld(w, visits).chain && from <= end <= |LastWorld(w, visits).chain|
    ensures records == ServedOf(c, LastWorld(w, visits).chain[..end])[from..]
    decreases |visits|
  {
    if visits == [] {
      assert ServedOf(c, w.chain[..from])[from..] == [];
    } else {
      var v := visits[0];
      var to := Until(v, from);
      var page := PlainPage(c, v.w.chain, v.w.proc.value, from, v.limit);
      VisitsJoin(c, v.w, to, visits[1..], records[|page|..], end);
      LastOfRest(w, visits);
      PageThenRest(c, v.w.chain, LastWorld(w, visits).chain, v.w.proc.value.head.seqNo, from, to, end);
      assert records == page + records[|page|..];
    }
  }

  lemma LastOfRest(w: World, visits: seq<Visit>)
    requires visits != []
    ensures LastWorld(visits[0].w, visits[1..]) == LastWorld(w, visits)
  {
  }

  lemma PageThenRest(c: Config, chain: seq<Record>, chain': seq<Record>, head: nat, from: nat, to: nat, end: nat)
    requires chain <= chain' && from <= to <= head <= |chain| && to <= end <= |chain'|
    ensures (if from < to then ServedOf(c, chain[..head])[from..to] else []) + ServedOf(c, chain'[..end])[to..]
         == ServedOf(c, chain'[..end])[from..]
  {
    var all := ServedOf(c, chain'[..end]);
    forall i | from <= i < to ensures ServedOf(c, chain[..head])[i] == all[i] {
      assert chain[..head][i] == chain'[..end][i];
    }
    assert all[from..to] + all[to..] == all[from..];
    assert ServedOf(c, chain[..head])[from..to] == all[from..to];
  }

  /** Pages requested from 0 on, each from the `next` of the one before, with any appends, failures, deaths and
      restarts in between: the records they served are the committed ones up to the last `next`, once each, in
      order. */
  lemma CrawlWhileItGrows(c: Config, steps: seq<Step>, w: World, visits: seq<Visit>, records: seq<Served>, end: nat)
    requires Faithful(c) && Unmixed(c) && Reaches(c, Start(), steps, w) && Visits(c, w, 0, visits, records, end)
    ensures end <= |LastWorld(w, visits).chain| && records == ServedOf(c, LastWorld(w, visits).chain[..end])
  {
    ReachedInv(c, steps, w);
    StartInv(c);
    EmptyIsTailed(c);
    RunKeepsTails(c, Start(), steps, w);
    VisitsArePlain(c, w, 0, visits, records, end);
    VisitsJoin(c, w, 0, visits, records, end);
  }
}
