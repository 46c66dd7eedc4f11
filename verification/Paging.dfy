/** Pages: a page read by byte range is the plain lines, and following `next` rebuilds the directory. */
module Paging {
  import opened Common
  import opened Json
  import opened Canonical
  import opened Encoding
  import opened ChainFile
  import opened AnchorNames
  import opened Log
  import opened Recovery

  /** What a page serves for each record: its position, digest and line. */
  function ServedOf(c: Config, chain: seq<Record>): (ss: seq<Served>)
    ensures |ss| == |chain|
    ensures forall i :: 0 <= i < |chain| ==> ss[i] == Served(chain[i].seqNo, c.hash(chain[i]), c.line(chain[i]))
  {
    if chain == [] then []
    else
      var n := |chain| - 1;
      ServedOf(c, chain[..n]) + [Served(chain[n].seqNo, c.hash(chain[n]), c.line(chain[n]))]
  }

  /** Lines that are each served are served as a stretch. */
  lemma {:induction false} EachStretch(serve: (Bytes, nat) -> Option<Served>, ls: seq<Bytes>, ss: seq<Served>,
                                       i: nat, j: nat)
    requires |ss| == |ls| && i <= j <= |ls| && forall k :: i <= k < j ==> serve(ls[k], k) == Some(ss[k])
    ensures Each(serve, ls[i..j], i) == Some(ss[i..j])
    decreases j - i
  {
    if i < j {
      EachStretch(serve, ls, ss, i + 1, j);
      assert ls[i..j][0] == ls[i] && ls[i..j][1..] == ls[i + 1..j];
      assert ss[i..j] == [ss[i]] + ss[i + 1..j];
    }
  }

  /** Serving the lines of a stretch of the committed chain succeeds, record by record. */
  lemma ServesStretch(c: Config, chain: seq<Record>, i: nat, j: nat)
    requires GoodChain(c, chain) && i <= j <= |chain|
    ensures Each(Server(c), LinesOf(c, chain)[i..j], i) == Some(ServedOf(c, chain)[i..j])
  {
    forall k | i <= k < j ensures Server(c)(LinesOf(c, chain)[k], k) == Some(ServedOf(c, chain)[k]) {
      LinesOfAt(c, chain, k);
    }
    EachStretch(Server(c), LinesOf(c, chain), ServedOf(c, chain), i, j);
  }

  /** The byte range the index gives for records [from, to) holds exactly their lines. */
  lemma RangeHoldsLines(c: Config, chain: seq<Record>, disk: Bytes, from: nat, to: nat, k: nat)
    requires GoodChain(c, chain) && ChainBytes(c, chain) <= disk && from < to <= k <= |chain|
    ensures var ls := LinesOf(c, chain);
            RangeLines(disk, |Join(ls[..from])|, |Join(ls[..to])|, to - from) == Some(ls[from..to])
  {
    var ls := LinesOf(c, chain);
    SliceOfIndex(ls, from, to);
    var start, end := |Join(ls[..from])|, |Join(ls[..to])|;
    assert disk[start..end] == ChainBytes(c, chain)[start..end];
    forall l | l in ls[from..to] ensures OneLine(l) {
      var i :| 0 <= i < to - from && ls[from..to][i] == l;
      LinesOfAt(c, chain, from + i);
    }
    SplitJoin(ls[from..to]);
    assert Lines([]) == [];
  }

  lemma PrefixBytes(c: Config, chain: seq<Record>, k: nat)
    requires GoodChain(c, chain) && k <= |chain|
    ensures GoodChain(c, chain[..k]) && LinesOf(c, chain[..k]) == LinesOf(c, chain)[..k]
    ensures ChainBytes(c, chain[..k]) <= ChainBytes(c, chain)
  {
    GoodPrefix(c, chain, k);
    LinesOfPrefix(c, chain, k);
    var ls := LinesOf(c, chain);
    JoinConcat(ls[..k], ls[k..]);
    assert ls[..k] + ls[k..] == ls;
  }

  /** Records [from, min(head, from + limit)) of the plain list. */
  function PlainPage(c: Config, chain: seq<Record>, m: Mem, from: nat, limit: nat): seq<Served>
    requires m.head.seqNo <= |chain|
  {
    var to := Min(m.head.seqNo, from + limit);
    if from < to then ServedOf(c, chain[..m.head.seqNo])[from..to] else []
  }

  /** A page of any instance, even one that has failed with stray bytes behind the chain, is the
      plain list's. */
  lemma PageRefinesLines(c: Config, chain: seq<Record>, disk: Bytes, m: Mem, from: nat, limit: nat)
    requires GoodChain(c, chain) && ServesPrefix(c, chain, m) && m.offsets.Some? && limit >= 1
    requires PrefixOf(c, chain, m.head.seqNo) <= disk
    ensures PageRecords(c, disk, m, from, Min(m.head.seqNo, from + limit)) == Some(PlainPage(c, chain, m, from, limit))
  {
    var k := m.head.seqNo;
    var to := Min(k, from + limit);
    if from < to {
      var g := chain[..k];
      PrefixBytes(c, chain, k);
      ServesStretch(c, g, from, to);
      RangeHoldsLines(c, g, disk, from, to, k);
      IndexBounds(m.offsets.value, LinesOf(c, g), m.chainBytes, from, to);
    }
  }

  /** The byte positions a page looks up are where its lines start and end. */
  lemma IndexBounds(offsets: seq<nat>, ls: seq<Bytes>, size: nat, from: nat, to: nat)
    requires IsIndex(offsets, ls) && size == |Join(ls)| && from < to <= |ls|
    ensures from < |offsets| && offsets[from] == |Join(ls[..from])|
    ensures (if to < |offsets| then offsets[to] else size) == |Join(ls[..to])|
  {
    if to == |ls| { assert ls[..to] == ls; }
  }

  /** In every reachable state the index is that of the committed lines. It is the file's index, and pages by
      byte range are slices of the line list, exactly when no line before the head fell short without an error. */
  lemma IndexRefinesFile(c: Config, steps: seq<Step>, w: World, from: nat, limit: nat)
    requires Faithful(c) && Reaches(c, Start(), steps, w)
    requires w.proc.Some? && w.proc.value.offsets.Some? && limit >= 1
    ensures var m := w.proc.value;
            && m.head.seqNo <= |w.chain| && AllEncode(c, w.chain[..m.head.seqNo])
            && var committed := ChainBytes(c, w.chain[..m.head.seqNo]);
            && IsIndex(m.offsets.value, Lines(committed)) && m.chainBytes == |committed|
            && (committed <= w.disk.chain <==> w.short.None? || m.head.seqNo <= w.short.value)
            && (committed <= w.disk.chain ==>
                 PageRecords(c, w.disk.chain, m, from, Min(m.head.seqNo, from + limit))
                 == Some(PlainPage(c, w.chain, m, from, limit)))
  {
    ReachedInv(c, steps, w);
    var k := w.proc.value.head.seqNo;
    PrefixBytes(c, w.chain, k);
    LinesAreWhole(c, w.chain[..k]);
    if w.short.None? || k <= w.short.value { PageRefinesLines(c, w.chain, w.disk.chain, w.proc.value, from, limit); }
  }

  /** What a page may hold of any directory, reached or not: for each position a line that parses to a record of that
      position, with its digest. */
  predicate ServedHonestly(c: Config, s: Served, at: nat) {
    && s.seqNo == at
    && match c.parse(s.line)
       case None => false
       case Some(r) => r.seqNo == at && c.encodes(r) && s.digest == c.hash(r)
  }

  lemma {:induction false} EachHonest(c: Config, ls: seq<Bytes>, from: nat)
    requires ServeLines(c, ls, from).Some?
    ensures |ServeLines(c, ls, from).value| == |ls|
    ensures forall i :: 0 <= i < |ls| ==>
              && ServeLines(c, ls, from).value[i].line == ls[i]
              && ServedHonestly(c, ServeLines(c, ls, from).value[i], from + i)
  {
    if ls != [] {
      EachHonest(c, ls[1..], from + 1);
      var all, rest := ServeLines(c, ls, from).value, ServeLines(c, ls[1..], from + 1).value;
      assert Server(c)(ls[0], from) == Some(all[0]);
      forall i | 0 <= i < |ls| ensures all[i].line == ls[i] && ServedHonestly(c, all[i], from + i) {
        if i > 0 { assert all[i] == rest[i - 1] && ls[i] == ls[1..][i - 1]; }
      }
    }
  }

  /** For every directory and instance: a page is served only from a position of 0 or more, with a limit of 1 or more,
      by an instance that has its index; it says the instance's head and the commitment to it, it goes on at the lesser
      of the head and the limit, and each of its records is what its own line says. */
  lemma PageIsHonest(c: Config, d: Disk, m: Mem, from: int, limit: int)
    requires PageOf(c, d, m, from, limit).Some?
    ensures from >= 0 && limit >= 1 && m.offsets.Some?
    ensures var p := PageOf(c, d, m, from, limit).value;
            && p.head == m.head && c.commit(m.head) == Some(p.commitment)
            && (p.next == m.head.seqNo || p.next == from + limit) && p.next <= m.head.seqNo && p.next <= from + limit
            && |p.records| == (if from < p.next then p.next - from else 0)
            && forall i :: 0 <= i < |p.records| ==> ServedHonestly(c, p.records[i], from + i)
  {
    var to := Min(m.head.seqNo, from + limit);
    if from < to {
      var start := m.offsets.value[from];
      var end := if to < |m.offsets.value| then m.offsets.value[to] else m.chainBytes;
      EachHonest(c, RangeLines(d.chain, start, end, to - from).value, from);
    }
  }

  // ---- anchors over pages ----

  /** Every anchor file parses and is named for the position it holds. */
  predicate WellNamed(files: seq<Member<AnchorFile>>) {
    forall f | f in files ::
      && f.value.Signed? && f.value.anchor.head.seqNo < NAME_LIMIT
      && f.key == AnchorName(f.value.anchor.head.seqNo, f.value.anchor.timestamp)
  }

  /** The anchors of position in [lo, hi], in the order listed. */
  function Between(files: seq<Member<AnchorFile>>, lo: nat, hi: nat): seq<Anchor>
    requires forall f | f in files :: f.value.Signed?
  {
    if files == [] then []
    else
      var n := |files| - 1;
      assert files[n] in files;
      assert forall f | f in files[..n] :: f in files;
      var a := files[n].value.anchor;
      Between(files[..n], lo, hi) + (if lo <= a.head.seqNo <= hi then [a] else [])
  }

  lemma {:induction false} PageAnchorsBetween(files: seq<Member<AnchorFile>>, from: nat, to: nat)
    requires WellNamed(files)
    ensures PageAnchors(files, from, to) == Some(Between(files, if from == 0 then 0 else from + 1, to))
  {
    if files != [] {
      var n := |files| - 1;
      assert files[n] in files;
      assert forall f | f in files[..n] :: f in files;
      PageAnchorsBetween(files[..n], from, to);
      var a := files[n].value.anchor;
      NameGivesSeq(a.head.seqNo, a.timestamp);
      var lo := if from == 0 then 0 else from + 1;
      assert InPage(files[n].key, from, to) <==> lo <= a.head.seqNo <= to;
      assert Between(files[..n], lo, to) + [] == Between(files[..n], lo, to);
    }
  }

  /** A page throws over its anchors exactly when one of them is torn. */
  lemma {:induction false} TornAnchorsExactly(files: seq<Member<AnchorFile>>, from: nat, to: nat)
    ensures PageAnchors(files, from, to).None?
            <==> exists f :: f in files && InPage(f.key, from, to) && f.value.TornAnchor?
  {
    if files != [] {
      var n := |files| - 1;
      TornAnchorsExactly(files[..n], from, to);
      assert forall f :: f in files <==> f in files[..n] || f == files[n];
    }
  }

  predicate InPosition(files: seq<Member<AnchorFile>>)
    requires forall f | f in files :: f.value.Signed?
  {
    forall i, j :: 0 <= i < j < |files| ==> files[i].value.anchor.head.seqNo <= files[j].value.anchor.head.seqNo
  }

  /** Listed in name order, the anchors are in position order. */
  lemma SortedInPosition(files: seq<Member<AnchorFile>>)
    requires DistinctKeys(files) && WellNamed(files)
    ensures WellNamed(Sort(files)) && InPosition(Sort(files))
  {
    SortKeeps(files);
    SortSorts(files);
    var s := Sort(files);
    forall i, j | 0 <= i < j < |s| ensures s[i].value.anchor.head.seqNo <= s[j].value.anchor.head.seqNo {
      assert s[i] in s && s[j] in s;
      var a, b := s[i].value.anchor, s[j].value.anchor;
      NamesInOrder(a.head.seqNo, a.timestamp, b.head.seqNo, b.timestamp);
    }
  }

  lemma {:induction false} BetweenEmpty(files: seq<Member<AnchorFile>>, lo: nat, hi: nat)
    requires forall f | f in files :: f.value.Signed?
    requires forall f | f in files :: f.value.anchor.head.seqNo < lo || hi < f.value.anchor.head.seqNo
    ensures Between(files, lo, hi) == []
  {
    if files != [] {
      var n := |files| - 1;
      assert files[n] in files;
      assert forall f | f in files[..n] :: f in files;
      BetweenEmpty(files[..n], lo, hi);
    }
  }

  /** A bound no position reaches cuts nothing. */
  lemma {:induction false} BetweenCap(files: seq<Member<AnchorFile>>, lo: nat, mid: nat, hi: nat)
    requires forall f | f in files :: f.value.Signed?
    requires forall f | f in files :: f.value.anchor.head.seqNo <= mid <= hi
    ensures Between(files, lo, mid) == Between(files, lo, hi)
  {
    if files != [] {
      var n := |files| - 1;
      assert files[n] in files;
      assert forall f | f in files[..n] :: f in files;
      BetweenCap(files[..n], lo, mid, hi);
    }
  }

  lemma LastIsHighest(files: seq<Member<AnchorFile>>, mid: nat)
    requires (forall f | f in files :: f.value.Signed?) && InPosition(files) && files != []
    requires files[|files| - 1].value.Signed? && files[|files| - 1].value.anchor.head.seqNo <= mid
    ensures forall f | f in files :: f.value.anchor.head.seqNo <= mid
  {
    forall f | f in files ensures f.value.anchor.head.seqNo <= mid {
      var i :| 0 <= i < |files| && files[i] == f;
    }
  }

  lemma FrontInPosition(files: seq<Member<AnchorFile>>)
    requires (forall f | f in files :: f.value.Signed?) && InPosition(files) && files != []
    ensures (forall f | f in files[..|files| - 1] :: f.value.Signed?) && InPosition(files[..|files| - 1])
    ensures files[|files| - 1].value.Signed?
  {
    assert files[|files| - 1] in files;
    assert forall f | f in files[..|files| - 1] :: f in files;
  }

  /** In position order, adjacent ranges of anchors concatenate. */
  lemma {:induction false} BetweenJoins(files: seq<Member<AnchorFile>>, lo: nat, mid: nat, hi: nat)
    requires (forall f | f in files :: f.value.Signed?) && InPosition(files) && lo <= mid + 1 && mid <= hi
    ensures Between(files, lo, mid) + Between(files, mid + 1, hi) == Between(files, lo, hi)
  {
    if files != [] {
      FrontInPosition(files);
      var front, a := files[..|files| - 1], files[|files| - 1].value.anchor;
      if a.head.seqNo <= mid {
        LastIsHighest(files, mid);
        BetweenEmpty(files, mid + 1, hi);
        BetweenCap(files, lo, mid, hi);
      } else {
        BetweenJoins(front, lo, mid, hi);
        var last := if a.head.seqNo <= hi then [a] else [];
        assert Between(files, lo, mid) == Between(front, lo, mid);
        assert Between(files, mid + 1, hi) == Between(front, mid + 1, hi) + last;
        Regroup3(Between(front, lo, mid), Between(front, mid + 1, hi), last);
      }
    }
  }

  // ---- following next ----

  type Pages = nat -> Option<ChainPage>

  /** The pages of one log state, each asked for with its own limit. */
  function PagesOf(c: Config, d: Disk, m: Mem, limit: nat -> nat): Pages {
    (from: nat) => PageOf(c, d, m, from, limit(from))
  }

  /** Ask for the page at `from`, then at its `next`, until `next` reaches the head. */
  function Crawl(page: Pages, head: nat, from: nat): Option<(seq<Served>, seq<Anchor>)>
    decreases head - from
  {
    match page(from)
    case None => None
    case Some(p) =>
      if p.next >= head || p.next <= from then Some((p.records, p.anchors))
      else match Crawl(page, head, p.next)
           case None => None
           case Some((records, anchors)) => Some((p.records + records, p.anchors + anchors))
  }

  /** A directory and an instance over it that can serve: a committed chain, its index, whole anchors. */
  ghost predicate Servable(c: Config, chain: seq<Record>, d: Disk, m: Mem) {
    && GoodChain(c, chain) && ServesPrefix(c, chain, m) && m.offsets.Some? && m.head.seqNo <= |chain|
    && PrefixOf(c, chain, m.head.seqNo) <= d.chain && c.commit(m.head).Some?
    && DistinctKeys(d.anchors) && WellNamed(d.anchors)
  }

  /** One page: the plain list's records, and the anchors of its stretch. */
  lemma PageIs(c: Config, chain: seq<Record>, d: Disk, m: Mem, from: nat, limit: nat)
    requires Servable(c, chain, d, m) && limit >= 1
    ensures WellNamed(Sort(d.anchors))
    ensures var to := Min(m.head.seqNo, from + limit);
            PageOf(c, d, m, from, limit) ==
              Some(ChainPage(m.head, c.commit(m.head).value, PlainPage(c, chain, m, from, limit),
                             Between(Sort(d.anchors), if from == 0 then 0 else from + 1, to), to))
  {
    SortedInPosition(d.anchors);
    PageRefinesLines(c, chain, d.chain, m, from, limit);
    PageAnchorsBetween(Sort(d.anchors), from, Min(m.head.seqNo, from + limit));
  }

  /** With the chain servable but for torn anchor files, a page is served exactly when none of its own is torn. */
  lemma PageServedExactly(c: Config, chain: seq<Record>, d: Disk, m: Mem, from: nat, limit: nat)
    requires GoodChain(c, chain) && ServesPrefix(c, chain, m) && m.offsets.Some?
    requires PrefixOf(c, chain, m.head.seqNo) <= d.chain
    requires c.commit(m.head).Some? && DistinctKeys(d.anchors) && limit >= 1
    ensures var to := Min(m.head.seqNo, from + limit);
            PageOf(c, d, m, from, limit).None?
            <==> exists f :: f in d.anchors && InPage(f.key, from, to) && f.value.TornAnchor?
  {
    var to := Min(m.head.seqNo, from + limit);
    PageRefinesLines(c, chain, d.chain, m, from, limit);
    TornAnchorsExactly(Sort(d.anchors), from, to);
    SortKeeps(d.anchors);
  }

  function FirstAnchor(from: nat): nat { if from == 0 then 0 else from + 1 }

  /** Each page makes progress and holds the stretch of records and anchors up to its `next`. */
  predicate Tiles(page: Pages, all: seq<Served>, files: seq<Member<AnchorFile>>, from: nat)
    requires forall f | f in files :: f.value.Signed?
  {
    && page(from).Some?
    && var p := page(from).value;
    && (from < |all| ==> from < p.next) && from <= p.next <= |all| && p.records == all[from..p.next]
    && p.anchors == Between(files, FirstAnchor(from), p.next)
  }

  /** Pages that tile a directory put it together again. */
  lemma {:induction false} CrawlTiles(page: Pages, all: seq<Served>, files: seq<Member<AnchorFile>>, from: nat)
    requires (forall f | f in files :: f.value.Signed?) && InPosition(files)
    requires forall i | 0 <= i <= |all| :: Tiles(page, all, files, i)
    requires from <= |all|
    ensures Crawl(page, |all|, from) == Some((all[from..], Between(files, FirstAnchor(from), |all|)))
    decreases |all| - from
  {
    assert Tiles(page, all, files, from);
    var p := page(from).value;
    if p.next < |all| {
      CrawlTiles(page, all, files, p.next);
      assert all[from..] == all[from..p.next] + all[p.next..];
      BetweenJoins(files, FirstAnchor(from), p.next, |all|);
    } else {
      assert all[from..] == all[from..p.next];
    }
  }

  lemma PageTiles(c: Config, chain: seq<Record>, d: Disk, m: Mem, limit: nat -> nat, i: nat)
    requires Servable(c, chain, d, m) && limit(i) >= 1 && i <= m.head.seqNo
    ensures WellNamed(Sort(d.anchors))
    ensures Tiles(PagesOf(c, d, m, limit), ServedOf(c, chain[..m.head.seqNo]), Sort(d.anchors), i)
  {
    SortedInPosition(d.anchors);
    PageIs(c, chain, d, m, i, limit(i));
    var all := ServedOf(c, chain[..m.head.seqNo]);
    if i == |all| { assert all[i..i] == []; }
  }

  /** Following `next` from 0, whatever the limits, ends and serves every committed record once in
      order, and every anchor up to the head once in position order. */
  lemma CrawlRebuilds(c: Config, chain: seq<Record>, d: Disk, m: Mem, limit: nat -> nat)
    requires Servable(c, chain, d, m) && forall i :: limit(i) >= 1
    ensures WellNamed(Sort(d.anchors))
    ensures Crawl(PagesOf(c, d, m, limit), m.head.seqNo, 0) ==
              Some((ServedOf(c, chain[..m.head.seqNo]), Between(Sort(d.anchors), 0, m.head.seqNo)))
    ensures AllEncode(c, chain[..m.head.seqNo])
    ensures Join(LinesServed(ServedOf(c, chain[..m.head.seqNo]))) == ChainBytes(c, chain[..m.head.seqNo])
  {
    PrefixBytes(c, chain, m.head.seqNo);
    ServedLines(c, chain[..m.head.seqNo]);
    var page, all, files := PagesOf(c, d, m, limit), ServedOf(c, chain[..m.head.seqNo]), Sort(d.anchors);
    SortedInPosition(d.anchors);
    forall i | 0 <= i <= |all| ensures Tiles(page, all, files, i) { PageTiles(c, chain, d, m, limit, i); }
    CrawlTiles(page, all, files, 0);
    assert all[0..] == all;
  }

  /** The lines of served records. */
  function LinesServed(ss: seq<Served>): seq<Bytes> {
    if ss == [] then [] else LinesServed(ss[..|ss| - 1]) + [ss[|ss| - 1].line]
  }

  lemma {:induction false} ServedLines(c: Config, chain: seq<Record>)
    requires AllEncode(c, chain)
    ensures LinesServed(ServedOf(c, chain)) == LinesOf(c, chain)
  {
    if chain != [] {
      var n := |chain| - 1;
      ServedLines(c, chain[..n]);
      var ss := ServedOf(c, chain);
      assert ss[..|ss| - 1] == ServedOf(c, chain[..n]);
    }
  }

  /** A request beyond the head answers with a `next` that lies behind it. */
  lemma BeyondTheHead(c: Config, d: Disk, m: Mem, from: nat, limit: nat)
    requires PageOf(c, d, m, from, limit).Some? && limit >= 1
    ensures var p := PageOf(c, d, m, from, limit).value;
            (p.next < from <==> from > m.head.seqNo) && (from > m.head.seqNo ==> p.records == [])
  {
  }
}
