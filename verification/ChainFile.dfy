/** The chain file as bytes and as lines, and the index of line offsets. */
module ChainFile {
  import opened Common

  /** The newline-terminated lines of a file, and what follows the last newline. */
  function Split(b: Bytes): (seq<Bytes>, Bytes) {
    if b == [] then ([], [])
    else
      var n := |b| - 1;
      if b[n] == NEWLINE then (Split(b[..n]).0 + [Split(b[..n]).1], [])
      else (Split(b[..n]).0, Split(b[..n]).1 + [b[n]])
  }

  function Lines(b: Bytes): seq<Bytes> { Split(b).0 }

  function Partial(b: Bytes): Bytes { Split(b).1 }

  function Join(ls: seq<Bytes>): Bytes {
    if ls == [] then [] else Join(ls[..|ls| - 1]) + (ls[|ls| - 1] + [NEWLINE])
  }

  predicate OneLine(l: Bytes) { NEWLINE !in l }

  lemma {:induction false} SplitAppend(b: Bytes, x: Bytes)
    requires OneLine(x)
    ensures Lines(b + x) == Lines(b) && Partial(b + x) == Partial(b) + x
  {
    if x == [] {
      assert b + x == b;
    } else {
      var n := |x| - 1;
      SplitAppend(b, x[..n]);
      assert x[n] in x;
      assert (b + x)[..|b + x| - 1] == b + x[..n];
      assert x == x[..n] + [x[n]];
    }
  }

  /** Appending one line: it completes whatever partial line was there. */
  lemma SplitAppendLine(b: Bytes, l: Bytes)
    requires OneLine(l)
    ensures Lines(b + (l + [NEWLINE])) == Lines(b) + [Partial(b) + l] && Partial(b + (l + [NEWLINE])) == []
  {
    SplitAppend(b, l);
    var t := b + (l + [NEWLINE]);
    assert t[..|t| - 1] == b + l;
  }

  lemma {:induction false} SplitJoin(ls: seq<Bytes>)
    requires forall l | l in ls :: OneLine(l)
    ensures Lines(Join(ls)) == ls && Partial(Join(ls)) == []
  {
    if ls != [] {
      var n := |ls| - 1;
      SplitJoin(ls[..n]);
      assert ls[n] in ls;
      SplitAppendLine(Join(ls[..n]), ls[n]);
      assert Partial(Join(ls[..n])) + ls[n] == ls[n];
      assert ls == ls[..n] + [ls[n]];
    }
  }

  lemma JoinAppend(ls: seq<Bytes>, l: Bytes)
    ensures Join(ls + [l]) == Join(ls) + (l + [NEWLINE])
  {
    assert (ls + [l])[..|ls|] == ls;
  }

  lemma {:induction false} JoinConcat(a: seq<Bytes>, b: seq<Bytes>)
    ensures Join(a + b) == Join(a) + Join(b)
  {
    if b == [] {
      assert a + b == a;
    } else {
      var n := |b| - 1;
      JoinConcat(a, b[..n]);
      assert (a + b)[..|a + b| - 1] == a + b[..n];
      Regroup3(Join(a), Join(b[..n]), b[n] + [NEWLINE]);
    }
  }

  /** What follows a clean prefix is only added to its lines. */
  lemma {:induction false} SplitTail(b: Bytes, x: Bytes)
    requires Partial(b) == []
    ensures Lines(b + x) == Lines(b) + Lines(x) && Partial(b + x) == Partial(x)
  {
    if x == [] {
      assert b + x == b;
    } else {
      var n := |x| - 1;
      SplitTail(b, x[..n]);
      assert (b + x)[..|b + x| - 1] == b + x[..n];
    }
  }

  lemma {:induction false} SplitNonEmpty(x: Bytes)
    requires x != []
    ensures Lines(x) != [] || Partial(x) != []
  {
  }

  lemma {:induction false} JoinSplit(b: Bytes)
    ensures b == Join(Lines(b)) + Partial(b)
  {
    if b != [] {
      var n := |b| - 1;
      JoinSplit(b[..n]);
      var ls, p := Lines(b[..n]), Partial(b[..n]);
      assert b == b[..n] + [b[n]];
      if b[n] == NEWLINE {
        JoinAppend(ls, p);
        Regroup3(Join(ls), p, [NEWLINE]);
      } else {
        Regroup3(Join(ls), p, [b[n]]);
      }
    }
  }

  // ---- the index ----

  /** Offset k is where line k starts. */
  predicate IsIndex(offsets: seq<nat>, ls: seq<Bytes>) {
    |offsets| == |ls| && forall k :: 0 <= k < |ls| ==> offsets[k] == |Join(ls[..k])|
  }

  lemma IndexUnique(a: seq<nat>, b: seq<nat>, ls: seq<Bytes>)
    requires IsIndex(a, ls) && IsIndex(b, ls)
    ensures a == b
  {
  }

  /** Pushing the file's length indexes one more line. */
  lemma IndexGrows(offsets: seq<nat>, ls: seq<Bytes>, l: Bytes)
    requires IsIndex(offsets, ls)
    ensures IsIndex(offsets + [|Join(ls)|], ls + [l])
  {
    forall k | 0 <= k <= |ls| ensures (offsets + [|Join(ls)|])[k] == |Join((ls + [l])[..k])| {
      assert (ls + [l])[..k] == ls[..k];
      if k == |ls| { assert ls[..k] == ls; }
    }
  }

  /** The bytes between two offsets are the lines between them. */
  lemma SliceOfIndex(ls: seq<Bytes>, i: nat, j: nat)
    requires i <= j <= |ls|
    ensures |Join(ls[..i])| <= |Join(ls[..j])| <= |Join(ls)|
    ensures Join(ls)[|Join(ls[..i])|..|Join(ls[..j])|] == Join(ls[i..j])
  {
    JoinConcat(ls[..i], ls[i..j]);
    assert ls[..i] + ls[i..j] == ls[..j];
    JoinConcat(ls[..j], ls[j..]);
    assert ls[..j] + ls[j..] == ls;
  }

  /** `indexLines`: one pass over the bytes, noting where each line starts. */
  method IndexBytes(bytes: Bytes) returns (offsets: seq<nat>, start: nat)
    ensures IsIndex(offsets, Lines(bytes))
    ensures start == |bytes| <==> Partial(bytes) == []
  {
    offsets, start := [], 0;
    var i := 0;
    while i < |bytes|
      invariant 0 <= i <= |bytes|
      invariant IsIndex(offsets, Lines(bytes[..i]))
      invariant start == |Join(Lines(bytes[..i]))|
    {
      assert bytes[..i + 1][..i] == bytes[..i];
      if bytes[i] == NEWLINE {
        var ls, p := Lines(bytes[..i]), Partial(bytes[..i]);
        IndexGrows(offsets, ls, p);
        JoinSplit(bytes[..i + 1]);
        offsets := offsets + [start];
        start := i + 1;
      }
      i := i + 1;
    }
    assert bytes[..|bytes|] == bytes;
    JoinSplit(bytes);
  }

  /** `lastRecord`: the last line, None when the text is empty; the caller has checked the final newline. */
  function LastLine(b: Bytes): Bytes
    requires Lines(b) != []
  {
    Lines(b)[|Lines(b)| - 1]
  }
}
