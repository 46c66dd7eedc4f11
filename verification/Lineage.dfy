/** The label lattice: a classification and a set of origins, kept as a sorted list without repeats. */
module Lineage {
  import opened Common
  import opened Json
  import opened Canonical

  datatype Classification = Public | Sensitive | Regulated | ClassifiedAdjacent

  datatype Origin = User | System | Rag | ToolOutput | McpResponse | ExternalChannel

  datatype Label = Label(classification: Classification, origins: seq<Origin>)

  const BOTTOM: Label := Label(Public, [])

  function Rank(c: Classification): nat {
    match c
    case Public => 0
    case Sensitive => 1
    case Regulated => 2
    case ClassifiedAdjacent => 3
  }

  predicate Untrusted(o: Origin) { o.McpResponse? || o.ExternalChannel? || o.Rag? }

  function Name(o: Origin): Str {
    match o
    case User => Ascii("user")
    case System => Ascii("system")
    case Rag => Ascii("rag")
    case ToolOutput => Ascii("tool-output")
    case McpResponse => Ascii("mcp-response")
    case ExternalChannel => Ascii("external-channel")
  }

  /** `[...new Set(xs)]`: first occurrences, in order. */
  function Dedup<T(==)>(xs: seq<T>): seq<T> {
    if xs == [] then []
    else
      var n := |xs| - 1;
      if xs[n] in xs[..n] then Dedup(xs[..n]) else Dedup(xs[..n]) + [xs[n]]
  }

  predicate NoRepeats<T(==)>(xs: seq<T>) {
    forall i, j :: 0 <= i < j < |xs| ==> xs[i] != xs[j]
  }

  lemma {:induction false} DedupKeeps<T>(xs: seq<T>)
    ensures forall x :: x in Dedup(xs) <==> x in xs
    ensures NoRepeats(Dedup(xs))
  {
    if xs != [] {
      DedupKeeps(xs[..|xs| - 1]);
      assert xs == xs[..|xs| - 1] + [xs[|xs| - 1]];
    }
  }

  lemma DedupSnoc<T>(xs: seq<T>, x: T)
    ensures Dedup(xs + [x]) == if x in xs then Dedup(xs) else Dedup(xs) + [x]
  {
    assert (xs + [x])[..|xs|] == xs;
  }

  /** Adding what a list already deduplicated adds is the same as adding the list itself. */
  lemma {:induction false} DedupAppend<T>(xs: seq<T>, ys: seq<T>)
    ensures Dedup(Dedup(xs) + ys) == Dedup(xs + ys)
    decreases |ys|
  {
    if ys == [] {
      assert Dedup(xs) + ys == Dedup(xs) && xs + ys == xs;
      DedupTwice(xs);
    } else {
      var front, y := ys[..|ys| - 1], ys[|ys| - 1];
      DedupAppend(xs, front);
      DedupKeeps(xs);
      assert ys == front + [y];
      Regroup3(Dedup(xs), front, [y]);
      Regroup3(xs, front, [y]);
      DedupSnoc(Dedup(xs) + front, y);
      DedupSnoc(xs + front, y);
    }
  }

  /** What comes later is put behind, if it is new. */
  lemma {:induction false} DedupGrows<T>(xs: seq<T>, ys: seq<T>)
    ensures Dedup(xs) <= Dedup(xs + ys)
    decreases |ys|
  {
    if ys == [] {
      assert xs + ys == xs;
    } else {
      var n := |ys| - 1;
      DedupGrows(xs, ys[..n]);
      DedupSnoc(xs + ys[..n], ys[n]);
      assert xs + ys == xs + ys[..n] + [ys[n]];
    }
  }

  lemma {:induction false} DedupTwice<T>(xs: seq<T>)
    ensures Dedup(Dedup(xs)) == Dedup(xs)
  {
    if xs != [] {
      var n := |xs| - 1;
      DedupTwice(xs[..n]);
      DedupKeeps(xs[..n]);
      if xs[n] !in xs[..n] {
        assert (Dedup(xs[..n]) + [xs[n]])[..|Dedup(xs[..n])|] == Dedup(xs[..n]);
      }
    }
  }

  function Named(os: seq<Origin>): (ms: seq<Member<Origin>>)
    ensures |ms| == |os| && forall i :: 0 <= i < |os| ==> ms[i] == Member(Name(os[i]), os[i])
  {
    if os == [] then [] else [Member(Name(os[0]), os[0])] + Named(os[1..])
  }

  function Values<T>(ms: seq<Member<T>>): (vs: seq<T>)
    ensures |vs| == |ms| && forall i :: 0 <= i < |ms| ==> vs[i] == ms[i].value
  {
    if ms == [] then [] else [ms[0].value] + Values(ms[1..])
  }

  function SortedOrigins(os: seq<Origin>): seq<Origin> {
    Values(Sort(Named(Dedup(os))))
  }

  function CanonicalLabel(l: Label): Label {
    Label(l.classification, SortedOrigins(l.origins))
  }

  function Join(a: Label, b: Label): Label {
    var c := if Rank(a.classification) >= Rank(b.classification) then a.classification else b.classification;
    CanonicalLabel(Label(c, a.origins + b.origins))
  }

  function JoinAll(labels: seq<Label>): Label {
    if labels == [] then BOTTOM else Join(JoinAll(labels[..|labels| - 1]), labels[|labels| - 1])
  }

  predicate Tainted(l: Label) {
    exists o :: o in l.origins && Untrusted(o)
  }

  predicate Leq(sub: Label, sup: Label) {
    Rank(sub.classification) <= Rank(sup.classification) && forall o | o in sub.origins :: o in sup.origins
  }

  // ---- canonical labels ----

  /** Sorted by name and without repeats. */
  predicate Ordered(os: seq<Origin>) {
    Sorted(Named(os))
  }

  predicate IsCanonical(l: Label) { Ordered(l.origins) }

  lemma NamesDiffer(o: Origin, p: Origin)
    ensures Name(o) == Name(p) <==> o == p
  {
    assert |Name(o)| == |Name(p)| ==> o == p;
  }

  lemma {:induction false} NamedHas(os: seq<Origin>, m: Member<Origin>)
    ensures m in Named(os) <==> m.value in os && m.key == Name(m.value)
  {
    if m in Named(os) {
      var i :| 0 <= i < |os| && Named(os)[i] == m;
    }
    if m.value in os && m.key == Name(m.value) {
      var i :| 0 <= i < |os| && os[i] == m.value;
      assert Named(os)[i] == m;
    }
  }

  lemma OrdersOrigins(os: seq<Origin>)
    ensures Ordered(SortedOrigins(os))
    ensures forall o :: o in SortedOrigins(os) <==> o in os
  {
    var ds := Dedup(os);
    DedupKeeps(os);
    forall i, j | 0 <= i < j < |ds| ensures Name(ds[i]) != Name(ds[j]) { NamesDiffer(ds[i], ds[j]); }
    var sorted := Sort(Named(ds));
    SortSorts(Named(ds));
    SortKeeps(Named(ds));
    forall i | 0 <= i < |sorted| ensures sorted[i] == Member(Name(sorted[i].value), sorted[i].value) {
      assert sorted[i] in sorted;
      NamedHas(ds, sorted[i]);
    }
    assert Named(Values(sorted)) == sorted;
    forall o ensures o in Values(sorted) <==> o in os {
      NamedHas(ds, Member(Name(o), o));
      NamedHas(Values(sorted), Member(Name(o), o));
    }
  }

  lemma OrderedUnique(a: seq<Origin>, b: seq<Origin>)
    requires Ordered(a) && Ordered(b) && forall o :: o in a <==> o in b
    ensures a == b
  {
    forall m ensures m in Named(a) <==> m in Named(b) {
      NamedHas(a, m);
      NamedHas(b, m);
    }
    SortedUnique(Named(a), Named(b));
    forall i | 0 <= i < |a| ensures a[i] == b[i] { NamesDiffer(a[i], b[i]); }
  }

  /** Two labels have one canonical form exactly when they have one classification and one origin set. */
  lemma CanonicalExactly(a: Label, b: Label)
    ensures CanonicalLabel(a) == CanonicalLabel(b)
            <==> a.classification == b.classification && forall o :: o in a.origins <==> o in b.origins
  {
    OrdersOrigins(a.origins);
    OrdersOrigins(b.origins);
    if a.classification == b.classification && (forall o :: o in a.origins <==> o in b.origins) {
      OrderedUnique(SortedOrigins(a.origins), SortedOrigins(b.origins));
    }
  }

  // ---- the lattice ----

  lemma JoinHolds(a: Label, b: Label)
    ensures IsCanonical(Join(a, b))
    ensures Rank(Join(a, b).classification)
            == if Rank(a.classification) >= Rank(b.classification)
               then Rank(a.classification) else Rank(b.classification)
    ensures forall o :: o in Join(a, b).origins <==> o in a.origins || o in b.origins
  {
    OrdersOrigins(a.origins + b.origins);
  }

  /** Labels that each cover the other are equal once canonical. */
  lemma LeqAntisymmetric(a: Label, b: Label)
    requires IsCanonical(a) && IsCanonical(b) && Leq(a, b) && Leq(b, a)
    ensures a == b
  {
    OrderedUnique(a.origins, b.origins);
    assert Rank(a.classification) == Rank(b.classification);
  }

  /** The join covers both labels, and every label that covers both covers it. */
  lemma JoinIsLub(a: Label, b: Label, sup: Label)
    ensures Leq(a, Join(a, b)) && Leq(b, Join(a, b))
    ensures Leq(Join(a, b), sup) <==> Leq(a, sup) && Leq(b, sup)
  {
    JoinHolds(a, b);
  }

  lemma JoinCommutes(a: Label, b: Label)
    ensures Join(a, b) == Join(b, a)
  {
    JoinHolds(a, b);
    JoinHolds(b, a);
    LeqAntisymmetric(Join(a, b), Join(b, a));
  }

  lemma JoinAssociates(a: Label, b: Label, c: Label)
    ensures Join(Join(a, b), c) == Join(a, Join(b, c))
  {
    JoinHolds(a, b);
    JoinHolds(b, c);
    JoinHolds(Join(a, b), c);
    JoinHolds(a, Join(b, c));
    LeqAntisymmetric(Join(Join(a, b), c), Join(a, Join(b, c)));
  }

  lemma JoinIdempotent(a: Label)
    ensures Join(a, a) == CanonicalLabel(a)
    ensures IsCanonical(a) ==> Join(a, a) == a
  {
    JoinHolds(a, a);
    OrdersOrigins(a.origins);
    LeqAntisymmetric(Join(a, a), CanonicalLabel(a));
    if IsCanonical(a) { LeqAntisymmetric(Join(a, a), a); }
  }

  /** A join is tainted exactly when one side is: no transform washes an origin out. */
  lemma JoinTaints(a: Label, b: Label)
    ensures Tainted(Join(a, b)) <==> Tainted(a) || Tainted(b)
  {
    JoinHolds(a, b);
  }

  lemma LeqTransitive(a: Label, b: Label, c: Label)
    requires Leq(a, b) && Leq(b, c)
    ensures Leq(a, c)
  {
  }

  lemma {:induction false} JoinAllCovers(labels: seq<Label>, l: Label)
    requires l in labels
    ensures Leq(l, JoinAll(labels))
  {
    var n := |labels| - 1;
    var rest := JoinAll(labels[..n]);
    JoinIsLub(rest, labels[n], rest);
    if l != labels[n] {
      JoinAllCovers(labels[..n], l);
      LeqTransitive(l, rest, Join(rest, labels[n]));
    }
  }

  lemma {:induction false} JoinAllLeast(labels: seq<Label>, sup: Label)
    ensures IsCanonical(JoinAll(labels))
    ensures (forall l | l in labels :: Leq(l, sup)) ==> Leq(JoinAll(labels), sup)
  {
    if labels != [] {
      var n := |labels| - 1;
      var rest := JoinAll(labels[..n]);
      assert forall l :: l in labels[..n] ==> l in labels;
      JoinAllLeast(labels[..n], sup);
      JoinHolds(rest, labels[n]);
      JoinIsLub(rest, labels[n], sup);
    }
  }

  /** The join of a list covers every label in it, and nothing lower does. */
  lemma {:induction false} JoinAllIsLub(labels: seq<Label>, sup: Label)
    ensures IsCanonical(JoinAll(labels))
    ensures forall l | l in labels :: Leq(l, JoinAll(labels))
    ensures (forall l | l in labels :: Leq(l, sup)) ==> Leq(JoinAll(labels), sup)
  {
    forall l | l in labels ensures Leq(l, JoinAll(labels)) { JoinAllCovers(labels, l); }
    JoinAllLeast(labels, sup);
  }

  /** It is tainted exactly when some label in the list is. */
  predicate SomeTainted(labels: seq<Label>) {
    exists l :: l in labels && Tainted(l)
  }

  lemma SomeTaintedSnoc(labels: seq<Label>, l: Label)
    ensures SomeTainted(labels + [l]) <==> SomeTainted(labels) || Tainted(l)
  {
    if SomeTainted(labels) {
      var k :| k in labels && Tainted(k);
      assert k in labels + [l];
    }
    assert l in labels + [l];
  }

  lemma {:induction false} JoinAllTaints(labels: seq<Label>)
    ensures Tainted(JoinAll(labels)) <==> SomeTainted(labels)
  {
    if labels != [] {
      var front, last := labels[..|labels| - 1], labels[|labels| - 1];
      JoinAllTaints(front);
      JoinTaints(JoinAll(front), last);
      SomeTaintedSnoc(front, last);
      assert labels == front + [last];
    }
  }

  /** Order, batching and repetition do not matter: only which labels there were. */
  lemma JoinAllIgnoresOrder(a: seq<Label>, b: seq<Label>)
    requires forall l :: l in a <==> l in b
    ensures JoinAll(a) == JoinAll(b)
  {
    JoinAllIsLub(a, JoinAll(b));
    JoinAllIsLub(b, JoinAll(a));
    LeqAntisymmetric(JoinAll(a), JoinAll(b));
  }

  lemma JoinAllConcat(a: seq<Label>, b: seq<Label>)
    ensures JoinAll(a + b) == Join(JoinAll(a), JoinAll(b))
  {
    var whole, parts := JoinAll(a + b), Join(JoinAll(a), JoinAll(b));
    JoinAllIsLub(a, whole);
    JoinAllIsLub(b, whole);
    JoinAllIsLub(a + b, parts);
    JoinHolds(JoinAll(a), JoinAll(b));
    LeqAntisymmetric(whole, parts);
  }

  /** A classification dominates exactly those listed with it and before it. */
  lemma ClassificationOrder(a: Label, b: Label)
    requires a.origins == b.origins
    ensures Leq(a, b) <==>
              match b.classification
              case Public => a.classification == Public
              case Sensitive => a.classification == Public || a.classification == Sensitive
              case Regulated => a.classification != ClassifiedAdjacent
              case ClassifiedAdjacent => true
  {
  }

  /** What others may have written taints; what the user, the system or the broker's own tools made does not. */
  lemma UntrustedExactly(o: Origin)
    ensures Untrusted(o) <==> o != User && o != System && o != ToolOutput
  {
  }
}
