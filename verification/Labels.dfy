/** The session label store: one entry a session, raised by every registration and never lowered. */
module Labels {
  import opened Common
  import opened Lineage

  datatype Element = Element(provenance: Origin, classification: Classification, contentHash: Option<Str>)

  datatype SessionEntry = SessionEntry(
    held: Label, taintedAt: Option<nat>, taintedBy: Option<Str>, untrustedAncestors: seq<Str>)

  type Store = map<Str, SessionEntry>

  // ---- the specification ----

  /** A session the store does not track is BOTTOM. */
  function GetLabel(store: Store, session: Str): Label {
    if session in store then store[session].held else BOTTOM
  }

  function GetAncestors(store: Store, session: Str): seq<Str> {
    if session in store then store[session].untrustedAncestors else []
  }

  function OrElse<T>(kept: Option<T>, fallback: Option<T>): Option<T> {
    if kept.Some? then kept else fallback
  }

  function Joined(store: Store, session: Str, incoming: Label, corr: Option<Str>, now: nat): Store {
    var before := GetLabel(store, session);
    var after := Join(before, incoming);
    var became := !Tainted(before) && Tainted(after);
    var e := if session in store then store[session] else SessionEntry(BOTTOM, None, None, []);
    store[session := SessionEntry(
      after,
      OrElse(e.taintedAt, if became then Some(now) else None),
      OrElse(e.taintedBy, if became then corr else None),
      e.untrustedAncestors)]
  }

  function ElementLabel(e: Element): Label { Label(e.classification, [e.provenance]) }

  function ElementLabels(es: seq<Element>): seq<Label> {
    if es == [] then [] else ElementLabels(es[..|es| - 1]) + [ElementLabel(es[|es| - 1])]
  }

  /** The hashes a batch leaves behind: untrusted elements that assert a non-empty one. */
  function UntrustedHashes(es: seq<Element>): seq<Str> {
    if es == [] then []
    else
      var e := es[|es| - 1];
      UntrustedHashes(es[..|es| - 1])
      + if Untrusted(e.provenance) && e.contentHash.Some? && e.contentHash.value != [] then [e.contentHash.value]
        else []
  }

  function FoldFrom(acc: Label, labels: seq<Label>): Label {
    if labels == [] then acc else Join(FoldFrom(acc, labels[..|labels| - 1]), labels[|labels| - 1])
  }

  function ElementsJoined(store: Store, session: Str, es: seq<Element>, corr: Option<Str>, now: nat): Store {
    var joined := Joined(store, session, FoldFrom(GetLabel(store, session), ElementLabels(es)), corr, now);
    var added := UntrustedHashes(es);
    if added == [] then joined
    else
      var e := joined[session];
      joined[session := e.(untrustedAncestors := Dedup(e.untrustedAncestors + added))]
  }

  lemma BatchStep(before: Label, es: seq<Element>, i: nat)
    requires i < |es|
    ensures FoldFrom(before, ElementLabels(es[..i + 1]))
         == Join(FoldFrom(before, ElementLabels(es[..i])), ElementLabel(es[i]))
    ensures var e := es[i];
            UntrustedHashes(es[..i + 1]) == UntrustedHashes(es[..i])
            + if Untrusted(e.provenance) && e.contentHash.Some? && e.contentHash.value != [] then [e.contentHash.value]
              else []
  {
    assert es[..i + 1][..i] == es[..i];
    var ls := ElementLabels(es[..i]);
    assert (ls + [ElementLabel(es[i])])[..|ls|] == ls;
  }

  // ---- the class ----

  class SessionLabelStore {
    var labels: Store

    constructor ()
      ensures labels == map[]
    {
      labels := map[];
    }

    method Get(session: Str) returns (l: Label)
      ensures l == GetLabel(labels, session)
    {
      if session in labels { return labels[session].held; }
      l := BOTTOM;
    }

    method Join(session: Str, incoming: Label, corr: Option<Str>, now: nat) returns (after: Label)
      modifies this
      ensures labels == Joined(old(labels), session, incoming, corr, now)
      ensures after == GetLabel(labels, session)
    {
      var before := Get(session);
      after := Lineage.Join(before, incoming);
      var wasTainted := IsTaintedLabel(before);
      var nowTainted := IsTaintedLabel(after);
      var taintedAt, taintedBy, ancestors := None, None, [];
      if session in labels {
        var existing := labels[session];
        taintedAt, taintedBy, ancestors := existing.taintedAt, existing.taintedBy, existing.untrustedAncestors;
      }
      if !wasTainted && nowTainted {
        if taintedAt.None? { taintedAt := Some(now); }
        if taintedBy.None? { taintedBy := corr; }
      }
      labels := labels[session := SessionEntry(after, taintedAt, taintedBy, ancestors)];
    }

    method JoinElements(session: Str, elements: seq<Element>, corr: Option<Str>, now: nat) returns (after: Label)
      modifies this
      ensures labels == ElementsJoined(old(labels), session, elements, corr, now)
      ensures after == GetLabel(labels, session)
    {
      var before := Get(session);
      var acc, newAncestors := Accumulate(before, elements);
      after := Join(session, acc, corr, now);
      assert labels == Joined(old(labels), session, acc, corr, now);
      if newAncestors != [] {
        var entry := labels[session];
        labels := labels[session := entry.(untrustedAncestors := Dedup(entry.untrustedAncestors + newAncestors))];
      }
    }

    method Ancestors(session: Str) returns (hashes: seq<Str>)
      ensures hashes == GetAncestors(labels, session)
    {
      if session in labels { return labels[session].untrustedAncestors; }
      hashes := [];
    }

    method IsTainted(session: Str) returns (t: bool)
      ensures t == Tainted(GetLabel(labels, session))
    {
      var l := Get(session);
      t := IsTaintedLabel(l);
    }
  }

  /** The loop of `joinElements`: every element joins in, the untrusted ones leave their hash. */
  method Accumulate(before: Label, elements: seq<Element>) returns (acc: Label, newAncestors: seq<Str>)
    ensures acc == FoldFrom(before, ElementLabels(elements))
    ensures newAncestors == UntrustedHashes(elements)
  {
    acc, newAncestors := before, [];
    var i := 0;
    while i < |elements|
      invariant i <= |elements|
      invariant acc == FoldFrom(before, ElementLabels(elements[..i]))
      invariant newAncestors == UntrustedHashes(elements[..i])
    {
      var e := elements[i];
      BatchStep(before, elements, i);
      acc := Lineage.Join(acc, ElementLabel(e));
      if Untrusted(e.provenance) && e.contentHash.Some? && e.contentHash.value != [] {
        newAncestors := newAncestors + [e.contentHash.value];
      }
      i := i + 1;
    }
    assert elements[..i] == elements;
  }

  /** `label.origins.some(isUntrustedOrigin)` */
  method IsTaintedLabel(l: Label) returns (t: bool)
    ensures t == Tainted(l)
  {
    var i := 0;
    while i < |l.origins|
      invariant i <= |l.origins| && forall j :: 0 <= j < i ==> !Untrusted(l.origins[j])
    {
      if Untrusted(l.origins[i]) { return true; }
      i := i + 1;
    }
    t := false;
  }

  // ---- runs ----

  datatype Op =
    | Joins(session: Str, held: Label, corr: Option<Str>, now: nat)
    | Registers(session: Str, elements: seq<Element>, corr: Option<Str>, now: nat)

  function Apply(store: Store, op: Op): Store {
    match op
    case Joins(s, l, corr, now) => Joined(store, s, l, corr, now)
    case Registers(s, es, corr, now) => ElementsJoined(store, s, es, corr, now)
  }

  function Run(ops: seq<Op>): Store {
    if ops == [] then map[] else Apply(Run(ops[..|ops| - 1]), ops[|ops| - 1])
  }

  function LabelsIn(op: Op): seq<Label> {
    if op.Joins? then [op.held] else ElementLabels(op.elements)
  }

  /** Every label session s was given, in order. */
  function Given(ops: seq<Op>, s: Str): seq<Label> {
    if ops == [] then []
    else
      var n := |ops| - 1;
      Given(ops[..n], s) + if ops[n].session == s then LabelsIn(ops[n]) else []
  }

  /** Every untrusted content hash session s was given, in order. */
  function HashesGiven(ops: seq<Op>, s: Str): seq<Str> {
    if ops == [] then []
    else
      var n := |ops| - 1;
      HashesGiven(ops[..n], s)
      + if ops[n].session == s && ops[n].Registers? then UntrustedHashes(ops[n].elements) else []
  }

  predicate Taints(op: Op) { exists l :: l in LabelsIn(op) && Tainted(l) }

  lemma {:induction false} FoldIsJoin(acc: Label, labels: seq<Label>)
    requires IsCanonical(acc)
    ensures FoldFrom(acc, labels) == Join(acc, JoinAll(labels))
    ensures IsCanonical(FoldFrom(acc, labels))
  {
    if labels == [] {
      JoinHolds(acc, BOTTOM);
      LeqAntisymmetric(Join(acc, BOTTOM), acc);
    } else {
      var n := |labels| - 1;
      FoldIsJoin(acc, labels[..n]);
      JoinAssociates(acc, JoinAll(labels[..n]), labels[n]);
      JoinHolds(FoldFrom(acc, labels[..n]), labels[n]);
    }
  }

  /** Joining a batch's fold into the label it started from adds exactly the batch. */
  lemma Absorbs(before: Label, labels: seq<Label>)
    requires IsCanonical(before)
    ensures Join(before, FoldFrom(before, labels)) == Join(before, JoinAll(labels))
  {
    FoldIsJoin(before, labels);
    JoinAssociates(before, before, JoinAll(labels));
    JoinIdempotent(before);
  }

  lemma JoinAllOne(l: Label)
    ensures JoinAll([l]) == CanonicalLabel(l)
  {
    assert [l][..0] == [];
    JoinHolds(BOTTOM, l);
    OrdersOrigins(l.origins);
    LeqAntisymmetric(Join(BOTTOM, l), CanonicalLabel(l));
  }

  lemma JoinCanonical(a: Label, b: Label)
    ensures Join(a, CanonicalLabel(b)) == Join(a, b)
  {
    OrdersOrigins(b.origins);
    JoinHolds(a, b);
    JoinHolds(a, CanonicalLabel(b));
    LeqAntisymmetric(Join(a, CanonicalLabel(b)), Join(a, b));
  }

  lemma ApplyRaises(store: Store, op: Op, s: Str)
    requires IsCanonical(GetLabel(store, s))
    ensures GetLabel(Apply(store, op), s)
            == if op.session == s then Join(GetLabel(store, s), JoinAll(LabelsIn(op))) else GetLabel(store, s)
  {
    if op.session == s {
      match op {
        case Joins(_, l, _, _) =>
          JoinAllOne(l);
          JoinCanonical(GetLabel(store, s), l);
        case Registers(_, es, _, _) => Absorbs(GetLabel(store, s), ElementLabels(es));
      }
    }
  }

  /** After any run, in any order and batching, a session's label is the join of exactly what that
      session was given; nothing given to another session moves it. */
  lemma {:induction false} LabelIsJoinOfGiven(ops: seq<Op>, s: Str)
    ensures GetLabel(Run(ops), s) == JoinAll(Given(ops, s))
    ensures IsCanonical(GetLabel(Run(ops), s))
  {
    JoinAllIsLub(Given(ops, s), BOTTOM);
    if ops != [] {
      var n := |ops| - 1;
      LabelIsJoinOfGiven(ops[..n], s);
      ApplyRaises(Run(ops[..n]), ops[n], s);
      if ops[n].session == s {
        JoinAllConcat(Given(ops[..n], s), LabelsIn(ops[n]));
      } else {
        assert Given(ops, s) == Given(ops[..n], s);
      }
    }
  }

  /** So it is the least label covering everything the session was given. */
  lemma LabelIsLeast(ops: seq<Op>, s: Str, sup: Label)
    ensures (forall l | l in Given(ops, s) :: Leq(l, sup)) <==> Leq(GetLabel(Run(ops), s), sup)
  {
    LabelIsJoinOfGiven(ops, s);
    JoinAllIsLub(Given(ops, s), sup);
    if Leq(GetLabel(Run(ops), s), sup) {
      forall l | l in Given(ops, s) ensures Leq(l, sup) { LeqTransitive(l, JoinAll(Given(ops, s)), sup); }
    }
  }

  /** The call that gave a session one of its labels. */
  lemma {:induction false} GivenFrom(ops: seq<Op>, s: Str, l: Label) returns (i: nat)
    requires l in Given(ops, s)
    ensures i < |ops| && ops[i].session == s && l in LabelsIn(ops[i])
  {
    var n := |ops| - 1;
    if l in Given(ops[..n], s) {
      i := GivenFrom(ops[..n], s, l);
    } else {
      i := n;
    }
  }

  lemma {:induction false} GivenHas(ops: seq<Op>, s: Str, i: nat, l: Label)
    requires i < |ops| && ops[i].session == s && l in LabelsIn(ops[i])
    ensures l in Given(ops, s)
  {
    var n := |ops| - 1;
    if i < n { GivenHas(ops[..n], s, i, l); }
  }

  lemma GivenTaints(ops: seq<Op>, s: Str)
    ensures (exists l :: l in Given(ops, s) && Tainted(l))
            <==> exists i :: 0 <= i < |ops| && ops[i].session == s && Taints(ops[i])
  {
    if l :| l in Given(ops, s) && Tainted(l) {
      var i := GivenFrom(ops, s, l);
      assert Taints(ops[i]);
    }
    if i :| 0 <= i < |ops| && ops[i].session == s && Taints(ops[i]) {
      var l :| l in LabelsIn(ops[i]) && Tainted(l);
      GivenHas(ops, s, i, l);
    }
  }

  /** A session is tainted exactly when some call on it carried an untrusted origin. */
  lemma TaintedExactly(ops: seq<Op>, s: Str)
    ensures Tainted(GetLabel(Run(ops), s)) <==> exists i :: 0 <= i < |ops| && ops[i].session == s && Taints(ops[i])
  {
    LabelIsJoinOfGiven(ops, s);
    JoinAllTaints(Given(ops, s));
    GivenTaints(ops, s);
  }

  lemma UntaintedBefore(ops: seq<Op>, s: Str)
    requires ops != [] && !Tainted(GetLabel(Run(ops), s))
    ensures !Tainted(GetLabel(Run(ops[..|ops| - 1]), s))
  {
    var n := |ops| - 1;
    LabelIsJoinOfGiven(ops[..n], s);
    ApplyRaises(Run(ops[..n]), ops[n], s);
    JoinTaints(GetLabel(Run(ops[..n]), s), JoinAll(LabelsIn(ops[n])));
  }

  lemma JoinedStaysBlank(store: Store, session: Str, incoming: Label, corr: Option<Str>, now: nat, s: Str)
    requires s in store ==> store[s].taintedBy == None && store[s].taintedAt == None
    ensures var after := Joined(store, session, incoming, corr, now);
            s in after && !Tainted(after[s].held) ==> after[s].taintedBy == None && after[s].taintedAt == None
  {
  }

  lemma BlankStays(store: Store, op: Op, s: Str)
    requires s in store ==> store[s].taintedBy == None && store[s].taintedAt == None
    requires !Tainted(GetLabel(Apply(store, op), s))
    ensures s in Apply(store, op) ==> Apply(store, op)[s].taintedBy == None && Apply(store, op)[s].taintedAt == None
  {
    match op {
      case Joins(t, l, corr, now) => JoinedStaysBlank(store, t, l, corr, now, s);
      case Registers(t, es, corr, now) =>
        JoinedStaysBlank(store, t, FoldFrom(GetLabel(store, t), ElementLabels(es)), corr, now, s);
    }
  }

  /** No tainting call yet leaves no trace of one. */
  lemma {:induction false} UntaintedIsBlank(ops: seq<Op>, s: Str)
    requires !Tainted(GetLabel(Run(ops), s))
    ensures s in Run(ops) ==> Run(ops)[s].taintedBy == None && Run(ops)[s].taintedAt == None
  {
    if ops != [] {
      var n := |ops| - 1;
      UntaintedBefore(ops, s);
      UntaintedIsBlank(ops[..n], s);
      BlankStays(Run(ops[..n]), ops[n], s);
    }
  }

  lemma StampStays(store: Store, op: Op, s: Str)
    requires s in store && Tainted(store[s].held) && store[s].taintedAt.Some?
    ensures var after := Apply(store, op);
            s in after && after[s].taintedBy == store[s].taintedBy && after[s].taintedAt == store[s].taintedAt
  {
  }

  lemma Stamps(store: Store, op: Op, s: Str)
    requires op.session == s && !Tainted(GetLabel(store, s)) && Tainted(GetLabel(Apply(store, op), s))
    requires s in store ==> store[s].taintedBy == None && store[s].taintedAt == None
    ensures var after := Apply(store, op);
            s in after && after[s].taintedBy == op.corr && after[s].taintedAt == Some(op.now)
  {
  }

  predicate FirstTaint(ops: seq<Op>, s: Str, i: nat) {
    && i < |ops| && ops[i].session == s && Taints(ops[i])
    && forall j :: 0 <= j < i && ops[j].session == s ==> !Taints(ops[j])
  }

  lemma FirstTaintStamps(ops: seq<Op>, s: Str)
    requires ops != [] && FirstTaint(ops, s, |ops| - 1)
    ensures s in Run(ops) && Run(ops)[s].taintedBy == ops[|ops| - 1].corr
    ensures Run(ops)[s].taintedAt == Some(ops[|ops| - 1].now)
  {
    var n := |ops| - 1;
    assert !Tainted(GetLabel(Run(ops[..n]), s)) by { TaintedExactly(ops[..n], s); }
    assert Tainted(GetLabel(Run(ops), s)) by { TaintedExactly(ops, s); }
    UntaintedIsBlank(ops[..n], s);
    Stamps(Run(ops[..n]), ops[n], s);
  }

  lemma TaintedSince(ops: seq<Op>, s: Str, i: nat)
    requires i < |ops| && ops[i].session == s && Taints(ops[i])
    ensures Tainted(GetLabel(Run(ops), s))
  {
    TaintedExactly(ops, s);
  }

  lemma FirstTaintInFront(ops: seq<Op>, s: Str, i: nat)
    requires FirstTaint(ops, s, i) && i < |ops| - 1
    ensures FirstTaint(ops[..|ops| - 1], s, i) && ops[..|ops| - 1][i] == ops[i]
  {
  }

  /** `taintedBy` and `taintedAt` are those of the first tainting call, for good. */
  lemma {:induction false} FirstTaintStays(ops: seq<Op>, s: Str, i: nat)
    requires FirstTaint(ops, s, i)
    ensures s in Run(ops) && Run(ops)[s].taintedBy == ops[i].corr && Run(ops)[s].taintedAt == Some(ops[i].now)
  {
    var n := |ops| - 1;
    if i == n {
      FirstTaintStamps(ops, s);
    } else {
      var before := ops[..n];
      FirstTaintInFront(ops, s, i);
      FirstTaintStays(before, s, i);
      TaintedSince(before, s, i);
      StampStays(Run(before), ops[n], s);
    }
  }

  /** The ancestors are exactly the untrusted hashes registered, each once, in order of first mention. */
  lemma {:induction false} AncestorsAreHashesGiven(ops: seq<Op>, s: Str)
    ensures GetAncestors(Run(ops), s) == Dedup(HashesGiven(ops, s))
  {
    if ops != [] {
      var n := |ops| - 1;
      AncestorsAreHashesGiven(ops[..n], s);
      var before := HashesGiven(ops[..n], s);
      if ops[n].session == s && ops[n].Registers? {
        DedupAppend(before, UntrustedHashes(ops[n].elements));
        assert before + [] == before;
      } else {
        assert HashesGiven(ops, s) == before;
      }
    }
  }

  /** A batch leaves a hash exactly when one of its untrusted elements asserts it. */
  lemma {:induction false} HashesAreUntrusted(es: seq<Element>, h: Str)
    ensures h in UntrustedHashes(es)
            <==> h != [] && exists e :: e in es && Untrusted(e.provenance) && e.contentHash == Some(h)
  {
    if es != [] {
      var n := |es| - 1;
      HashesAreUntrusted(es[..n], h);
      assert es == es[..n] + [es[n]];
    }
  }

  /** A registration taints exactly when one of its elements has an untrusted origin. */
  lemma {:induction false} RegistrationTaints(es: seq<Element>)
    ensures (exists l :: l in ElementLabels(es) && Tainted(l)) <==> exists e :: e in es && Untrusted(e.provenance)
  {
    if es != [] {
      var n := |es| - 1;
      RegistrationTaints(es[..n]);
      assert es == es[..n] + [es[n]];
      assert ElementLabel(es[n]).origins == [es[n].provenance];
      assert Tainted(ElementLabel(es[n])) <==> Untrusted(es[n].provenance) by {
        assert es[n].provenance in ElementLabel(es[n]).origins;
      }
    }
  }

  /** A session that registered an untrusted hash is tainted. */
  lemma {:induction false} HashesTaint(ops: seq<Op>, s: Str)
    requires HashesGiven(ops, s) != []
    ensures Tainted(GetLabel(Run(ops), s))
  {
    var i := HashGiver(ops, s);
    TaintedExactly(ops, s);
  }

  lemma {:induction false} HashGiver(ops: seq<Op>, s: Str) returns (i: nat)
    requires HashesGiven(ops, s) != []
    ensures i < |ops| && ops[i].session == s && Taints(ops[i])
  {
    var n := |ops| - 1;
    if ops[n].session == s && ops[n].Registers? && UntrustedHashes(ops[n].elements) != [] {
      i := n;
      var h := UntrustedHashes(ops[n].elements)[0];
      HashesAreUntrusted(ops[n].elements, h);
      RegistrationTaints(ops[n].elements);
    } else {
      assert HashesGiven(ops, s) == HashesGiven(ops[..n], s);
      i := HashGiver(ops[..n], s);
    }
  }

  /** A batch leaves its hashes in the order of its elements. */
  lemma {:induction false} HashesInOrder(es: seq<Element>, fs: seq<Element>)
    ensures UntrustedHashes(es + fs) == UntrustedHashes(es) + UntrustedHashes(fs)
    decreases |fs|
  {
    if fs == [] {
      assert es + fs == es;
    } else {
      var n := |fs| - 1;
      HashesInOrder(es, fs[..n]);
      assert (es + fs)[..|es + fs| - 1] == es + fs[..n];
      Regroup3(UntrustedHashes(es), UntrustedHashes(fs[..n]), UntrustedHashes(fs)[|UntrustedHashes(fs[..n])|..]);
    }
  }

  /** A call gave the session this hash, on an element from outside. */
  predicate GaveHash(op: Op, s: Str, h: Str) {
    && op.session == s && op.Registers? && h != []
    && exists x :: x in op.elements && x.contentHash == Some(h)
                   && (x.provenance == Rag || x.provenance == McpResponse || x.provenance == ExternalChannel)
  }

  lemma GaveExactly(op: Op, s: Str, h: Str)
    ensures GaveHash(op, s, h) <==> op.session == s && op.Registers? && h in UntrustedHashes(op.elements)
  {
    if op.Registers? {
      HashesAreUntrusted(op.elements, h);
      forall x | x in op.elements ensures Untrusted(x.provenance)
        <==> x.provenance == Rag || x.provenance == McpResponse || x.provenance == ExternalChannel
      {
        UntrustedExactly(x.provenance);
      }
    }
  }

  lemma {:induction false} GivenHashes(ops: seq<Op>, s: Str, h: Str)
    ensures h in HashesGiven(ops, s) <==> exists op :: op in ops && GaveHash(op, s, h)
  {
    if ops != [] {
      var n := |ops| - 1;
      GivenHashes(ops[..n], s, h);
      GaveExactly(ops[n], s, h);
      assert ops == ops[..n] + [ops[n]];
    }
  }

  /** The ancestors of a session are the hashes of what it took in from outside, each once, and a later call only adds
      behind them. */
  lemma AncestorsExactly(ops: seq<Op>, s: Str, h: Str, op: Op)
    ensures h in GetAncestors(Run(ops), s) <==> exists o :: o in ops && GaveHash(o, s, h)
    ensures NoRepeats(GetAncestors(Run(ops), s))
    ensures GetAncestors(Run(ops), s) <= GetAncestors(Run(ops + [op]), s)
  {
    AncestorsAreHashesGiven(ops, s);
    DedupKeeps(HashesGiven(ops, s));
    GivenHashes(ops, s, h);
    AncestorsAreHashesGiven(ops + [op], s);
    assert (ops + [op])[..|ops|] == ops;
    var added := if op.session == s && op.Registers? then UntrustedHashes(op.elements) else [];
    DedupGrows(HashesGiven(ops, s), added);
  }
}
