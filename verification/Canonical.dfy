/** Canonical JSON: the encoder's `jcs`, the bindings' `canonicalJson`, and what both mean. */
module Canonical {
  import opened Common
  import opened Unicode
  import opened Json

  // ---- UTF-16 order, and sorting members by it ----

  predicate Before(a: Str, b: Str) {
    b != [] && (a == [] || a[0] < b[0] || (a[0] == b[0] && Before(a[1..], b[1..])))
  }

  lemma {:induction false} BeforeTotal(a: Str, b: Str)
    ensures Before(a, b) || a == b || Before(b, a)
    ensures !(Before(a, b) && Before(b, a))
    ensures !Before(a, a)
  {
    if a != [] {
      BeforeTotal(a[1..], if b == [] then [] else b[1..]);
      if b != [] && a[0] == b[0] {
        assert a == [a[0]] + a[1..] && b == [b[0]] + b[1..];
      }
    }
  }

  lemma {:induction false} BeforeTrans(a: Str, b: Str, c: Str)
    requires Before(a, b) && Before(b, c)
    ensures Before(a, c)
  {
    if a != [] && b != [] && c != [] && a[0] == b[0] == c[0] {
      BeforeTrans(a[1..], b[1..], c[1..]);
    }
  }

  predicate Sorted<T>(ms: seq<Member<T>>) {
    forall i, j :: 0 <= i < j < |ms| ==> Before(ms[i].key, ms[j].key)
  }

  function Insert<T>(m: Member<T>, ms: seq<Member<T>>): seq<Member<T>> {
    if ms == [] || Before(m.key, ms[0].key) then [m] + ms else [ms[0]] + Insert(m, ms[1..])
  }

  /** `keys.sort()`, carrying each key's value along. */
  function Sort<T>(ms: seq<Member<T>>): seq<Member<T>> {
    if ms == [] then [] else Insert(ms[0], Sort(ms[1..]))
  }

  lemma {:induction false} InsertKeeps<T>(m: Member<T>, ms: seq<Member<T>>)
    ensures multiset(Insert(m, ms)) == multiset([m] + ms) && |Insert(m, ms)| == |ms| + 1
  {
    if ms != [] && !Before(m.key, ms[0].key) {
      InsertKeeps(m, ms[1..]);
      assert ms == [ms[0]] + ms[1..];
    }
  }

  lemma {:induction false} InsertHas<T>(m: Member<T>, ms: seq<Member<T>>, x: Member<T>)
    ensures x in Insert(m, ms) <==> x == m || x in ms
  {
    if ms != [] {
      assert x in ms <==> x == ms[0] || x in ms[1..];
      InsertHas(m, ms[1..], x);
    }
  }

  lemma {:induction false} InsertSorts<T>(m: Member<T>, ms: seq<Member<T>>)
    requires Sorted(ms) && forall x :: x in ms ==> x.key != m.key
    ensures Sorted(Insert(m, ms))
  {
    if ms != [] {
      BeforeTotal(m.key, ms[0].key);
      if Before(m.key, ms[0].key) {
        forall j | 0 <= j < |ms| ensures Before(m.key, ms[j].key) {
          if j > 0 { BeforeTrans(m.key, ms[0].key, ms[j].key); }
        }
      } else {
        var tail := ms[1..];
        InsertSorts(m, tail);
        forall x | x in Insert(m, tail) ensures Before(ms[0].key, x.key) {
          InsertHas(m, tail, x);
          if x != m {
            var j :| 0 <= j < |tail| && tail[j] == x;
            assert ms[j + 1] == x;
          }
        }
        SortedFront(ms[0], Insert(m, tail));
      }
    }
  }

  lemma SortedFront<T>(m: Member<T>, ms: seq<Member<T>>)
    requires Sorted(ms) && forall x | x in ms :: Before(m.key, x.key)
    ensures Sorted([m] + ms)
  {
  }

  lemma {:induction false} SortSorts<T>(ms: seq<Member<T>>)
    requires DistinctKeys(ms)
    ensures Sorted(Sort(ms))
    ensures multiset(Sort(ms)) == multiset(ms)
    ensures |Sort(ms)| == |ms|
  {
    if ms != [] {
      var tail := ms[1..];
      SortSorts(tail);
      assert ms == [ms[0]] + tail;
      forall x | x in Sort(tail) ensures x.key != ms[0].key {
        assert x in multiset(tail);
        assert x in tail;
      }
      InsertSorts(ms[0], Sort(tail));
      InsertKeeps(ms[0], Sort(tail));
    }
  }

  lemma SortedDistinct<T>(ms: seq<Member<T>>)
    requires Sorted(ms)
    ensures DistinctKeys(ms)
  {
    forall i, j | 0 <= i < j < |ms| ensures ms[i].key != ms[j].key {
      BeforeTotal(ms[i].key, ms[j].key);
    }
  }

  /** A sorted member list is determined by the set of its members. */
  lemma {:induction false} SortedUnique<T>(a: seq<Member<T>>, b: seq<Member<T>>)
    requires Sorted(a) && Sorted(b)
    requires forall m :: m in a <==> m in b
    ensures a == b
  {
    if a != [] { assert a[0] in a; }
    if b != [] { assert b[0] in b; }
    if a != [] && b != [] {
      FirstIsLeast(a, b[0]);
      FirstIsLeast(b, a[0]);
      BeforeTotal(a[0].key, b[0].key);
      forall m ensures m in a[1..] <==> m in b[1..] {
        RestOfSorted(a, m);
        RestOfSorted(b, m);
      }
      SortedUnique(a[1..], b[1..]);
      assert a == [a[0]] + a[1..] && b == [b[0]] + b[1..];
    }
  }

  lemma FirstIsLeast<T>(a: seq<Member<T>>, m: Member<T>)
    requires Sorted(a) && m in a
    ensures m == a[0] || Before(a[0].key, m.key)
  {
  }

  lemma RestOfSorted<T>(a: seq<Member<T>>, m: Member<T>)
    requires Sorted(a) && a != []
    ensures m in a[1..] <==> m in a && m != a[0]
  {
    if m in a[1..] {
      var i :| 0 <= i < |a[1..]| && a[1..][i] == m;
      assert a[1 + i] == m;
      BeforeTotal(a[0].key, m.key);
    }
  }

  // ---- the value an object means ----

  /** What the encoder takes: JSON data with well-formed strings. */
  predicate Encodable(v: Js) {
    match v
    case Null => true
    case Bool(_) => true
    case Num(_) => true
    case Text(s) => WellFormed(s)
    case Arr(items) => forall x | x in items :: Encodable(x)
    case Obj(members) =>
      DistinctKeys(members) && forall m | m in members :: WellFormed(m.key) && Encodable(m.value)
    case _ => false
  }

  lemma {:induction false} EncodableIsData(v: Js)
    requires Encodable(v)
    ensures Data(v)
  {
    match v {
      case Arr(items) => forall x | x in items ensures Data(x) { EncodableIsData(x); }
      case Obj(members) => forall m | m in members ensures Data(m.value) { EncodableIsData(m.value); }
      case _ =>
    }
  }

  /** The same JSON value: an object is a set of members, whatever their order. */
  predicate Same(v: Js, w: Js)
    decreases v
  {
    match (v, w)
    case (Arr(xs), Arr(ys)) => |xs| == |ys| && forall i | 0 <= i < |xs| :: Same(xs[i], ys[i])
    case (Obj(ms), Obj(ns)) =>
      && (forall m | m in ms :: exists n | n in ns :: SameMember(m, n))
      && (forall n | n in ns :: exists m | m in ms :: SameMember(m, n))
    case _ => v == w
  }

  predicate SameMember(m: Member<Js>, n: Member<Js>)
    decreases m
  {
    m.key == n.key && Same(m.value, n.value)
  }

  /** One representative of each value: members in UTF-16 order at every level. */
  function Canon(v: Js): Js {
    match v
    case Arr(items) => Arr(seq(|items|, i requires 0 <= i < |items| => Canon(items[i])))
    case Obj(members) => Obj(Sort(CanonMembers(members)))
    case _ => v
  }

  function CanonMembers(ms: seq<Member<Js>>): (r: seq<Member<Js>>)
    ensures |r| == |ms| && forall i :: 0 <= i < |ms| ==> r[i] == Member(ms[i].key, Canon(ms[i].value))
  {
    if ms == [] then [] else [Member(ms[0].key, Canon(ms[0].value))] + CanonMembers(ms[1..])
  }

  lemma CanonSorts(ms: seq<Member<Js>>)
    requires DistinctKeys(ms)
    ensures Sorted(Sort(CanonMembers(ms)))
    ensures DistinctKeys(Sort(CanonMembers(ms)))
    ensures forall m :: m in Sort(CanonMembers(ms)) <==> m in CanonMembers(ms)
  {
    var cs := CanonMembers(ms);
    SortSorts(cs);
    SortedDistinct(Sort(cs));
    forall m ensures m in Sort(cs) <==> m in cs {
      assert m in Sort(cs) <==> m in multiset(Sort(cs));
    }
  }

  lemma {:induction false} CanonData(v: Js)
    requires Data(v)
    ensures Data(Canon(v))
  {
    match v {
      case Arr(items) =>
        forall x | x in Canon(v).items ensures Data(x) {
          var i :| 0 <= i < |items| && x == Canon(items[i]);
          CanonData(items[i]);
        }
      case Obj(members) =>
        CanonSorts(members);
        forall m | m in Canon(v).members ensures Data(m.value) {
          var i :| 0 <= i < |members| && CanonMembers(members)[i] == m;
          CanonData(members[i].value);
        }
      case _ =>
    }
  }

  /** Two values have one representative exactly when they are the same value. */
  lemma {:induction false} CanonExactly(v: Js, w: Js)
    requires Data(v) && Data(w)
    ensures Canon(v) == Canon(w) <==> Same(v, w)
    decreases v
  {
    match (v, w) {
      case (Arr(xs), Arr(ys)) =>
        forall i | 0 <= i < |xs| && i < |ys| ensures Canon(xs[i]) == Canon(ys[i]) <==> Same(xs[i], ys[i]) {
          CanonExactly(xs[i], ys[i]);
        }
        SameItems(xs, ys);
      case (Obj(ms), Obj(ns)) =>
        forall m, n | m in ms && n in ns ensures Match(m, n) <==> SameMember(m, n) {
          CanonExactly(m.value, n.value);
        }
        SameObjects(ms, ns, Match);
        assert forall m, n :: Match(m, n) <==> Match(n, m);
        CoversExactly(ms, ns);
      case _ =>
    }
  }

  lemma SameItems(xs: seq<Js>, ys: seq<Js>)
    requires forall i | 0 <= i < |xs| && i < |ys| :: Canon(xs[i]) == Canon(ys[i]) <==> Same(xs[i], ys[i])
    ensures Canon(Arr(xs)) == Canon(Arr(ys)) <==> Same(Arr(xs), Arr(ys))
  {
    var a, b := Canon(Arr(xs)).items, Canon(Arr(ys)).items;
    if a == b { forall i | 0 <= i < |xs| ensures Same(xs[i], ys[i]) { assert a[i] == b[i]; } }
  }

  predicate Match(m: Member<Js>, n: Member<Js>) {
    m.key == n.key && Canon(m.value) == Canon(n.value)
  }

  predicate Covers(ms: seq<Member<Js>>, ns: seq<Member<Js>>) {
    forall m | m in ms :: exists n | n in ns :: Match(m, n)
  }

  /** One unfolding of `Same`, with the comparison of members replaced by an equivalent one. */
  lemma SameObjects(ms: seq<Member<Js>>, ns: seq<Member<Js>>, R: (Member<Js>, Member<Js>) -> bool)
    requires forall m, n | m in ms && n in ns :: R(m, n) <==> SameMember(m, n)
    ensures Same(Obj(ms), Obj(ns)) <==>
              && (forall m | m in ms :: exists n | n in ns :: R(m, n))
              && (forall n | n in ns :: exists m | m in ms :: R(m, n))
  {
  }

  lemma CoversExactly(ms: seq<Member<Js>>, ns: seq<Member<Js>>)
    requires DistinctKeys(ms) && DistinctKeys(ns)
    ensures Covers(ms, ns) && Covers(ns, ms) <==> Sort(CanonMembers(ms)) == Sort(CanonMembers(ns))
  {
    var cs, ds := CanonMembers(ms), CanonMembers(ns);
    CanonSorts(ms);
    CanonSorts(ns);
    if Covers(ms, ns) && Covers(ns, ms) {
      CoveredMembers(ms, ns);
      CoveredMembers(ns, ms);
      SortedUnique(Sort(cs), Sort(ds));
    }
    if Sort(cs) == Sort(ds) {
      forall m ensures m in cs <==> m in ds { assert m in Sort(cs) <==> m in Sort(ds); }
      MembersCovered(ms, ns);
      MembersCovered(ns, ms);
    }
  }

  lemma CoveredMembers(ms: seq<Member<Js>>, ns: seq<Member<Js>>)
    requires Covers(ms, ns)
    ensures forall c :: c in CanonMembers(ms) ==> c in CanonMembers(ns)
  {
    var cs, ds := CanonMembers(ms), CanonMembers(ns);
    forall c | c in cs ensures c in ds {
      var i :| 0 <= i < |cs| && cs[i] == c;
      assert ms[i] in ms;
      var n :| n in ns && Match(ms[i], n);
      var j :| 0 <= j < |ns| && ns[j] == n;
      assert ds[j] == c;
    }
  }

  lemma MembersCovered(ms: seq<Member<Js>>, ns: seq<Member<Js>>)
    requires forall c :: c in CanonMembers(ms) ==> c in CanonMembers(ns)
    ensures Covers(ms, ns)
  {
    var cs, ds := CanonMembers(ms), CanonMembers(ns);
    forall m | m in ms ensures exists n | n in ns :: Match(m, n) {
      var i :| 0 <= i < |ms| && ms[i] == m;
      assert cs[i] in cs;
      var j :| 0 <= j < |ds| && ds[j] == cs[i];
      assert ns[j] in ns && Match(m, ns[j]);
    }
  }

  // ---- the two encoders ----

  function JcsString(s: Str): Option<Str> {
    if WellFormed(s) then Some(Quoted(s)) else None
  }

  /** `jcs`; None is the thrown EncodingError. */
  function Jcs(v: Js): Option<Str>
    decreases v, 1, 0
  {
    match v
    case Null => Some(NULL_TEXT)
    case Bool(b) => Some(if b then TRUE_TEXT else FALSE_TEXT)
    case Num(n) => Some(NumText(n))
    case Text(s) => JcsString(s)
    case Arr(items) =>
      (match JcsItems(items)
       case None => None
       case Some(t) => Some([LBRACKET] + t + [RBRACKET]))
    case Obj(members) =>
      if !DistinctKeys(members) then None
      else
        SortKeeps(members);
        (match JcsMembers(v, Sort(members))
         case None => None
         case Some(t) => Some([LBRACE] + t + [RBRACE]))
    case _ => None
  }

  function JcsItems(items: seq<Js>): Option<Str>
    decreases items, 0, 0
  {
    if items == [] then Some([])
    else match (Jcs(items[0]), JcsItems(items[1..]))
         case (Some(p), Some(q)) => Some(if |items| == 1 then p else p + [COMMA] + q)
         case _ => None
  }

  /** The members of `context`, in sorted order. */
  function JcsMembers(context: Js, ms: seq<Member<Js>>): Option<Str>
    requires forall m | m in ms :: m.value < context
    decreases context, 0, |ms|
  {
    if ms == [] then Some([])
    else
      assert ms[0] in ms;
      match (JcsString(ms[0].key), Jcs(ms[0].value), JcsMembers(context, ms[1..]))
      case (Some(k), Some(p), Some(q)) =>
        Some(if |ms| == 1 then k + [COLON] + p else k + [COLON] + p + [COMMA] + q)
      case _ => None
  }

  lemma SortKeeps<T>(ms: seq<Member<T>>)
    requires DistinctKeys(ms)
    ensures forall m :: m in Sort(ms) <==> m in ms
  {
    SortSorts(ms);
    forall m ensures m in Sort(ms) <==> m in ms {
      assert m in Sort(ms) <==> m in multiset(Sort(ms));
    }
  }

  /** `canonicalJson`, on what a JSON parse returns. */
  function CanonicalJson(v: Js): Str
    requires Data(v)
    decreases v, 1, 0
  {
    match v
    case Arr(items) => [LBRACKET] + CanonicalItems(items) + [RBRACKET]
    case Obj(members) =>
      SortKeeps(members);
      [LBRACE] + CanonicalMembers(v, Sort(members)) + [RBRACE]
    case _ => Print(v)
  }

  function CanonicalItems(items: seq<Js>): Str
    requires forall x | x in items :: Data(x)
    decreases items, 0, 0
  {
    if items == [] then []
    else if |items| == 1 then CanonicalJson(items[0])
    else CanonicalJson(items[0]) + [COMMA] + CanonicalItems(items[1..])
  }

  function CanonicalMembers(context: Js, ms: seq<Member<Js>>): Str
    requires forall m | m in ms :: m.value < context && Data(m.value)
    decreases context, 0, |ms|
  {
    if ms == [] then []
    else
      assert ms[0] in ms;
      var first := Quoted(ms[0].key) + [COLON] + CanonicalJson(ms[0].value);
      if |ms| == 1 then first else first + [COMMA] + CanonicalMembers(context, ms[1..])
  }

  // ---- what they print ----

  /** The broker's digest text and the bindings' are the representative, printed. */
  lemma {:induction false} CanonicalJsonPrints(v: Js)
    requires Data(v)
    ensures Data(Canon(v)) && CanonicalJson(v) == Print(Canon(v))
    decreases v, 1, 0
  {
    CanonData(v);
    match v {
      case Arr(items) => CanonicalItemsPrint(items, Canon(v).items);
      case Obj(members) =>
        SortKeeps(members);
        SortCommutes(members);
        SortSorts(members);
        CanonicalMembersPrint(v, Sort(members));
      case _ =>
    }
  }

  lemma {:induction false} CanonicalItemsPrint(items: seq<Js>, canons: seq<Js>)
    requires forall x | x in items :: Data(x)
    requires |canons| == |items| && forall i | 0 <= i < |items| :: canons[i] == Canon(items[i]) && Data(canons[i])
    ensures CanonicalItems(items) == PrintItems(canons)
    decreases items, 0, 0
  {
    if items != [] {
      CanonicalJsonPrints(items[0]);
      CanonicalItemsPrint(items[1..], canons[1..]);
    }
  }

  lemma {:induction false} CanonicalMembersPrint(context: Js, ms: seq<Member<Js>>)
    requires forall m | m in ms :: m.value < context && Data(m.value)
    ensures forall m | m in CanonMembers(ms) :: Data(m.value)
    ensures CanonicalMembers(context, ms) == PrintMembers(CanonMembers(ms))
    decreases context, 0, |ms|
  {
    if ms != [] {
      assert ms[0] in ms;
      CanonicalJsonPrints(ms[0].value);
      CanonicalMembersPrint(context, ms[1..]);
      assert CanonMembers(ms)[1..] == CanonMembers(ms[1..]);
    }
  }

  lemma {:induction false} InsertCommutes(m: Member<Js>, ms: seq<Member<Js>>)
    ensures CanonMembers(Insert(m, ms)) == Insert(Member(m.key, Canon(m.value)), CanonMembers(ms))
  {
    var c := Member(m.key, Canon(m.value));
    if ms == [] || Before(m.key, ms[0].key) {
      assert ([m] + ms)[1..] == ms;
    } else {
      InsertCommutes(m, ms[1..]);
      var r := [ms[0]] + Insert(m, ms[1..]);
      assert r[1..] == Insert(m, ms[1..]);
      assert CanonMembers(ms)[1..] == CanonMembers(ms[1..]);
    }
  }

  /** Sorting looks at keys only, so it commutes with what is done to the values. */
  lemma {:induction false} SortCommutes(ms: seq<Member<Js>>)
    ensures CanonMembers(Sort(ms)) == Sort(CanonMembers(ms))
  {
    if ms != [] {
      SortCommutes(ms[1..]);
      InsertCommutes(ms[0], Sort(ms[1..]));
      assert CanonMembers(ms)[1..] == CanonMembers(ms[1..]);
    }
  }

  /** The encoder accepts exactly the encodable values, and prints what the bindings print. */
  lemma {:induction false} JcsExactly(v: Js)
    ensures Jcs(v).Some? <==> Encodable(v)
    ensures Encodable(v) ==> Data(v) && Jcs(v) == Some(CanonicalJson(v))
    decreases v, 1, 0
  {
    match v {
      case Arr(items) => JcsItemsExactly(items);
      case Obj(members) =>
        if DistinctKeys(members) {
          SortKeeps(members);
          JcsMembersExactly(v, Sort(members));
          SortedEncodable(members);
        }
      case _ =>
    }
  }

  lemma SortedEncodable(members: seq<Member<Js>>)
    requires DistinctKeys(members)
    ensures (forall m | m in Sort(members) :: WellFormed(m.key) && Encodable(m.value)) <==> Encodable(Obj(members))
  {
    SortKeeps(members);
  }

  lemma {:induction false} JcsItemsExactly(items: seq<Js>)
    ensures JcsItems(items).Some? <==> forall x | x in items :: Encodable(x)
    ensures JcsItems(items).Some? ==>
              (forall x | x in items :: Data(x)) && JcsItems(items) == Some(CanonicalItems(items))
    decreases items, 0, 0
  {
    if items != [] {
      JcsExactly(items[0]);
      JcsItemsExactly(items[1..]);
      assert items == [items[0]] + items[1..];
    }
  }

  lemma {:induction false} JcsMembersExactly(context: Js, ms: seq<Member<Js>>)
    requires forall m | m in ms :: m.value < context
    ensures JcsMembers(context, ms).Some? <==> forall m | m in ms :: WellFormed(m.key) && Encodable(m.value)
    ensures JcsMembers(context, ms).Some? ==>
              (forall m | m in ms :: Data(m.value)) && JcsMembers(context, ms) == Some(CanonicalMembers(context, ms))
    decreases context, 0, |ms|
  {
    if ms != [] {
      assert ms[0] in ms;
      JcsExactly(ms[0].value);
      JcsMembersExactly(context, ms[1..]);
      assert ms == [ms[0]] + ms[1..];
    }
  }

  // ---- the theorems ----

  /** Parsing the canonical text gives the value back, members in canonical order. */
  lemma ParseInvertsJcs(v: Js)
    requires Encodable(v)
    ensures Jcs(v).Some? && Parse(Jcs(v).value) == Some(Canon(v))
    ensures Data(v) && Same(v, Canon(v))
  {
    JcsExactly(v);
    CanonicalJsonPrints(v);
    ParseInvertsPrint(Canon(v));
    CanonIdempotent(v);
    CanonExactly(v, Canon(v));
  }

  lemma SortedSortsToItself<T>(ms: seq<Member<T>>)
    requires Sorted(ms)
    ensures Sort(ms) == ms
  {
    SortedDistinct(ms);
    SortSorts(ms);
    SortKeeps(ms);
    SortedUnique(Sort(ms), ms);
  }

  lemma {:induction false} CanonIdempotent(v: Js)
    requires Data(v)
    ensures Data(Canon(v)) && Canon(Canon(v)) == Canon(v)
  {
    CanonData(v);
    match v {
      case Arr(items) =>
        forall i | 0 <= i < |items| ensures Canon(Canon(items[i])) == Canon(items[i]) { CanonIdempotent(items[i]); }
      case Obj(members) =>
        var sorted := Sort(CanonMembers(members));
        CanonSorts(members);
        forall i | 0 <= i < |sorted| ensures Canon(sorted[i].value) == sorted[i].value {
          assert sorted[i] in sorted;
          var j :| 0 <= j < |members| && CanonMembers(members)[j] == sorted[i];
          assert members[j] in members;
          CanonIdempotent(members[j].value);
        }
        assert CanonMembers(sorted) == sorted;
        SortedSortsToItself(sorted);
      case _ =>
    }
  }

  /** Equal canonical text means the same value, and the other way round: member order never shows. */
  lemma JcsDecidesSame(v: Js, w: Js)
    requires Encodable(v) && Encodable(w)
    ensures Data(v) && Data(w) && (Jcs(v) == Jcs(w) <==> Same(v, w))
  {
    ParseInvertsJcs(v);
    ParseInvertsJcs(w);
    JcsExactly(v);
    JcsExactly(w);
    CanonicalJsonPrints(v);
    CanonicalJsonPrints(w);
    CanonExactly(v, w);
  }

  /** The texts agree up to k, where a ends or has the lesser code unit. */
  predicate LessAt(a: Str, b: Str, k: nat) {
    k <= |a| && k < |b| && a[..k] == b[..k] && (k == |a| || a[k] < b[k])
  }

  lemma {:induction false} LessIsBefore(a: Str, b: Str, k: nat)
    requires LessAt(a, b, k)
    ensures Before(a, b)
  {
    if k > 0 {
      assert a[..k][0] == b[..k][0];
      assert a[1..][..k - 1] == a[..k][1..] && b[1..][..k - 1] == b[..k][1..];
      LessIsBefore(a[1..], b[1..], k - 1);
    }
  }

  lemma {:induction false} BeforeIsLess(a: Str, b: Str) returns (k: nat)
    requires Before(a, b)
    ensures LessAt(a, b, k)
  {
    if a == [] || a[0] < b[0] {
      k := 0;
    } else {
      k := BeforeIsLess(a[1..], b[1..]);
      k := k + 1;
      assert a[..k] == [a[0]] + a[1..][..k - 1] && b[..k] == [b[0]] + b[1..][..k - 1];
    }
  }

  /** The order is that of the first code unit in which the texts differ, a shorter text before one it begins. */
  lemma BeforeExactly(a: Str, b: Str)
    ensures Before(a, b) <==> exists k :: LessAt(a, b, k)
  {
    if Before(a, b) { var k := BeforeIsLess(a, b); }
    if k :| LessAt(a, b, k) { LessIsBefore(a, b, k); }
  }
}
