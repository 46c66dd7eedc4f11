/** Why a line whose newline never came cannot run into the next one: a text that opens an object and
    ends in a whole object of its own is no JSON. A coarse scan of brackets and quotes is enough to see it. */
module Nesting {
  import opened Common
  import opened Unicode
  import opened Json

  /** Where a left-to-right scan stands. `Between` is outside strings, that many brackets deep; `Quoted` has
      just closed a string, which only a comma, a colon or a closing bracket may follow; `Closed` is past the
      outermost bracket, which nothing may follow. */
  datatype State =
    | Between(depth: nat) | Inside(depth: nat) | Escaped(depth: nat) | AfterQuote(depth: nat) | Closed | Broken

  predicate Closer(u: Unit) { u == RBRACE || u == RBRACKET }

  predicate Opener(u: Unit) { u == LBRACE || u == LBRACKET }

  function Shut(d: nat): State { if d == 0 then Closed else Between(d) }

  function Outside(d: nat, u: Unit): State {
    if Opener(u) then Between(d + 1)
    else if Closer(u) then if d == 0 then Broken else Shut(d - 1)
    else if u == QUOTE then Inside(d)
    else Between(d)
  }

  function Move(s: State, u: Unit): State {
    match s
    case Between(d) => Outside(d, u)
    case Inside(d) => if u == QUOTE then AfterQuote(d) else if u == BACKSLASH then Escaped(d) else Inside(d)
    case Escaped(d) => Inside(d)
    case AfterQuote(d) => if Closer(u) || u == COMMA || u == COLON then Outside(d, u) else Broken
    case Closed => Broken
    case Broken => Broken
  }

  function Scan(s: State, t: Str): State
    decreases t
  {
    if t == [] then s else Scan(Move(s, t[0]), t[1..])
  }

  lemma {:induction false} ScanConcat(s: State, a: Str, b: Str)
    ensures Scan(s, a + b) == Scan(Scan(s, a), b)
    decreases a
  {
    if a == [] {
      assert a + b == b;
    } else {
      assert (a + b)[1..] == a[1..] + b;
      ScanConcat(Move(s, a[0]), a[1..], b);
    }
  }

  lemma ScanFront(s: State, u: Unit, t: Str)
    ensures Scan(s, [u] + t) == Scan(Move(s, u), t)
  {
    assert ([u] + t)[1..] == t;
  }

  lemma {:induction false} BrokenStays(t: Str)
    ensures Scan(Broken, t) == Broken
  {
    if t != [] { BrokenStays(t[1..]); }
  }

  // ---- what the parser accepts ----

  /** What a parse consumed of t to leave rest. */
  function Used(t: Str, rest: Str): Str
    requires |rest| <= |t|
  {
    t[..|t| - |rest|]
  }

  predicate Leaves(t: Str, rest: Str) { |rest| <= |t| && t == Used(t, rest) + rest }

  lemma LeavesMore(t: Str, k: nat, rest: Str)
    requires k <= |t| && Leaves(t[k..], rest)
    ensures Leaves(t, rest) && Used(t, rest) == t[..k] + Used(t[k..], rest)
  {
    assert t == t[..k] + t[k..];
  }

  /** A string's characters and its closing quote. */
  lemma {:induction false} CharsScan(t: Str, d: nat)
    requires ParseChars(t).Some?
    ensures Leaves(t, ParseChars(t).value.1) && Scan(Inside(d), Used(t, ParseChars(t).value.1)) == AfterQuote(d)
    decreases |t|
  {
    var rest := ParseChars(t).value.1;
    var k := if t[0] == QUOTE || t[0] != BACKSLASH then 1 else if |t| >= 6 && t[1] == 117 then 6 else 2;
    if t[0] == QUOTE {
      assert Used(t, rest) == [t[0]] + [];
      ScanFront(Inside(d), t[0], []);
    } else {
      CharsScan(t[k..], d);
      LeavesMore(t, k, rest);
      ScanConcat(Inside(d), t[..k], Used(t[k..], rest));
      if k == 1 {
        OneUnit(t, d);
      } else if k == 2 {
        EscapeScan(t, d);
      } else {
        HexScan(t, d);
      }
    }
  }

  lemma OneUnit(t: Str, d: nat)
    requires t != [] && t[0] != QUOTE && t[0] != BACKSLASH
    ensures Scan(Inside(d), t[..1]) == Inside(d)
  {
    assert t[..1] == [t[0]] + [];
    ScanFront(Inside(d), t[0], []);
  }

  lemma EscapeScan(t: Str, d: nat)
    requires |t| >= 2 && t[0] == BACKSLASH
    ensures Scan(Inside(d), t[..2]) == Inside(d)
  {
    assert t[..2] == [t[0]] + ([t[1]] + []);
    ScanFront(Inside(d), t[0], [t[1]] + []);
    ScanFront(Escaped(d), t[1], []);
  }

  lemma HexScan(t: Str, d: nat)
    requires |t| >= 6 && t[0] == BACKSLASH && Unhex4(t[2..6]).Some?
    ensures Scan(Inside(d), t[..6]) == Inside(d)
  {
    EscapeScan(t, d);
    ScanConcat(Inside(d), t[..2], t[2..6]);
    assert t[..6] == t[..2] + t[2..6];
    PlainInside(t[2..6], d);
  }

  lemma {:induction false} PlainInside(t: Str, d: nat)
    requires forall u | u in t :: u != QUOTE && u != BACKSLASH
    ensures Scan(Inside(d), t) == Inside(d)
  {
    if t != [] {
      assert t[0] in t && forall u | u in t[1..] :: u in t;
      PlainInside(t[1..], d);
    }
  }

  /** Text without quotes and brackets does not move the scan between strings. */
  lemma {:induction false} PlainBetween(t: Str, d: nat)
    requires forall u | u in t :: u != QUOTE && !Opener(u) && !Closer(u)
    ensures Scan(Between(d), t) == Between(d)
  {
    if t != [] {
      assert t[0] in t && forall u | u in t[1..] :: u in t;
      PlainBetween(t[1..], d);
    }
  }

  lemma NumberScan(t: Str, d: nat)
    requires ParseNumber(t).Some?
    ensures Leaves(t, ParseNumber(t).value.1) && Scan(Between(d), Used(t, ParseNumber(t).value.1)) == Between(d)
  {
    var rest := ParseNumber(t).value.1;
    if t != [] && t[0] == MINUS {
      LeavesMore(t, 1, rest);
      forall u | u in Used(t, rest) ensures u != QUOTE && !Opener(u) && !Closer(u) {
        if u !in Used(t[1..], rest) { assert u == MINUS; }
      }
    }
    PlainBetween(Used(t, rest), d);
  }

  /** After a value the scan is as deep as before it. */
  predicate Settled(s: State, d: nat) { s == Between(d) || s == AfterQuote(d) }

  lemma {:induction false} ValueScan(t: Str, d: nat)
    requires ParseValue(t).Some? && (d > 0 || t[0] == LBRACE)
    ensures var (v, rest) := ParseValue(t).value;
            && Leaves(t, rest)
            && (if t[0] == LBRACE || t[0] == LBRACKET then Scan(Between(d), Used(t, rest)) == Shut(d)
                else Settled(Scan(Between(d), Used(t, rest)), d))
    decreases |t|, 0
  {
    var (v, rest) := ParseValue(t).value;
    if t[0] == QUOTE {
      CharsScan(t[1..], d);
      LeavesMore(t, 1, rest);
      ScanFront(Between(d), t[0], Used(t[1..], rest));
      assert t[..1] == [t[0]];
    } else if t[0] == LBRACKET || t[0] == LBRACE {
      BracketScan(t, d);
    } else if t[0] == NULL_TEXT[0] || t[0] == TRUE_TEXT[0] || t[0] == FALSE_TEXT[0] {
      WordScan(t, d);
    } else {
      NumberScan(t, d);
    }
  }

  lemma OneWord(t: Str, word: Str, d: nat)
    requires word <= t && forall u | u in word :: u != QUOTE && !Opener(u) && !Closer(u)
    ensures Leaves(t, t[|word|..]) && Scan(Between(d), Used(t, t[|word|..])) == Between(d)
  {
    assert Used(t, t[|word|..]) == word;
    PlainBetween(word, d);
  }

  lemma WordScan(t: Str, d: nat)
    requires ParseValue(t).Some? && (t[0] == NULL_TEXT[0] || t[0] == TRUE_TEXT[0] || t[0] == FALSE_TEXT[0])
    ensures var rest := ParseValue(t).value.1;
            Leaves(t, rest) && Scan(Between(d), Used(t, rest)) == Between(d)
  {
    if t[0] == NULL_TEXT[0] {
      OneWord(t, NULL_TEXT, d);
    } else if t[0] == TRUE_TEXT[0] {
      OneWord(t, TRUE_TEXT, d);
    } else {
      OneWord(t, FALSE_TEXT, d);
    }
  }

  lemma {:induction false} BracketScan(t: Str, d: nat)
    requires ParseValue(t).Some? && (t[0] == LBRACKET || t[0] == LBRACE)
    ensures var rest := ParseValue(t).value.1;
            Leaves(t, rest) && Scan(Between(d), Used(t, rest)) == Shut(d)
    decreases |t|, 0, 0
  {
    var rest := ParseValue(t).value.1;
    assert t[..1] == [t[0]];
    if |t| >= 2 && t[1] == (if t[0] == LBRACKET then RBRACKET else RBRACE) {
      assert Used(t, rest) == [t[0]] + ([t[1]] + []);
      ScanFront(Between(d), t[0], [t[1]] + []);
      ScanFront(Between(d + 1), t[1], []);
    } else {
      if t[0] == LBRACKET { ItemsScan(t[1..], d + 1); } else { MembersScan(t[1..], d + 1); }
      LeavesMore(t, 1, rest);
      ScanFront(Between(d), t[0], Used(t[1..], rest));
    }
  }

  /** A settled value and the unit after it. */
  lemma ThenUnit(t: Str, after: Str, d: nat)
    requires Leaves(t, after) && after != [] && Settled(Scan(Between(d), Used(t, after)), d)
    requires Closer(after[0]) || after[0] == COMMA || after[0] == COLON
    ensures Leaves(t, after[1..]) && Scan(Between(d), Used(t, after[1..])) == Outside(d, after[0])
  {
    assert Used(t, after[1..]) == Used(t, after) + [after[0]];
    ScanConcat(Between(d), Used(t, after), [after[0]]);
    assert [after[0]] == [after[0]] + [];
    ScanFront(Scan(Between(d), Used(t, after)), after[0], []);
  }

  lemma ThenMore(t: Str, mid: Str, rest: Str, d: nat)
    requires Leaves(t, mid) && Leaves(mid, rest) && Scan(Between(d), Used(t, mid)) == Between(d)
    ensures Leaves(t, rest) && Scan(Between(d), Used(t, rest)) == Scan(Between(d), Used(mid, rest))
  {
    var a, b := Used(t, mid), Used(mid, rest);
    Regroup3(a, b, rest);
    assert (a + b + rest)[..|a + b|] == a + b;
    ScanConcat(Between(d), a, b);
  }

  lemma ShutIsSettled(t: Str, d: nat)
    requires d > 0 && ParseValue(t).Some?
    requires var rest := ParseValue(t).value.1;
             && Leaves(t, rest)
             && (if t[0] == LBRACE || t[0] == LBRACKET then Scan(Between(d), Used(t, rest)) == Shut(d)
                 else Settled(Scan(Between(d), Used(t, rest)), d))
    ensures Settled(Scan(Between(d), Used(t, ParseValue(t).value.1)), d)
  {
  }

  lemma {:induction false} ItemsScan(t: Str, d: nat)
    requires ParseItems(t).Some? && d > 0
    ensures var rest := ParseItems(t).value.1;
            Leaves(t, rest) && Scan(Between(d), Used(t, rest)) == Shut(d - 1)
    decreases |t|, 1
  {
    var after, rest := ParseValue(t).value.1, ParseItems(t).value.1;
    ValueScan(t, d);
    ShutIsSettled(t, d);
    ThenUnit(t, after, d);
    if after[0] == COMMA {
      ItemsScan(after[1..], d);
      ThenMore(t, after[1..], rest, d);
    }
  }

  lemma KeyScan(t: Str, d: nat)
    requires ParseKey(t).Some? && d > 0
    ensures var rest := ParseKey(t).value.1;
            Leaves(t, rest) && Scan(Between(d), Used(t, rest)) == Between(d)
  {
    var after := ParseChars(t[1..]).value.1;
    CharsScan(t[1..], d);
    LeavesMore(t, 1, after);
    assert t[..1] == [t[0]];
    ScanFront(Between(d), t[0], Used(t[1..], after));
    ThenUnit(t, after, d);
  }

  lemma {:induction false} MembersScan(t: Str, d: nat)
    requires ParseMembers(t).Some? && d > 0
    ensures var rest := ParseMembers(t).value.1;
            Leaves(t, rest) && Scan(Between(d), Used(t, rest)) == Shut(d - 1)
    decreases |t|, 1
  {
    var v := ParseKey(t).value.1;
    var after, rest := ParseValue(v).value.1, ParseMembers(t).value.1;
    KeyScan(t, d);
    ValueScan(v, d);
    ShutIsSettled(v, d);
    ThenUnit(v, after, d);
    if after[0] == COMMA {
      MembersScan(after[1..], d);
      ThenMore(v, after[1..], rest, d);
    }
    ThenMore(t, v, rest, d);
  }

  // ---- no merging ----

  /** Nothing that may follow a string. */
  predicate KeyUnit(u: Unit) { !Closer(u) && u != COMMA && u != COLON }

  /** Whatever came before it, an object whose first key starts with a letter does not close it. */
  lemma {:induction false} NeverCloses(x: Str, t: Str)
    requires x != [] && x[0] == LBRACE
    requires |t| >= 3 && t[0] == LBRACE && t[1] == QUOTE && KeyUnit(t[2]) && ParseValue(t).Some?
             && ParseValue(t).value.1 == []
    ensures Scan(Between(0), x + t) != Closed
  {
    ScanConcat(Between(0), x, t);
    StaysOpened(x);
    var s := Scan(Between(0), x);
    match s {
      case Between(d) =>
        ValueScan(t, d);
        assert Used(t, []) == t;
      case _ =>
        assert t == [t[0]] + ([t[1]] + ([t[2]] + t[3..]));
        ScanFront(s, t[0], [t[1]] + ([t[2]] + t[3..]));
        ScanFront(Move(s, t[0]), t[1], [t[2]] + t[3..]);
        ScanFront(Move(Move(s, t[0]), t[1]), t[2], t[3..]);
        BrokenStays(t[3..]);
    }
  }

  /** Once a bracket has opened, the scan is never back where it started. */
  predicate Opened(s: State) { s.Between? ==> s.depth > 0 }

  lemma {:induction false} OpenedStays(s: State, t: Str)
    requires Opened(s) && !Below(s)
    ensures Opened(Scan(s, t)) && !Below(Scan(s, t))
    decreases t
  {
    if t != [] { OpenedStays(Move(s, t[0]), t[1..]); }
  }

  /** Inside or after a string of depth 0, which an opened text never is. */
  predicate Below(s: State) { (s.Inside? || s.Escaped? || s.AfterQuote?) && s.depth == 0 }

  lemma StaysOpened(x: Str)
    requires x != [] && x[0] == LBRACE
    ensures Opened(Scan(Between(0), x)) && !Below(Scan(Between(0), x))
  {
    OpenedStays(Between(1), x[1..]);
  }

  lemma AcceptedCloses(t: Str)
    requires Parse(t).Some? && t != [] && t[0] == LBRACE
    ensures Scan(Between(0), t) == Closed
  {
    ValueScan(t, 0);
    assert Used(t, []) == t;
  }

  lemma MembersOpen(t: Str)
    requires ParseMembers(t).Some?
    ensures |t| >= 2 && t[0] == QUOTE && ParseMembers(t).value.0 != []
    ensures ParseChars(t[1..]).Some? && ParseChars(t[1..]).value.0 == ParseMembers(t).value.0[0].key
  {
    assert ParseKey(t).Some?;
    var (v, rest) := ParseValue(ParseKey(t).value.1).value;
    if rest[0] != RBRACE { assert ParseMembers(rest[1..]).Some?; }
  }

  lemma ObjectIsMembers(t: Str)
    requires ParseValue(t).Some? && ParseValue(t).value.0.Obj? && ParseValue(t).value.0.members != []
    ensures t != [] && t[0] == LBRACE && ParseMembers(t[1..]).Some?
    ensures ParseMembers(t[1..]).value.0 == ParseValue(t).value.0.members
  {
  }

  /** An object that is not empty opens with its first key. */
  lemma ObjectOpens(t: Str)
    requires Parse(t).Some? && Parse(t).value.Obj? && Parse(t).value.members != []
    ensures |t| >= 3 && t[0] == LBRACE && t[1] == QUOTE
    ensures ParseChars(t[2..]).Some? && ParseChars(t[2..]).value.0 == Parse(t).value.members[0].key
  {
    ObjectIsMembers(t);
    MembersOpen(t[1..]);
    assert t[1..][1..] == t[2..];
  }

  lemma FirstOfChars(t: Str)
    requires ParseChars(t).Some? && ParseChars(t).value.0 != []
    ensures t != [] && t[0] != QUOTE && (t[0] == BACKSLASH || t[0] == ParseChars(t).value.0[0])
  {
  }

  /** No text that opens an object and ends in a whole record's text is JSON. */
  lemma MergedIsNoJson(x: Str, t: Str)
    requires x != [] && x[0] == LBRACE
    requires |t| >= 3 && t[0] == LBRACE && t[1] == QUOTE && KeyUnit(t[2]) && Parse(t).Some?
    ensures Parse(x + t).None?
  {
    NeverCloses(x, t);
    if Parse(x + t).Some? { AcceptedCloses(x + t); }
  }

  /** How many bytes the decoder takes at once, and what it makes of them. */
  function Taken(b: Bytes): (w: nat)
    requires b != []
    ensures 1 <= w <= |b|
  {
    if 0xC2 <= b[0] < 0xE0 && |b| >= 2 && Cont(b[1]) then 2
    else if 0xE0 <= b[0] < 0xF0 && |b| >= 3 && Cont(b[1]) && Cont(b[2])
         && (b[0] == 0xE0 ==> b[1] >= 0xA0) && (b[0] == 0xED ==> b[1] < 0xA0) then 3
    else if 0xF0 <= b[0] < 0xF5 && |b| >= 4 && Cont(b[1]) && Cont(b[2]) && Cont(b[3])
         && (b[0] == 0xF0 ==> b[1] >= 0x90) && (b[0] == 0xF4 ==> b[1] < 0x90) then 4
    else 1
  }

  lemma DecodesFront(b: Bytes)
    requires b != []
    ensures FromUtf8(b) == FromUtf8(b[..Taken(b)]) + FromUtf8(b[Taken(b)..])
  {
    var w := Taken(b);
    assert b[..w][w..] == [];
    assert FromUtf8([]) == [];
  }

  lemma TakenApart(q: Bytes, b: Bytes)
    requires q != [] && b != [] && b[0] < 0x80
    ensures Taken(q + b) == Taken(q)
  {
  }

  /** A decoder never reads across the start of a plain character. */
  lemma {:induction false} DecodesApart(q: Bytes, b: Bytes)
    requires b != [] && b[0] < 0x80
    ensures FromUtf8(q + b) == FromUtf8(q) + FromUtf8(b)
    decreases |q|
  {
    if q == [] {
      assert q + b == b;
    } else {
      var w := Taken(q);
      TakenApart(q, b);
      DecodesFront(q);
      DecodesFront(q + b);
      assert (q + b)[..w] == q[..w] && (q + b)[w..] == q[w..] + b;
      DecodesApart(q[w..], b);
      Regroup3(FromUtf8(q[..w]), FromUtf8(q[w..]), FromUtf8(b));
    }
  }
}
