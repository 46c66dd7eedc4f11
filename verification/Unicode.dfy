/** Well-formed UTF-16, and the UTF-8 bytes a JavaScript string is written as. */
module Unicode {
  import opened Common

  predicate High(u: Unit) { 0xD800 <= u < 0xDC00 }

  predicate Low(u: Unit) { 0xDC00 <= u < 0xE000 }

  /** One match of the lookaround test for a lone surrogate, at position i. */
  predicate LoneAt(s: Str, i: nat)
    requires i < |s|
  {
    || (High(s[i]) && !(i + 1 < |s| && Low(s[i + 1])))
    || (Low(s[i]) && !(0 < i && High(s[i - 1])))
  }

  predicate WellFormed(s: Str) {
    forall i :: 0 <= i < |s| ==> !LoneAt(s, i)
  }

  predicate Pair(s: Str) {
    |s| >= 2 && High(s[0]) && Low(s[1])
  }

  predicate Lone(s: Str)
    requires s != []
  {
    (High(s[0]) || Low(s[0])) && !Pair(s)
  }

  /** How many code units the first code point takes. */
  function Width(s: Str): (w: nat)
    requires s != []
  {
    if Pair(s) then 2 else 1
  }

  /** Each lone surrogate replaced by U+FFFD, as the UTF-8 encoder does. */
  function ToWellFormed(s: Str): Str {
    if s == [] then []
    else if Pair(s) then s[..2] + ToWellFormed(s[2..])
    else [if Lone(s) then 0xFFFD else s[0]] + ToWellFormed(s[1..])
  }

  function Utf8Unit(u: Unit): Bytes {
    if u < 0x80 then [u]
    else if u < 0x800 then [0xC0 + u / 0x40, 0x80 + u % 0x40]
    else [0xE0 + u / 0x1000, 0x80 + u / 0x40 % 0x40, 0x80 + u % 0x40]
  }

  function Utf8Pair(hi: Unit, lo: Unit): Bytes
    requires High(hi) && Low(lo)
  {
    var c := 0x1_0000 + (hi - 0xD800) * 0x400 + (lo - 0xDC00);
    [0xF0 + c / 0x4_0000, 0x80 + c / 0x1000 % 0x40, 0x80 + c / 0x40 % 0x40, 0x80 + c % 0x40]
  }

  function Utf8(s: Str): Bytes {
    if s == [] then []
    else if Pair(s) then Utf8Pair(s[0], s[1]) + Utf8(s[2..])
    else Utf8Unit(if Lone(s) then 0xFFFD else s[0]) + Utf8(s[1..])
  }

  predicate Cont(b: Byte) { 0x80 <= b < 0xC0 }

  function CodePoint(b0: int, b1: int, b2: int, b3: int): int {
    (b0 - 0xF0) * 0x4_0000 + (b1 - 0x80) * 0x1000 + (b2 - 0x80) * 0x40 + (b3 - 0x80)
  }

  /** The UTF-8 decoder. A byte that starts no character becomes U+FFFD. */
  function FromUtf8(b: Bytes): Str {
    if b == [] then []
    else if b[0] < 0x80 then [b[0]] + FromUtf8(b[1..])
    else if 0xC2 <= b[0] < 0xE0 && |b| >= 2 && Cont(b[1]) then
      [(b[0] - 0xC0) * 0x40 + (b[1] - 0x80)] + FromUtf8(b[2..])
    else if 0xE0 <= b[0] < 0xF0 && |b| >= 3 && Cont(b[1]) && Cont(b[2]) 
         && (b[0] == 0xE0 ==> b[1] >= 0xA0) && (b[0] == 0xED ==> b[1] < 0xA0) then
      [(b[0] - 0xE0) * 0x1000 + (b[1] - 0x80) * 0x40 + (b[2] - 0x80)] + FromUtf8(b[3..])
    else if 0xF0 <= b[0] < 0xF5 && |b| >= 4 && Cont(b[1]) && Cont(b[2]) && Cont(b[3])
         && (b[0] == 0xF0 ==> b[1] >= 0x90) && (b[0] == 0xF4 ==> b[1] < 0x90) then
      var c := CodePoint(b[0], b[1], b[2], b[3]) - 0x1_0000;
      [0xD800 + c / 0x400, 0xDC00 + c % 0x400] + FromUtf8(b[4..])
    else [0xFFFD] + FromUtf8(b[1..])
  }

  /** The regular expression finds no lone surrogate exactly when the encoder has nothing to replace. */
  lemma {:induction false} WellFormedExactly(s: Str)
    ensures WellFormed(s) <==> ToWellFormed(s) == s
  {
    if s != [] {
      var w := Width(s);
      var t := s[w..];
      WellFormedExactly(t);
      forall i | 0 <= i < |t| ensures LoneAt(t, i) == LoneAt(s, w + i) {}
      if Lone(s) {
        assert LoneAt(s, 0);
        assert ToWellFormed(s)[0] == 0xFFFD;
      } else {
        assert s == s[..w] + t;
        assert ToWellFormed(s) == s[..w] + ToWellFormed(t);
        assert ToWellFormed(s)[w..] == ToWellFormed(t);
        if WellFormed(s) {
          forall i | 0 <= i < |t| ensures !LoneAt(t, i) { assert !LoneAt(s, w + i); }
        }
        if WellFormed(t) {
          forall i | 0 <= i < |s| ensures !LoneAt(s, i) {
            if i >= w { assert !LoneAt(t, i - w); }
          }
        }
      }
    }
  }

  lemma DecodesUnit(u: Unit, rest: Bytes)
    requires !High(u) && !Low(u)
    ensures FromUtf8(Utf8Unit(u) + rest) == [u] + FromUtf8(rest)
  {
    var b := Utf8Unit(u) + rest;
    assert b[|Utf8Unit(u)|..] == rest;
    if 0x800 <= u { assert u / 0x40 / 0x40 == u / 0x1000; }
  }

  lemma DecodesPair(hi: Unit, lo: Unit, rest: Bytes)
    requires High(hi) && Low(lo)
    ensures FromUtf8(Utf8Pair(hi, lo) + rest) == [hi, lo] + FromUtf8(rest)
  {
    var b := Utf8Pair(hi, lo) + rest;
    assert b[4..] == rest;
    var c := 0x1_0000 + (hi - 0xD800) * 0x400 + (lo - 0xDC00);
    FourDigits(c);
    assert b[0] - 0xF0 == c / 0x4_0000 <= 4;
  }

  /** The base-64 digits of a code point give it back. */
  lemma FourDigits(c: nat)
    ensures c / 0x4_0000 * 0x4_0000 + c / 0x1000 % 0x40 * 0x1000 + c / 0x40 % 0x40 * 0x40 + c % 0x40 == c
  {
    assert c / 0x40 / 0x40 == c / 0x1000;
    assert c / 0x1000 / 0x40 == c / 0x4_0000;
  }

  /** Decoding undoes encoding, up to the replacement the encoder makes. */
  lemma {:induction false} Utf8Decodes(s: Str)
    ensures FromUtf8(Utf8(s)) == ToWellFormed(s)
  {
    if s == [] {
    } else if Pair(s) {
      Utf8Decodes(s[2..]);
      DecodesPair(s[0], s[1], Utf8(s[2..]));
      assert s[..2] == [s[0], s[1]];
    } else {
      Utf8Decodes(s[1..]);
      DecodesUnit(if Lone(s) then 0xFFFD else s[0], Utf8(s[1..]));
    }
  }

  lemma {:induction false} Utf8Replaces(s: Str)
    ensures Utf8(ToWellFormed(s)) == Utf8(s)
  {
    if s == [] {
    } else if Pair(s) {
      Utf8Replaces(s[2..]);
      var t := ToWellFormed(s);
      assert t[..2] == s[..2] && t[2..] == ToWellFormed(s[2..]);
    } else {
      Utf8Replaces(s[1..]);
      var t := ToWellFormed(s);
      assert t[1..] == ToWellFormed(s[1..]);
    }
  }

  /** Two strings have the same bytes exactly when they agree after replacement. */
  lemma Utf8EqualExactly(s: Str, t: Str)
    ensures Utf8(s) == Utf8(t) <==> ToWellFormed(s) == ToWellFormed(t)
  {
    Utf8Decodes(s);
    Utf8Decodes(t);
    Utf8Replaces(s);
    Utf8Replaces(t);
  }

  /** UTF-8 is injective on well-formed strings. */
  lemma Utf8Injective(s: Str, t: Str)
    requires WellFormed(s) && WellFormed(t) && Utf8(s) == Utf8(t)
    ensures s == t
  {
    Utf8EqualExactly(s, t);
    WellFormedExactly(s);
    WellFormedExactly(t);
  }

  /** A newline byte is a newline character: no other character's encoding contains 0x0a. */
  lemma {:induction false} Utf8Newline(s: Str)
    ensures NEWLINE in Utf8(s) <==> NEWLINE in s
  {
    if s == [] {
    } else if Pair(s) {
      Utf8Newline(s[2..]);
      assert s == [s[0], s[1]] + s[2..];
    } else {
      Utf8Newline(s[1..]);
      assert s == [s[0]] + s[1..];
    }
  }

  lemma {:induction false} Utf8Length(s: Str)
    ensures |Utf8(s)| <= 3 * |s|
  {
    if s != [] { Utf8Length(s[Width(s)..]); }
  }

  lemma {:induction false} Utf8EndLine(s: Str)
    ensures Utf8(s + [NEWLINE]) == Utf8(s) + [NEWLINE]
  {
    if s == [] {
      assert (s + [NEWLINE])[1..] == [];
    } else {
      var w := Width(s);
      Utf8EndLine(s[w..]);
      var t := s + [NEWLINE];
      assert Pair(t) == Pair(s) && t[0] == s[0] && Lone(t) == Lone(s);
      assert t[w..] == s[w..] + [NEWLINE];
      var first := if Pair(s) then Utf8Pair(s[0], s[1]) else Utf8Unit(if Lone(s) then 0xFFFD else s[0]);
      Regroup3(first, Utf8(s[w..]), [NEWLINE]);
    }
  }

  lemma WellFormedConcat(a: Str, b: Str)
    requires WellFormed(a) && WellFormed(b)
    ensures WellFormed(a + b)
  {
    forall i | 0 <= i < |a + b| ensures !LoneAt(a + b, i) {
      if i < |a| {
        assert !LoneAt(a, i);
      } else {
        assert !LoneAt(b, i - |a|);
      }
    }
  }

  lemma PlainUnits(s: Str)
    requires forall u :: u in s ==> !High(u) && !Low(u)
    ensures WellFormed(s)
  {
  }
}
