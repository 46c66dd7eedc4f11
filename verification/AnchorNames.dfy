/** Anchor file names: the position, zero-padded to twelve digits, so that name order is position order. */
module AnchorNames {
  import opened Common
  import opened Json
  import opened Canonical

  const NAME_DIGITS: nat := 12
  const NAME_LIMIT: nat := 1_000_000_000_000

  function PadStart(ds: Str, w: nat): Str
    decreases w - |ds|
  {
    if |ds| >= w then ds else PadStart([48] + ds, w)
  }

  /** `<seq padded to 12>-<timestamp>.json` */
  function AnchorName(seqNo: nat, timestamp: nat): Str {
    PadStart(Decimal(seqNo), NAME_DIGITS) + ([MINUS] + Decimal(timestamp) + Ascii(".json"))
  }

  /** `Number(name.slice(0, 12))`; None is NaN, which lies in no page. */
  function SeqOfName(name: Str): Option<nat> {
    if |name| >= NAME_DIGITS && (forall u | u in name[..NAME_DIGITS] :: Digit(u))
    then Some(ValueOf(name[..NAME_DIGITS]))
    else None
  }

  function Pow10(k: nat): nat { if k == 0 then 1 else 10 * Pow10(k - 1) }

  predicate Digits(ds: Str) { forall u :: u in ds ==> Digit(u) }

  lemma {:induction false} ValueBound(ds: Str)
    requires Digits(ds)
    ensures ValueOf(ds) < Pow10(|ds|)
  {
    if ds != [] {
      assert ds[|ds| - 1] in ds;
      assert forall u :: u in ds[..|ds| - 1] ==> u in ds;
      ValueBound(ds[..|ds| - 1]);
    }
  }

  lemma {:induction false} LeadingZero(ds: Str)
    requires Digits(ds)
    ensures Digits([48] + ds) && ValueOf([48] + ds) == ValueOf(ds)
  {
    var z := [48] + ds;
    if ds == [] {
      assert z[..0] == [];
    } else {
      var n := |ds| - 1;
      assert ds[n] in ds;
      assert forall u :: u in ds[..n] ==> u in ds;
      LeadingZero(ds[..n]);
      assert z[..|z| - 1] == [48] + ds[..n];
    }
  }

  lemma {:induction false} PadKeepsValue(ds: Str, w: nat)
    requires Digits(ds)
    ensures Digits(PadStart(ds, w)) && ValueOf(PadStart(ds, w)) == ValueOf(ds)
    ensures |PadStart(ds, w)| == if |ds| >= w then |ds| else w
    decreases w - |ds|
  {
    if |ds| < w {
      LeadingZero(ds);
      PadKeepsValue([48] + ds, w);
    }
  }

  lemma Pow10Limit()
    ensures Pow10(NAME_DIGITS) == NAME_LIMIT
  {
    assert Pow10(12) == 1000 * Pow10(9) && Pow10(9) == 1000 * Pow10(6) && Pow10(6) == 1000 * Pow10(3);
  }

  lemma {:induction false} DecimalLength(n: nat, k: nat)
    requires n < Pow10(k) && k >= 1
    ensures |Decimal(n)| <= k
  {
    if n >= 10 {
      DecimalLength(n / 10, k - 1);
    }
  }

  /** The name gives the position back exactly below 10^12. */
  lemma NameGivesSeq(seqNo: nat, timestamp: nat)
    ensures SeqOfName(AnchorName(seqNo, timestamp)) == Some(seqNo) <==> seqNo < NAME_LIMIT
  {
    var ds, name := Decimal(seqNo), AnchorName(seqNo, timestamp);
    DecimalValue(seqNo);
    PadKeepsValue(ds, NAME_DIGITS);
    Pow10Limit();
    var p := PadStart(ds, NAME_DIGITS);
    assert name[..NAME_DIGITS] == p[..NAME_DIGITS];
    forall u | u in p[..NAME_DIGITS] ensures Digit(u) { assert u in p; }
    if seqNo < NAME_LIMIT {
      DecimalLength(seqNo, NAME_DIGITS);
      assert p[..NAME_DIGITS] == p;
    } else {
      ValueBound(p[..NAME_DIGITS]);
    }
  }

  /** Digit strings of one length are ordered as numbers. */
  lemma {:induction false} OrderedDigits(a: Str, x: Str, b: Str, y: Str)
    requires |a| == |b| && Digits(a) && Digits(b) && Before(a + x, b + y)
    ensures ValueOf(a) <= ValueOf(b)
    decreases |a|
  {
    if a != [] {
      SplitValue(a);
      SplitValue(b);
      assert (a + x)[1..] == a[1..] + x && (b + y)[1..] == b[1..] + y;
      assert (a + x)[0] == a[0] && (b + y)[0] == b[0];
      assert a[0] in a && b[0] in b;
      assert (forall u :: u in a[1..] ==> u in a) && forall u :: u in b[1..] ==> u in b;
      ValueBound(a[1..]);
      ValueBound(b[1..]);
      if a[0] == b[0] {
        OrderedDigits(a[1..], x, b[1..], y);
      } else {
        LeadingDigit(a[0] - 48, b[0] - 48, Pow10(|a| - 1));
      }
    }
  }

  lemma LeadingDigit(d: int, e: int, p: nat)
    requires d < e
    ensures d * p + p <= e * p
  {
    assert (d + 1) * p <= e * p;
  }

  lemma {:induction false} SplitValue(ds: Str)
    requires ds != [] && Digits(ds)
    ensures Digits(ds[1..])
    ensures ValueOf(ds) == (ds[0] - 48) * Pow10(|ds| - 1) + ValueOf(ds[1..])
  {
    var n := |ds| - 1;
    assert ds[n] in ds && ds[0] in ds;
    assert forall u :: u in ds[1..] ==> u in ds;
    assert forall u :: u in ds[..n] ==> u in ds;
    if n == 0 {
      assert ds[..0] == [] && ds[1..] == [];
    } else {
      SplitValue(ds[..n]);
      assert ds[..n][1..] == ds[1..][..n - 1] && ds[..n][0] == ds[0] && ds[1..][n - 1] == ds[n];
      Shift(ds[0] - 48, Pow10(n - 1), ValueOf(ds[..n][1..]));
    }
  }

  lemma Shift(d: int, p: nat, v: int)
    ensures 10 * (d * p + v) == d * (10 * p) + 10 * v
  {
  }

  /** Names sort by position: an earlier name never has a later position. */
  lemma NamesInOrder(s: nat, t: nat, s': nat, t': nat)
    requires s < NAME_LIMIT && s' < NAME_LIMIT && Before(AnchorName(s, t), AnchorName(s', t'))
    ensures s <= s'
  {
    DecimalValue(s);
    DecimalValue(s');
    Pow10Limit();
    DecimalLength(s, NAME_DIGITS);
    DecimalLength(s', NAME_DIGITS);
    PadKeepsValue(Decimal(s), NAME_DIGITS);
    PadKeepsValue(Decimal(s'), NAME_DIGITS);
    OrderedDigits(PadStart(Decimal(s), NAME_DIGITS), [MINUS] + Decimal(t) + Ascii(".json"),
                  PadStart(Decimal(s'), NAME_DIGITS), [MINUS] + Decimal(t') + Ascii(".json"));
  }

  lemma PadLength(seqNo: nat)
    requires seqNo < NAME_LIMIT
    ensures |PadStart(Decimal(seqNo), NAME_DIGITS)| == NAME_DIGITS
  {
    DecimalValue(seqNo);
    Pow10Limit();
    DecimalLength(seqNo, NAME_DIGITS);
    PadKeepsValue(Decimal(seqNo), NAME_DIGITS);
  }

  /** Behind the position a name is a dash, the time in decimal, and `.json`. */
  lemma NameGivesTime(seqNo: nat, timestamp: nat)
    requires seqNo < NAME_LIMIT
    ensures var name := AnchorName(seqNo, timestamp);
            && |name| > 18 && name[12] == '-' as int && name[|name| - 5..] == Ascii(".json")
            && Digits(name[13..|name| - 5]) && ValueOf(name[13..|name| - 5]) == timestamp
  {
    PadLength(seqNo);
    DecimalValue(timestamp);
    var p, d, x := PadStart(Decimal(seqNo), NAME_DIGITS), Decimal(timestamp), Ascii(".json");
    var name := AnchorName(seqNo, timestamp);
    assert name == p + ([MINUS] + d + x);
    assert name[13..|name| - 5] == d;
  }
}
