/** JavaScript values, the text `JSON.stringify` writes for them, and the parser that reads it back. */
module Json {
  import opened Common
  import opened Unicode

  type Safe = n: int | -MAX_SAFE <= n <= MAX_SAFE

  /** An object keeps its own keys in the order they enumerate.
      `OtherNum` is any number that is not a safe integer, with its text; `Foreign` is a value
      that is not JSON data: a function, a big integer, an instance of a class. */
  datatype Js =
    | Undefined
    | Null
    | Bool(b: bool)
    | Num(n: Safe)
    | OtherNum(text: Str)
    | Text(s: Str)
    | Arr(items: seq<Js>)
    | Obj(members: seq<Member<Js>>)
    | Foreign

  /** A name with what it names: an object's member, or a file in a directory. */
  datatype Member<+T> = Member(key: Str, value: T)

  predicate DistinctKeys<T>(ms: seq<Member<T>>) {
    forall i, j :: 0 <= i < j < |ms| ==> ms[i].key != ms[j].key
  }

  /** JSON data: what a parse can produce, with safe integers only. */
  predicate Data(v: Js) {
    match v
    case Null => true
    case Bool(_) => true
    case Num(_) => true
    case Text(_) => true
    case Arr(items) => forall x | x in items :: Data(x)
    case Obj(members) => DistinctKeys(members) && forall m | m in members :: Data(m.value)
    case _ => false
  }

  // ---- printing ----

  const LBRACE: Unit := 123
  const RBRACE: Unit := 125
  const LBRACKET: Unit := 91
  const RBRACKET: Unit := 93
  const COMMA: Unit := 44
  const COLON: Unit := 58
  const QUOTE: Unit := 34
  const BACKSLASH: Unit := 92
  const MINUS: Unit := 45

  const NULL_TEXT: Str := [110, 117, 108, 108]
  const TRUE_TEXT: Str := [116, 114, 117, 101]
  const FALSE_TEXT: Str := [102, 97, 108, 115, 101]

  function Decimal(n: nat): (r: Str)
    ensures r != []
    ensures forall u :: u in r ==> Digit(u)
  {
    if n < 10 then [48 + n] else Decimal(n / 10) + [48 + n % 10]
  }

  predicate Digit(u: Unit) { 48 <= u <= 57 }

  function NumText(n: int): (r: Str)
    ensures r != []
    ensures forall u :: u in r ==> Digit(u) || u == MINUS
  {
    if n < 0 then [MINUS] + Decimal(-n) else Decimal(n)
  }

  function Hex(d: int): Unit
    requires 0 <= d < 16
  {
    if d < 10 then 48 + d else 87 + d
  }

  function Escape4(u: Unit): Str {
    [BACKSLASH, 117, Hex(u / 0x1000), Hex(u / 0x100 % 16), Hex(u / 16 % 16), Hex(u % 16)]
  }

  function EscapeUnit(u: Unit): Str {
    if u == QUOTE || u == BACKSLASH then [BACKSLASH, u]
    else if u == 8 then [BACKSLASH, 98]
    else if u == 9 then [BACKSLASH, 116]
    else if u == 10 then [BACKSLASH, 110]
    else if u == 12 then [BACKSLASH, 102]
    else if u == 13 then [BACKSLASH, 114]
    else if u < 0x20 then Escape4(u)
    else [u]
  }

  /** The inside of a JSON string: a lone surrogate is written as an escape. */
  function Chars(s: Str): Str {
    if s == [] then []
    else if Pair(s) then s[..2] + Chars(s[2..])
    else (if Lone(s) then Escape4(s[0]) else EscapeUnit(s[0])) + Chars(s[1..])
  }

  function Quoted(s: Str): Str {
    [QUOTE] + Chars(s) + [QUOTE]
  }

  /** `JSON.stringify` of JSON data. */
  function Print(v: Js): Str
    requires Data(v)
  {
    match v
    case Null => NULL_TEXT
    case Bool(b) => if b then TRUE_TEXT else FALSE_TEXT
    case Num(n) => NumText(n)
    case Text(s) => Quoted(s)
    case Arr(items) => [LBRACKET] + PrintItems(items) + [RBRACKET]
    case Obj(members) => [LBRACE] + PrintMembers(members) + [RBRACE]
  }

  function PrintItems(items: seq<Js>): Str
    requires forall x | x in items :: Data(x)
  {
    if items == [] then []
    else if |items| == 1 then Print(items[0])
    else Print(items[0]) + [COMMA] + PrintItems(items[1..])
  }

  function PrintMembers(ms: seq<Member<Js>>): Str
    requires forall m | m in ms :: Data(m.value)
  {
    if ms == [] then []
    else
      var first := Quoted(ms[0].key) + [COLON] + Print(ms[0].value);
      if |ms| == 1 then first else first + [COMMA] + PrintMembers(ms[1..])
  }

  // ---- parsing ----

  function DigitSpan(t: Str): (k: nat)
    ensures k <= |t|
    ensures forall i :: 0 <= i < k ==> Digit(t[i])
  {
    if t != [] && Digit(t[0]) then 1 + DigitSpan(t[1..]) else 0
  }

  function ValueOf(ds: Str): nat
    requires forall u :: u in ds ==> Digit(u)
  {
    if ds == [] then 0
    else
      var last: int := ds[|ds| - 1];
      assert Digit(last);
      10 * ValueOf(ds[..|ds| - 1]) + (last - 48)
  }

  function ParseNumber(t: Str): (r: Option<(Safe, Str)>)
    ensures r.Some? ==> |r.value.1| < |t|
  {
    if t != [] && t[0] == MINUS then
      match ParseDigits(t[1..])
      case None => None
      case Some((n, rest)) => Some((-n, rest))
    else ParseDigits(t)
  }

  /** Decimal digits with no leading zero, up to the largest safe integer. */
  function ParseDigits(t: Str): (r: Option<(Safe, Str)>)
    ensures r.Some? ==> |r.value.1| < |t|
  {
    var k := DigitSpan(t);
    if k == 0 || (k > 1 && t[0] == 48) then None
    else
      var n := ValueOf(t[..k]);
      if n > MAX_SAFE then None else Some((n, t[k..]))
  }

  function Unhex(u: Unit): Option<int> {
    if Digit(u) then Some(u - 48)
    else if 97 <= u <= 102 then Some(u - 87)
    else if 65 <= u <= 70 then Some(u - 55)
    else None
  }

  function Unhex4(t: Str): (r: Option<Unit>)
    requires |t| == 4
  {
    match (Unhex(t[0]), Unhex(t[1]), Unhex(t[2]), Unhex(t[3]))
    case (Some(a), Some(b), Some(c), Some(d)) =>
      var n := ((a * 16 + b) * 16 + c) * 16 + d;
      if 0 <= n < 0x1_0000 then Some(n) else None
    case _ => None
  }

  function Unescape(u: Unit): Option<Unit> {
    if u == QUOTE || u == BACKSLASH || u == 47 then Some(u)
    else if u == 98 then Some(8)
    else if u == 116 then Some(9)
    else if u == 110 then Some(10)
    else if u == 102 then Some(12)
    else if u == 114 then Some(13)
    else None
  }

  /** Reads up to the closing quote; the result is the string and the text after the quote. */
  function ParseChars(t: Str): (r: Option<(Str, Str)>)
    ensures r.Some? ==> |r.value.1| < |t|
  {
    if t == [] || t[0] < 0x20 then None
    else if t[0] == QUOTE then Some(([], t[1..]))
    else if t[0] != BACKSLASH then Prepend(t[0], ParseChars(t[1..]))
    else if |t| >= 6 && t[1] == 117 then
      match Unhex4(t[2..6])
      case None => None
      case Some(u) => Prepend(u, ParseChars(t[6..]))
    else if |t| >= 2 then
      match Unescape(t[1])
      case None => None
      case Some(u) => Prepend(u, ParseChars(t[2..]))
    else None
  }

  function Prepend(u: Unit, r: Option<(Str, Str)>): Option<(Str, Str)> {
    match r
    case None => None
    case Some((s, rest)) => Some(([u] + s, rest))
  }

  function ParseValue(t: Str): (r: Option<(Js, Str)>)
    ensures r.Some? ==> |r.value.1| < |t|
    decreases |t|, 0
  {
    if t == [] then None
    else if t[0] == NULL_TEXT[0] then if NULL_TEXT <= t then Some((Null, t[4..])) else None
    else if t[0] == TRUE_TEXT[0] then if TRUE_TEXT <= t then Some((Bool(true), t[4..])) else None
    else if t[0] == FALSE_TEXT[0] then if FALSE_TEXT <= t then Some((Bool(false), t[5..])) else None
    else if t[0] == QUOTE then
      match ParseChars(t[1..])
      case None => None
      case Some((s, rest)) => Some((Text(s), rest))
    else if t[0] == LBRACKET then
      if |t| >= 2 && t[1] == RBRACKET then Some((Arr([]), t[2..]))
      else match ParseItems(t[1..])
           case None => None
           case Some((items, rest)) => Some((Arr(items), rest))
    else if t[0] == LBRACE then
      if |t| >= 2 && t[1] == RBRACE then Some((Obj([]), t[2..]))
      else match ParseMembers(t[1..])
           case None => None
           case Some((members, rest)) => Some((Obj(members), rest))
    else match ParseNumber(t)
         case None => None
         case Some((n, rest)) => Some((Num(n), rest))
  }

  function ParseItems(t: Str): (r: Option<(seq<Js>, Str)>)
    ensures r.Some? ==> |r.value.1| < |t|
    decreases |t|, 1
  {
    match ParseValue(t)
    case None => None
    case Some((v, rest)) =>
      if rest != [] && rest[0] == RBRACKET then Some(([v], rest[1..]))
      else if rest != [] && rest[0] == COMMA then
        match ParseItems(rest[1..])
        case None => None
        case Some((vs, end)) => Some(([v] + vs, end))
      else None
  }

  /** A quoted key and its colon. */
  function ParseKey(t: Str): (r: Option<(Str, Str)>)
    ensures r.Some? ==> |r.value.1| < |t|
  {
    if t == [] || t[0] != QUOTE then None
    else match ParseChars(t[1..])
         case None => None
         case Some((key, rest)) => if rest != [] && rest[0] == COLON then Some((key, rest[1..])) else None
  }

  /** A member whose key appears again later is refused; JavaScript would keep the later value. */
  function ParseMembers(t: Str): (r: Option<(seq<Member<Js>>, Str)>)
    ensures r.Some? ==> |r.value.1| < |t|
    decreases |t|, 1
  {
    match ParseKey(t)
    case None => None
    case Some((key, afterKey)) =>
      match ParseValue(afterKey)
      case None => None
      case Some((v, rest)) =>
        if rest != [] && rest[0] == RBRACE then Some(([Member(key, v)], rest[1..]))
        else if rest != [] && rest[0] == COMMA then
          match ParseMembers(rest[1..])
          case None => None
          case Some((ms, end)) =>
            if exists m :: m in ms && m.key == key then None else Some(([Member(key, v)] + ms, end))
        else None
  }

  /** The whole text must be one value. */
  function Parse(t: Str): Option<Js> {
    match ParseValue(t)
    case Some((v, rest)) => if rest == [] then Some(v) else None
    case None => None
  }

  // ---- the parser inverts the printer ----

  lemma {:induction false} DecimalValue(n: nat)
    ensures ValueOf(Decimal(n)) == n
    ensures |Decimal(n)| > 1 ==> Decimal(n)[0] != 48
    ensures n > 0 ==> Decimal(n)[0] != 48
  {
    if n >= 10 {
      DecimalValue(n / 10);
      var ds := Decimal(n);
      assert ds[..|ds| - 1] == Decimal(n / 10);
    } else {
      assert Decimal(n)[..0] == [];
    }
  }

  /** A number ends where its digits end. */
  predicate Stops(rest: Str) { rest == [] || !Digit(rest[0]) }

  lemma {:induction false} SpanOf(ds: Str, rest: Str)
    requires forall u :: u in ds ==> Digit(u)
    requires Stops(rest)
    ensures DigitSpan(ds + rest) == |ds|
  {
    if ds == [] {
      assert ds + rest == rest;
    } else {
      assert (ds + rest)[1..] == ds[1..] + rest;
      SpanOf(ds[1..], rest);
    }
  }

  lemma ParsesNumber(n: Safe, rest: Str)
    requires Stops(rest)
    ensures ParseNumber(NumText(n) + rest) == Some((n, rest))
  {
    if n < 0 {
      ParsesDigits(-n, rest);
      ReadsNegative(Decimal(-n), -n, rest);
    } else {
      ParsesDigits(n, rest);
      ReadsPositive(Decimal(n), n, rest);
    }
  }

  lemma ReadsNegative(ds: Str, a: Safe, rest: Str)
    requires 0 < a && ParseDigits(ds + rest) == Some((a, rest))
    ensures ParseNumber([MINUS] + ds + rest) == Some((-a, rest))
  {
    assert ([MINUS] + ds + rest)[1..] == ds + rest;
  }

  lemma ReadsPositive(ds: Str, a: Safe, rest: Str)
    requires ds != [] && (forall u :: u in ds ==> Digit(u)) && ParseDigits(ds + rest) == Some((a, rest))
    ensures ParseNumber(ds + rest) == Some((a, rest))
  {
    assert (ds + rest)[0] == ds[0] && ds[0] in ds;
  }

  lemma ParsesDigits(a: nat, rest: Str)
    requires a <= MAX_SAFE && Stops(rest)
    ensures ParseDigits(Decimal(a) + rest) == Some((a, rest))
  {
    var ds := Decimal(a);
    DecimalValue(a);
    SpanOf(ds, rest);
    var u := ds + rest;
    assert u[..|ds|] == ds && u[|ds|..] == rest;
  }

  lemma Unescapes(u: Unit, rest: Str)
    ensures ParseChars(EscapeUnit(u) + rest) == Prepend(u, ParseChars(rest))
  {
    var t := EscapeUnit(u) + rest;
    assert t[|EscapeUnit(u)|..] == rest;
    if !(u == 8 || u == 9 || u == 10 || u == 12 || u == 13) && u < 0x20 {
      Unescapes4(u, rest);
    }
  }

  lemma Unescapes4(u: Unit, rest: Str)
    ensures ParseChars(Escape4(u) + rest) == Prepend(u, ParseChars(rest))
  {
    var t := Escape4(u) + rest;
    assert t[6..] == rest;
    var a, b, c, d := u / 0x1000, u / 0x100 % 16, u / 16 % 16, u % 16;
    assert t[2..6] == [Hex(a), Hex(b), Hex(c), Hex(d)];
    assert u / 0x100 == u / 16 / 16 && u / 0x1000 == u / 0x100 / 16;
  }

  lemma ReadsChar(u: Unit, t: Str)
    requires 0x20 <= u && u != QUOTE && u != BACKSLASH
    ensures ParseChars([u] + t) == Prepend(u, ParseChars(t))
  {
    assert ([u] + t)[1..] == t;
  }

  lemma {:induction false} ParsesChars(s: Str, rest: Str)
    ensures ParseChars(Chars(s) + [QUOTE] + rest) == Some((s, rest))
  {
    var t := Chars(s) + [QUOTE] + rest;
    if s == [] {
      assert t == [QUOTE] + rest;
      assert t[1..] == rest;
    } else {
      var w := Width(s);
      ParsesChars(s[w..], rest);
      var u := Chars(s[w..]) + [QUOTE] + rest;
      var head := Chars(s)[..|Chars(s)| - |Chars(s[w..])|];
      if Pair(s) {
        ReadsChar(s[1], u);
        ReadsChar(s[0], [s[1]] + u);
        assert head == s[..2] == [s[0]] + [s[1]];
        Regroup3([s[0]], [s[1]], u);
        assert s == [s[0]] + ([s[1]] + s[2..]);
      } else {
        if Lone(s) { Unescapes4(s[0], u); } else { Unescapes(s[0], u); }
        assert s == [s[0]] + s[1..];
      }
      Regroup(head, Chars(s[w..]), [QUOTE], rest);
      Regroup3(Chars(s[w..]), [QUOTE], rest);
    }
  }

  /** What a printed value starts with tells the parser which case it is in. */
  lemma FirstUnit(v: Js)
    requires Data(v)
    ensures Print(v) != []
    ensures Print(v)[0] != RBRACKET && Print(v)[0] != RBRACE
  {
    if v.Num? { assert NumText(v.n)[0] in NumText(v.n); }
  }

  lemma ReadsString(s: Str, rest: Str)
    ensures ParseValue(Quoted(s) + rest) == Some((Text(s), rest))
  {
    ParsesChars(s, rest);
    assert (Quoted(s) + rest)[1..] == Chars(s) + [QUOTE] + rest;
  }

  lemma ReadsNumber(n: Safe, rest: Str)
    requires Stops(rest)
    ensures ParseValue(NumText(n) + rest) == Some((Num(n), rest))
  {
    ParsesNumber(n, rest);
    assert NumText(n)[0] in NumText(n);
    ReadsDigit(NumText(n) + rest, n, rest);
  }

  lemma ReadsDigit(t: Str, n: Safe, rest: Str)
    requires t != [] && (Digit(t[0]) || t[0] == MINUS) && ParseNumber(t) == Some((n, rest))
    ensures ParseValue(t) == Some((Num(n), rest))
  {
  }

  lemma ReadsWord(v: Js, rest: Str)
    requires v.Null? || v.Bool?
    ensures ParseValue(Print(v) + rest) == Some((v, rest))
  {
    var t := Print(v) + rest;
    assert t[|Print(v)|..] == rest && Print(v) <= t;
  }

  lemma ReadsArray(inner: Str, items: seq<Js>, rest: Str)
    requires inner != [] && inner[0] != RBRACKET
    requires ParseItems(inner + ([RBRACKET] + rest)) == Some((items, rest))
    ensures ParseValue([LBRACKET] + inner + [RBRACKET] + rest) == Some((Arr(items), rest))
  {
    Regroup([LBRACKET], inner, [RBRACKET], rest);
    var u := inner + ([RBRACKET] + rest);
    assert ([LBRACKET] + u)[1..] == u;
  }

  lemma ReadsObject(inner: Str, members: seq<Member<Js>>, rest: Str)
    requires inner != [] && inner[0] != RBRACE
    requires ParseMembers(inner + ([RBRACE] + rest)) == Some((members, rest))
    ensures ParseValue([LBRACE] + inner + [RBRACE] + rest) == Some((Obj(members), rest))
  {
    Regroup([LBRACE], inner, [RBRACE], rest);
    var u := inner + ([RBRACE] + rest);
    assert ([LBRACE] + u)[1..] == u;
  }

  lemma ReadsItem(p: Str, v: Js, u: Str, vs: seq<Js>, rest: Str)
    requires ParseValue(p + ([COMMA] + u)) == Some((v, [COMMA] + u))
    requires ParseItems(u) == Some((vs, rest))
    ensures ParseItems(p + ([COMMA] + u)) == Some(([v] + vs, rest))
  {
    assert ([COMMA] + u)[1..] == u;
  }

  lemma ReadsLastItem(p: Str, v: Js, rest: Str)
    requires ParseValue(p + ([RBRACKET] + rest)) == Some((v, [RBRACKET] + rest))
    ensures ParseItems(p + ([RBRACKET] + rest)) == Some(([v], rest))
  {
    assert ([RBRACKET] + rest)[1..] == rest;
  }

  lemma ReadsKey(key: Str, rest: Str)
    ensures ParseKey(Quoted(key) + [COLON] + rest) == Some((key, rest))
  {
    var t := Quoted(key) + [COLON] + rest;
    ParsesChars(key, [COLON] + rest);
    assert t[1..] == Chars(key) + [QUOTE] + ([COLON] + rest);
    assert ([COLON] + rest)[1..] == rest;
  }

  lemma ReadsMember(t: Str, key: Str, p: Str, v: Js, u: Str, ms: seq<Member<Js>>, rest: Str)
    requires ParseKey(t) == Some((key, p + ([COMMA] + u)))
    requires ParseValue(p + ([COMMA] + u)) == Some((v, [COMMA] + u))
    requires ParseMembers(u) == Some((ms, rest))
    requires forall m | m in ms :: m.key != key
    ensures ParseMembers(t) == Some(([Member(key, v)] + ms, rest))
  {
    assert ([COMMA] + u)[1..] == u;
  }

  lemma ReadsLastMember(t: Str, key: Str, p: Str, v: Js, rest: Str)
    requires ParseKey(t) == Some((key, p + ([RBRACE] + rest)))
    requires ParseValue(p + ([RBRACE] + rest)) == Some((v, [RBRACE] + rest))
    ensures ParseMembers(t) == Some(([Member(key, v)], rest))
  {
    assert ([RBRACE] + rest)[1..] == rest;
  }

  lemma PrintedItems(items: seq<Js>, rest: Str)
    requires |items| > 1 && forall x | x in items :: Data(x)
    ensures PrintItems(items) + rest == Print(items[0]) + ([COMMA] + (PrintItems(items[1..]) + rest))
  {
    CommaBetween(PrintItems(items), Print(items[0]), PrintItems(items[1..]), rest);
  }

  lemma CommaBetween(t: Str, p: Str, q: Str, rest: Str)
    requires t == p + [COMMA] + q
    ensures t + rest == p + ([COMMA] + (q + rest))
  {
    Regroup(p, [COMMA], q, rest);
  }

  lemma PrintedMembers(ms: seq<Member<Js>>, rest: Str)
    requires |ms| > 1 && forall m | m in ms :: Data(m.value)
    ensures ms[0] in ms
    ensures PrintMembers(ms) + rest
         == Quoted(ms[0].key) + [COLON] + (Print(ms[0].value) + ([COMMA] + (PrintMembers(ms[1..]) + rest)))
  {
    var k, p, q := Quoted(ms[0].key) + [COLON], Print(ms[0].value), PrintMembers(ms[1..]);
    Regroup(k + p, [COMMA], q, rest);
    Regroup3(k, p, [COMMA] + (q + rest));
  }

  lemma {:induction false} ParsesPrinted(v: Js, rest: Str)
    requires Data(v) && Stops(rest)
    ensures ParseValue(Print(v) + rest) == Some((v, rest))
    decreases v, 0
  {
    match v {
      case Null => ReadsWord(v, rest);
      case Bool(b) => ReadsWord(v, rest);
      case Num(n) => ReadsNumber(n, rest);
      case Text(s) => ReadsString(s, rest);
      case Arr(items) =>
        if items == [] {
          assert (Print(v) + rest)[2..] == rest;
        } else {
          ParsesItems(items, rest);
          FirstUnit(items[0]);
          ReadsArray(PrintItems(items), items, rest);
        }
      case Obj(members) =>
        if members == [] {
          assert (Print(v) + rest)[2..] == rest;
        } else {
          ParsesMembers(members, rest);
          ReadsObject(PrintMembers(members), members, rest);
        }
    }
  }

  lemma {:induction false} ParsesItems(items: seq<Js>, rest: Str)
    requires items != [] && forall x | x in items :: Data(x)
    ensures ParseItems(PrintItems(items) + ([RBRACKET] + rest)) == Some((items, rest))
    decreases items, 1
  {
    var end := [RBRACKET] + rest;
    if |items| == 1 {
      ParsesPrinted(items[0], end);
      ReadsLastItem(Print(items[0]), items[0], rest);
      assert items == [items[0]];
    } else {
      var tail := items[1..];
      assert forall x | x in tail :: x in items;
      ParsesPrinted(items[0], [COMMA] + (PrintItems(tail) + end));
      ParsesItems(tail, rest);
      ReadsMore(items, rest);
    }
  }

  lemma ReadsMore(items: seq<Js>, rest: Str)
    requires |items| > 1 && forall x | x in items :: Data(x)
    requires var tail, end := items[1..], [RBRACKET] + rest;
             var u := PrintItems(tail) + end;
             && ParseValue(Print(items[0]) + ([COMMA] + u)) == Some((items[0], [COMMA] + u))
             && ParseItems(u) == Some((tail, rest))
    ensures ParseItems(PrintItems(items) + ([RBRACKET] + rest)) == Some((items, rest))
  {
    var tail, end := items[1..], [RBRACKET] + rest;
    ReadsItem(Print(items[0]), items[0], PrintItems(tail) + end, tail, rest);
    assert items == [items[0]] + tail;
    MoreItems(items, end, Some((items, rest)));
  }

  lemma MoreItems(items: seq<Js>, end: Str, r: Option<(seq<Js>, Str)>)
    requires |items| > 1 && forall x | x in items :: Data(x)
    requires ParseItems(Print(items[0]) + ([COMMA] + (PrintItems(items[1..]) + end))) == r
    ensures ParseItems(PrintItems(items) + end) == r
  {
    PrintedItems(items, end);
  }

  lemma {:induction false} ParsesMembers(ms: seq<Member<Js>>, rest: Str)
    requires ms != [] && DistinctKeys(ms) && forall m | m in ms :: Data(m.value)
    ensures ParseMembers(PrintMembers(ms) + ([RBRACE] + rest)) == Some((ms, rest))
    decreases ms, 1
  {
    var key, v, end := ms[0].key, ms[0].value, [RBRACE] + rest;
    assert ms[0] in ms && ms[0] == Member(key, v);
    var p := Print(v);
    var t := PrintMembers(ms) + end;
    if |ms| == 1 {
      ReadsKey(key, p + end);
      Regroup3(Quoted(key) + [COLON], p, end);
      ParsesPrinted(v, end);
      ReadsLastMember(t, key, p, v, rest);
      assert ms == [Member(key, v)];
    } else {
      var tail := ms[1..];
      var u := PrintMembers(tail) + end;
      ReadsKey(key, p + ([COMMA] + u));
      PrintedMembers(ms, end);
      ParsesPrinted(v, [COMMA] + u);
      ParsesMembers(tail, rest);
      forall m | m in tail ensures m.key != key {
        var i :| 0 <= i < |tail| && tail[i] == m;
        assert ms[1 + i] == m;
      }
      ReadsMember(t, key, p, v, u, tail, rest);
      assert ms == [Member(key, v)] + tail;
    }
  }

  /** Reading back what was printed gives the same value, at any depth. */
  lemma ParseInvertsPrint(v: Js)
    requires Data(v)
    ensures Parse(Print(v)) == Some(v)
  {
    ParsesPrinted(v, []);
    assert Print(v) + [] == Print(v);
  }

  // ---- what printed text looks like ----

  /** Well-formed, and without control characters: in particular on one line. */
  predicate Clean(t: Str) {
    WellFormed(t) && forall u :: u in t ==> u >= 0x20
  }

  lemma CleanConcat(a: Str, b: Str)
    requires Clean(a) && Clean(b)
    ensures Clean(a + b)
  {
    WellFormedConcat(a, b);
  }

  lemma DigitsPlain(t: Str)
    requires forall u :: u in t ==> Digit(u) || u == MINUS
    ensures Clean(t)
  {
    PlainUnits(t);
  }

  lemma {:induction false} CharsClean(s: Str)
    ensures Clean(Chars(s))
  {
    if s != [] {
      CharsClean(s[Width(s)..]);
      if Pair(s) {
        assert Clean(s[..2]);
        CleanConcat(s[..2], Chars(s[2..]));
      } else {
        var e := if Lone(s) then Escape4(s[0]) else EscapeUnit(s[0]);
        assert forall u :: u in e ==> !High(u) && !Low(u);
        CleanConcat(e, Chars(s[1..]));
      }
    }
  }

  lemma QuotedClean(s: Str)
    ensures Clean(Quoted(s))
  {
    CharsClean(s);
    CleanConcat([QUOTE], Chars(s));
    CleanConcat([QUOTE] + Chars(s), [QUOTE]);
  }

  lemma BracketsClean(open: Unit, inner: Str, close: Unit)
    requires Clean(inner) && 0x20 <= open < 0x80 && 0x20 <= close < 0x80
    ensures Clean([open] + inner + [close])
  {
    CleanConcat([open], inner);
    CleanConcat([open] + inner, [close]);
  }

  /** Whatever strings a value holds, its printed text is well-formed and fits one line. */
  lemma {:induction false} PrintClean(v: Js)
    requires Data(v)
    ensures Clean(Print(v))
    decreases v, 0
  {
    match v {
      case Text(s) => QuotedClean(s);
      case Arr(items) =>
        ItemsClean(items);
        BracketsClean(LBRACKET, PrintItems(items), RBRACKET);
      case Obj(members) =>
        MembersClean(members);
        BracketsClean(LBRACE, PrintMembers(members), RBRACE);
      case Num(n) => DigitsPlain(NumText(n));
      case Null => PlainUnits(NULL_TEXT);
      case Bool(b) => PlainUnits(if b then TRUE_TEXT else FALSE_TEXT);
      case _ =>
    }
  }

  lemma {:induction false} ItemsClean(items: seq<Js>)
    requires forall x | x in items :: Data(x)
    ensures Clean(PrintItems(items))
    decreases items, 1
  {
    if items != [] {
      PrintClean(items[0]);
      if |items| > 1 {
        ItemsClean(items[1..]);
        CleanConcat(Print(items[0]), [COMMA]);
        CleanConcat(Print(items[0]) + [COMMA], PrintItems(items[1..]));
      }
    }
  }

  lemma {:induction false} MembersClean(ms: seq<Member<Js>>)
    requires forall m | m in ms :: Data(m.value)
    ensures Clean(PrintMembers(ms))
    decreases ms, 1
  {
    if ms != [] {
      assert ms[0] in ms;
      var k, p := Quoted(ms[0].key), Print(ms[0].value);
      QuotedClean(ms[0].key);
      PrintClean(ms[0].value);
      CleanConcat(k, [COLON]);
      CleanConcat(k + [COLON], p);
      if |ms| > 1 {
        MembersClean(ms[1..]);
        CleanConcat(k + [COLON] + p, [COMMA]);
        CleanConcat(k + [COLON] + p + [COMMA], PrintMembers(ms[1..]));
      }
    }
  }

  // ---- no shorter text ----

  /** How many units a string's unit takes at the least. */
  function UnitCost(u: Unit): nat {
    if u == QUOTE || u == BACKSLASH || u == 8 || u == 9 || u == 10 || u == 12 || u == 13 then 2
    else if u < 0x20 then 6 else 1
  }

  function Cost(s: Str): nat { if s == [] then 0 else UnitCost(s[0]) + Cost(s[1..]) }

  lemma {:induction false} ReadCosts(t: Str)
    requires ParseChars(t).Some?
    ensures Cost(ParseChars(t).value.0) + 1 + |ParseChars(t).value.1| <= |t|
    decreases |t|
  {
    if t[0] == QUOTE {
    } else if t[0] != BACKSLASH {
      ReadCosts(t[1..]);
    } else if |t| >= 6 && t[1] == 117 {
      ReadCosts(t[6..]);
    } else {
      ReadCosts(t[2..]);
    }
  }

  lemma {:induction false} PrintCosts(s: Str)
    requires WellFormed(s)
    ensures |Chars(s)| == Cost(s)
  {
    if s != [] {
      var w := if Pair(s) then 2 else 1;
      TailWellFormed(s, w);
      PrintCosts(s[w..]);
      if w == 2 { assert s[1..][1..] == s[2..]; }
    }
  }

  lemma TailWellFormed(s: Str, w: nat)
    requires WellFormed(s) && s != [] && w == (if Pair(s) then 2 else 1)
    ensures WellFormed(s[w..]) && !Lone(s)
  {
    assert !LoneAt(s, 0);
    forall i | 0 <= i < |s[w..]| ensures !LoneAt(s[w..], i) { assert !LoneAt(s, w + i); }
  }

  /** No text that reads as a well-formed string is shorter than the one printed for it. */
  lemma PrintedShortest(s: Str, t: Str)
    requires WellFormed(s) && ParseValue(t) == Some((Text(s), []))
    ensures |Quoted(s)| <= |t|
  {
    StringReads(t);
    ReadCosts(t[1..]);
    PrintCosts(s);
  }

  lemma StringReads(t: Str)
    requires ParseValue(t).Some? && ParseValue(t).value.0.Text?
    ensures t != [] && ParseChars(t[1..]) == Some((ParseValue(t).value.0.s, ParseValue(t).value.1))
  {
  }

  /** And the digits of its escapes are lowercase. */
  lemma {:induction false} EscapesLowercase(u: Unit)
    requires u < 0x20
    ensures forall x | x in Chars([u]) :: !(65 <= x <= 90)
  {
    assert [u][1..] == [];
  }
}
