/** Types shared by every module: bytes, UTF-16 code units, and the usual result types. */
module Common {

  datatype Option<+T> = None | Some(value: T)

  type Byte = n: int | 0 <= n < 0x100
  type Bytes = seq<Byte>

  /** A UTF-16 code unit. A JavaScript string is any sequence of them, lone surrogates included. */
  type Unit = n: int | 0 <= n < 0x1_0000
  type Str = seq<Unit>

  /** A SHA-256 output. The hash itself is a parameter `H: Bytes -> Digest` wherever it is needed. */
  type Digest = d: Bytes | |d| == 32 witness seq(32, _ => 0)

  const NEWLINE: Byte := 0x0a

  /** 2^53 - 1, the largest integer JavaScript calls safe. */
  const MAX_SAFE: int := 0x1F_FFFF_FFFF_FFFF

  /** A literal as code units. */
  function Ascii(s: string): (r: Str)
    ensures |r| == |s|
    ensures forall i :: 0 <= i < |s| && (s[i] as int) < 0x80 ==> r[i] == s[i] as int
  {
    seq(|s|, i requires 0 <= i < |s| => (s[i] as int) % 0x1_0000)
  }

  lemma Regroup<T>(a: seq<T>, b: seq<T>, c: seq<T>, d: seq<T>)
    ensures a + b + c + d == a + (b + (c + d))
  {
  }

  lemma Regroup3<T>(a: seq<T>, b: seq<T>, c: seq<T>)
    ensures a + b + c == a + (b + c)
  {
  }

  function Min(a: int, b: int): int { if a <= b then a else b }
}
