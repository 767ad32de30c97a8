/** Machine integer widths, fixed-size C arrays, decimal formatting and text
    concatenation shared by the rest of the model. */
module Base {

  type u8 = x: int | 0 <= x < 0x100
  type u16 = x: int | 0 <= x < 0x1_0000
  type u32 = x: int | 0 <= x < 0x1_0000_0000
  type u64 = x: int | 0 <= x < 0x1_0000_0000_0000_0000
  type i32 = x: int | -0x8000_0000 <= x < 0x8000_0000

  /** C's conversion of any integer to `int32_t`: reduce modulo 2^32, then
      read the result as two's complement. */
  function ToI32(v: int): (r: i32)
    ensures (r - v) % 0x1_0000_0000 == 0
    ensures -0x8000_0000 <= v < 0x8000_0000 ==> r == v
  {
    var m := v % 0x1_0000_0000;
    if m < 0x8000_0000 then m else m - 0x1_0000_0000
  }

  datatype Option<+T> = None | Some(value: T)

  /** A C array of two elements, such as `bool used_textures[2]`. */
  datatype Pair<T> = Pair(fst: T, snd: T) {
    function At(i: nat): T
      requires i < 2
    {
      if i == 0 then fst else snd
    }
  }

  /** A C array of 2 x 2 elements, such as `bool do_single[2][2]`. */
  datatype Pair2<T> = Pair2(fst: Pair<T>, snd: Pair<T>) {
    function At(i: nat): Pair<T>
      requires i < 2
    {
      if i == 0 then fst else snd
    }
  }

  /** A C array of four elements, such as one row `uint8_t c[..][..][4]`. */
  datatype Quad<T> = Quad(s0: T, s1: T, s2: T, s3: T) {
    function At(i: nat): T
      requires i < 4
    {
      if i == 0 then s0 else if i == 1 then s1 else if i == 2 then s2 else s3
    }
  }

  /** C's conversion of a `bool` used as an array index. */
  function Index(b: bool): (i: nat)
    ensures i < 2
    ensures i == 1 <==> b
  {
    if b then 1 else 0
  }

  function Digit(d: nat): (c: char)
    requires d < 10
    ensures '0' <= c <= '9'
    ensures c as int - '0' as int == d
  {
    "0123456789"[d]
  }

  /** The text `printf("%d", n)` produces for a non-negative `n`. */
  function NatToString(n: nat): (s: string)
    ensures |s| >= 1
    ensures forall k :: 0 <= k < |s| ==> '0' <= s[k] <= '9'
  {
    if n < 10 then [Digit(n)] else NatToString(n / 10) + [Digit(n % 10)]
  }

  /** Reads back a string of decimal digits (the inverse of `NatToString`). */
  function ParseDecimal(s: string): nat
  {
    if |s| == 0 then 0
    else ParseDecimal(s[..|s| - 1]) * 10 + (if '0' <= s[|s| - 1] <= '9' then s[|s| - 1] as int - '0' as int else 0)
  }

  lemma {:induction false} NatToStringRoundTrip(n: nat)
    ensures ParseDecimal(NatToString(n)) == n
    decreases n
  {
    var s := NatToString(n);
    if n >= 10 {
      NatToStringRoundTrip(n / 10);
      assert s[..|s| - 1] == NatToString(n / 10);
    }
  }

  lemma NatToStringInjective(m: nat, n: nat)
    requires NatToString(m) == NatToString(n)
    ensures m == n
  {
    NatToStringRoundTrip(m);
    NatToStringRoundTrip(n);
  }

  /** The text obtained by appending every part in order. */
  function Concat(parts: seq<string>): (s: string)
  {
    if |parts| == 0 then [] else Concat(parts[..|parts| - 1]) + parts[|parts| - 1]
  }

  lemma {:induction false} ConcatAppend(a: seq<string>, b: seq<string>)
    ensures Concat(a + b) == Concat(a) + Concat(b)
    decreases |b|
  {
    if |b| == 0 {
      assert a + b == a;
    } else {
      assert (a + b)[..|a + b| - 1] == a + b[..|b| - 1];
      ConcatAppend(a, b[..|b| - 1]);
    }
  }

  /** Each string followed by a newline, as a run of `append_line` calls writes it. */
  function Lines(ls: seq<string>): (r: seq<string>)
    ensures |r| == |ls|
    ensures forall k :: 0 <= k < |ls| ==> r[k] == ls[k] + "\n"
  {
    seq(|ls|, k requires 0 <= k < |ls| => ls[k] + "\n")
  }

  function SumOf(xs: seq<nat>): nat
  {
    if |xs| == 0 then 0 else SumOf(xs[..|xs| - 1]) + xs[|xs| - 1]
  }

  lemma {:induction false} SumOfAppend(a: seq<nat>, b: seq<nat>)
    ensures SumOf(a + b) == SumOf(a) + SumOf(b)
    decreases |b|
  {
    if |b| == 0 {
      assert a + b == a;
    } else {
      assert (a + b)[..|a + b| - 1] == a + b[..|b| - 1];
      SumOfAppend(a, b[..|b| - 1]);
    }
  }
}
