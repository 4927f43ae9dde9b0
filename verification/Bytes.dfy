/** Bytes, and unsigned integers stored in them in either byte order. */
module Bytes {
  type byte = b: int | 0 <= b < 256

  function Power(n: nat): (r: nat)
    ensures r > 0
  {
    if n == 0 then 1 else 256 * Power(n - 1)
  }

  /** The unsigned integer stored in a sequence of bytes. */
  function Value(s: seq<byte>, little: bool): nat
    decreases |s|
  {
    if s == [] then 0
    else if little then s[0] as int + 256 * Value(s[1..], little)
    else 256 * Value(s[..|s| - 1], little) + s[|s| - 1] as int
  }

  /** The last n digits of v to the base 256, stored in n bytes. */
  function Digits(v: nat, n: nat, little: bool): (r: seq<byte>)
    ensures |r| == n
    decreases n
  {
    if n == 0 then []
    else if little then [v % 256] + Digits(v / 256, n - 1, little)
    else Digits(v / 256, n - 1, little) + [v % 256]
  }

  lemma {:induction false} ValueBound(s: seq<byte>, little: bool)
    ensures Value(s, little) < Power(|s|)
    decreases |s|
  {
    if s != [] {
      ValueBound(if little then s[1..] else s[..|s| - 1], little);
    }
  }

  /** Reading what was written gives the number back, if it fits. */
  lemma {:induction false} ValueOfDigits(v: nat, n: nat, little: bool)
    requires v < Power(n)
    ensures Value(Digits(v, n, little), little) == v
    decreases n
  {
    if n > 0 {
      ValueOfDigits(v / 256, n - 1, little);
      var d := Digits(v, n, little);
      if little {
        assert d[1..] == Digits(v / 256, n - 1, little);
      } else {
        assert d[..n - 1] == Digits(v / 256, n - 1, little);
      }
    }
  }

  lemma {:induction false} LastDigit(d: nat, v: nat)
    requires d < 256
    ensures (d + 256 * v) % 256 == d && (d + 256 * v) / 256 == v
  {
  }

  /** Writing what was read gives the bytes back. */
  lemma {:induction false} DigitsOfValue(s: seq<byte>, little: bool)
    ensures Digits(Value(s, little), |s|, little) == s
    decreases |s|
  {
    if s != [] {
      var n := |s| - 1;
      var (d, rest) := if little then (s[0], s[1..]) else (s[n], s[..n]);
      DigitsOfValue(rest, little);
      LastDigit(d, Value(rest, little));
      assert s == if little then [d] + rest else rest + [d];
    }
  }

  lemma {:induction false} Scale(n: nat, x: int)
    ensures 256 * (Power(n) * x) == Power(n + 1) * x
  {
    assert Power(n + 1) == 256 * Power(n);
  }

  /** In a little-endian integer the last byte counts most. */
  lemma {:induction false} LastCountsMost(s: seq<byte>, x: byte, all: seq<byte>)
    requires all == s + [x]
    ensures Value(all, true) == Value(s, true) + Power(|s|) * x
    decreases |s|
  {
    if s == [] {
      AloneIsValue(x, all, true);
    } else {
      var rest := s[1..];
      LastCountsMost(rest, x, rest + [x]);
      assert all[1..] == rest + [x] && all[0] == s[0];
      Scale(|rest|, x);
    }
  }

  /** In a big-endian integer the first byte counts most. */
  lemma {:induction false} FirstCountsMost(s: seq<byte>, x: byte, all: seq<byte>)
    requires all == [x] + s
    ensures Value(all, false) == Power(|s|) * x + Value(s, false)
    decreases |s|
  {
    if s == [] {
      AloneIsValue(x, all, false);
    } else {
      var n := |s| - 1;
      var rest := s[..n];
      FirstCountsMost(rest, x, [x] + rest);
      assert all[..|s|] == [x] + rest && all[|s|] == s[n];
      Scale(n, x);
    }
  }

  lemma {:induction false} AloneIsValue(x: byte, s: seq<byte>, little: bool)
    requires s == [x]
    ensures Value(s, little) == x as int
  {
    assert s[1..] == [] && s[..0] == [];
  }

  lemma {:induction false} Powers()
    ensures Power(2) == 0x1_0000
    ensures Power(4) == 0x1_0000_0000
    ensures Power(8) == 0x1_0000_0000_0000_0000
  {
    assert Power(1) == 256 && Power(3) == 0x100_0000;
    assert Power(5) == 0x100_0000_0000 && Power(6) == 0x1_0000_0000_0000 && Power(7) == 0x100_0000_0000_0000;
  }
}
