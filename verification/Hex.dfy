// encoding/hex, as far as the endpoint and artifact names need it.
module Hex {
  import opened Io

  const DIGITS := "0123456789abcdef"

  // What hex.DecodeString accepts, in either case.
  predicate IsHex(c: char) {
    '0' <= c <= '9' || 'a' <= c <= 'f' || 'A' <= c <= 'F'
  }

  function Digit(n: nat): (c: char)
    requires n < 16
    ensures IsHex(c)
  {
    DIGITS[n]
  }

  function Encode(data: seq<byte>): (s: string)
    ensures |s| == 2 * |data|
    ensures forall i :: 0 <= i < |s| ==> IsHex(s[i])
  {
    if |data| == 0 then ""
    else [Digit(data[0] as int / 16), Digit(data[0] as int % 16)] + Encode(data[1..])
  }

  lemma DigitsDiffer(i: nat, j: nat)
    requires i < 16 && j < 16 && Digit(i) == Digit(j)
    ensures i == j
  {
  }

  lemma FirstByte(a: seq<byte>, b: seq<byte>)
    requires |a| > 0 && |b| > 0 && Encode(a) == Encode(b)
    ensures a[0] == b[0] && Encode(a[1..]) == Encode(b[1..])
  {
    hide Digit;
    var x, y := a[0] as int, b[0] as int;
    assert Encode(a)[0] == Encode(b)[0] && Encode(a)[1] == Encode(b)[1];
    DigitsDiffer(x / 16, y / 16);
    DigitsDiffer(x % 16, y % 16);
    assert Encode(a)[2..] == Encode(a[1..]) && Encode(b)[2..] == Encode(b[1..]);
  }

  lemma {:induction false} EncodeInjective(a: seq<byte>, b: seq<byte>)
    requires Encode(a) == Encode(b)
    ensures a == b
  {
    assert |Encode(a)| == |Encode(b)|;
    if |a| > 0 {
      FirstByte(a, b);
      hide Encode;
      EncodeInjective(a[1..], b[1..]);
      assert a == [a[0]] + a[1..] && b == [b[0]] + b[1..];
    }
  }
}
