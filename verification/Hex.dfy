/** Lower-case hexadecimal text of a fixed number of digits. */
module Hex {
  import opened Bits
  import opened Text
  import opened Power

  const DIGITS := "0123456789abcdef"

  predicate IsHexChar(c: char) {
    '0' <= c <= '9' || 'a' <= c <= 'f'
  }

  predicate IsHex(h: string) {
    forall i :: 0 <= i < |h| ==> IsHexChar(h[i])
  }

  function Digit(d: nat): char
    requires d < 16
  {
    DIGITS[d]
  }

  function DigitValue(c: char): (d: nat)
    requires IsHexChar(c)
    ensures d < 16 && Digit(d) == c
  {
    if c <= '9' then (c - '0') as nat else (c - 'a') as nat + 10
  }

  lemma DigitOrder(d: nat, e: nat)
    requires d < 16 && e < 16
    ensures Digit(d) < Digit(e) <==> d < e
    ensures Digit(d) == Digit(e) <==> d == e
    ensures IsHexChar(Digit(d)) && DigitValue(Digit(d)) == d
  {}

  /** The last `n` hexadecimal digits of `v`. */
  function Fixed(v: nat, n: nat): (h: string)
    ensures |h| == n
  {
    if n == 0 then "" else Fixed(v / 16, n - 1) + [Digit(v % 16)]
  }

  function HexValue(h: string): nat
    requires IsHex(h)
  {
    if h == "" then 0 else 16 * HexValue(h[..|h| - 1]) + DigitValue(h[|h| - 1])
  }

  lemma {:induction false} FixedIsHex(v: nat, n: nat)
    ensures IsHex(Fixed(v, n))
  {
    if n > 0 {
      FixedIsHex(v / 16, n - 1);
      DigitOrder(v % 16, 0);
    }
  }

  lemma {:induction false} FixedOfValue(h: string)
    requires IsHex(h)
    ensures Fixed(HexValue(h), |h|) == h && HexValue(h) < Pow(16, |h|)
  {
    hide *;
    if h == "" {
      EmptyHex();
    } else {
      var n := |h| - 1;
      ValueLast(h);
      FixedOfValue(h[..n]);
      LastHexDigit(HexValue(h[..n]), h[n], n);
      assert h == h[..n] + [h[n]];
    }
  }

  lemma EmptyHex()
    ensures Fixed(HexValue(""), 0) == "" && HexValue("") < Pow(16, 0)
  {}

  lemma ValueLast(h: string)
    requires IsHex(h) && h != ""
    ensures IsHex(h[..|h| - 1]) && IsHexChar(h[|h| - 1])
    ensures HexValue(h) == 16 * HexValue(h[..|h| - 1]) + DigitValue(h[|h| - 1])
  {
    hide IsHexChar, DigitValue;
  }

  lemma LastHexDigit(v: nat, last: char, n: nat)
    requires IsHexChar(last)
    ensures var w := 16 * v + DigitValue(last);
            && Fixed(w, n + 1) == Fixed(v, n) + [last]
            && (v < Pow(16, n) ==> w < Pow(16, n + 1))
  {
    hide Digit;
    var d := DigitValue(last);
    assert d < 16 && Digit(d) == last;
    hide DigitValue, IsHexChar;
    assert (16 * v + d) / 16 == v && (16 * v + d) % 16 == d;
  }

  lemma {:induction false} ValueOfFixed(v: nat, n: nat)
    requires v < Pow(16, n)
    ensures IsHex(Fixed(v, n)) && HexValue(Fixed(v, n)) == v
  {
    FixedIsHex(v, n);
    if n > 0 {
      ValueOfFixed(v / 16, n - 1);
      DigitOrder(v % 16, 0);
      assert Fixed(v, n)[..n - 1] == Fixed(v / 16, n - 1);
    }
  }

  /** The digit at position `i` counts sixteens to the power of the digits after it. */
  lemma {:induction false} FixedAt(v: nat, n: nat, i: nat)
    requires i < n
    ensures Fixed(v, n)[i] == Digit((v / Pow(16, n - 1 - i)) % 16)
  {
    if i < n - 1 {
      FixedAt(v / 16, n - 1, i);
      DivDiv(v, Pow(16, n - 2 - i));
      assert Fixed(v, n)[i] == Fixed(v / 16, n - 1)[i] && Pow(16, n - 1 - i) == 16 * Pow(16, n - 2 - i);
      hide Fixed, Pow, Digit;
    } else {
      assert Fixed(v, n)[i] == Digit(v % 16) && Pow(16, 0) == 1;
    }
  }

  lemma DivDiv(v: nat, p: nat)
    requires p > 0
    ensures v / (16 * p) == v / 16 / p
  {
    var q := v / 16 / p;
    var r := v / 16 % p;
    assert v / 16 == p * q + r;
    assert v == (16 * p) * q + (16 * r + v % 16);
    ModUnique(v, 16 * p, q, 16 * r + v % 16);
  }

  lemma {:induction false} FixedOrder(v: nat, w: nat, n: nat)
    requires v < Pow(16, n) && w < Pow(16, n)
    ensures Below(Fixed(v, n), Fixed(w, n)) <==> v < w
    ensures Fixed(v, n) == Fixed(w, n) <==> v == w
  {
    if n > 0 {
      FixedOrder(v / 16, w / 16, n - 1);
      BelowConcat(Fixed(v / 16, n - 1), Fixed(w / 16, n - 1), [Digit(v % 16)], [Digit(w % 16)]);
      DigitOrder(v % 16, w % 16);
      assert Fixed(v, n)[..n - 1] == Fixed(v / 16, n - 1) && Fixed(w, n)[..n - 1] == Fixed(w / 16, n - 1);
      assert Fixed(v, n)[n - 1] == Digit(v % 16) && Fixed(w, n)[n - 1] == Digit(w % 16);
    }
  }

  // ---- bytes ----

  /** A big-endian number. */
  function FromBytes(bytes: seq<nat>): nat {
    if bytes == [] then 0 else 256 * FromBytes(bytes[..|bytes| - 1]) + bytes[|bytes| - 1]
  }

  /** Two digits a byte, the way bytes are printed. */
  function BytesText(bytes: seq<nat>): string {
    if bytes == [] then "" else BytesText(bytes[..|bytes| - 1]) + Fixed(bytes[|bytes| - 1], 2)
  }

  predicate AreBytes(bytes: seq<nat>) {
    forall i :: 0 <= i < |bytes| ==> bytes[i] < 256
  }

  lemma {:induction false} BytesTextIsFixed(bytes: seq<nat>)
    requires AreBytes(bytes)
    ensures BytesText(bytes) == Fixed(FromBytes(bytes), 2 * |bytes|)
  {
    hide Fixed;
    if bytes != [] {
      var n := |bytes| - 1;
      var v := FromBytes(bytes[..n]);
      BytesTextIsFixed(bytes[..n]);
      AppendByte(v, 2 * n, bytes[n]);
      assert 2 * |bytes| == 2 * n + 2;
      assert FromBytes(bytes) == 256 * v + bytes[n];
    }
  }

  lemma AppendByte(v: nat, n: nat, b: nat)
    requires b < 256
    ensures Fixed(256 * v + b, n + 2) == Fixed(v, n) + Fixed(b, 2)
  {
    hide Digit;
    assert (256 * v + b) / 16 == 16 * v + b / 16 && (16 * v + b / 16) / 16 == v;
    assert (256 * v + b) % 16 == b % 16 && (16 * v + b / 16) % 16 == b / 16 % 16;
    LastTwo(256 * v + b, n);
    LastTwo(b, 0);
    assert Fixed(b / 16 / 16, 0) == "";
  }

  lemma LastTwo(v: nat, n: nat)
    ensures Fixed(v, n + 2) == Fixed(v / 16 / 16, n) + [Digit(v / 16 % 16)] + [Digit(v % 16)]
  {
    hide Digit;
    assert Fixed(v, n + 2) == Fixed(v / 16, n + 1) + [Digit(v % 16)];
  }

  lemma {:induction false} FromBytesConcat(a: seq<nat>, b: seq<nat>)
    ensures FromBytes(a + b) == FromBytes(a) * Pow(256, |b|) + FromBytes(b)
  {
    if b == [] {
      assert a + b == a;
    } else {
      assert (a + b)[..|a + b| - 1] == a + b[..|b| - 1];
      FromBytesConcat(a, b[..|b| - 1]);
      NextByte(FromBytes(a), Pow(256, |b| - 1), FromBytes(b[..|b| - 1]));
    }
  }

  lemma NextByte(v: nat, p: nat, x: nat)
    ensures 256 * (v * p + x) == v * (256 * p) + 256 * x
  {}
}
