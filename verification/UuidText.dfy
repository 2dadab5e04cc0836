/**
 UUIDs as text: the canonical form, the two encoders of the repository, the pattern
 of the contracts, and the server's `is_uuid7`.
 */
module UuidText {
  import opened Options
  import opened Text
  import opened Hex
  import opened Bits
  import opened Regex
  import opened UuidV7
  import opened Power

  // ---- canonical text ----

  function Dashed(h: string): (text: string)
    requires |h| == 32
    ensures |text| == 36
  {
    h[..8] + "-" + h[8..12] + "-" + h[12..16] + "-" + h[16..20] + "-" + h[20..]
  }

  /** `str(uuid.UUID(int=v))`. */
  function Canonical(v: nat): string {
    Dashed(Fixed(v, 32))
  }

  /** Where digit `k` of the 32 stands in the dashed text. */
  function Place(k: nat): nat {
    if k < 8 then k else if k < 12 then k + 1 else if k < 16 then k + 2 else if k < 20 then k + 3 else k + 4
  }

  lemma DashedAt(h: string, k: nat)
    requires |h| == 32 && k < 32
    ensures Dashed(h)[Place(k)] == h[k]
    ensures Dashed(h)[8] == Dashed(h)[13] == Dashed(h)[18] == Dashed(h)[23] == '-'
  {}

  lemma DashedInjective(g: string, h: string)
    requires |g| == |h| == 32 && Dashed(g) == Dashed(h)
    ensures g == h
  {
    forall k | 0 <= k < 32 ensures g[k] == h[k] {
      DashedAt(g, k);
      DashedAt(h, k);
    }
  }

  lemma DashedNested(h: string)
    requires |h| == 32
    ensures Dashed(h) == h[0..8] + "-" + (h[8..12] + "-" + (h[12..16] + "-" + (h[16..20] + "-" + h[20..])))
  {}

  lemma DashedOrder(g: string, h: string)
    requires |g| == |h| == 32
    ensures Below(Dashed(g), Dashed(h)) <==> Below(g, h)
  {
    hide Below, Dashed;
    DashedNested(g);
    DashedNested(h);
    DashStep(g, h, 16, 20, g[20..], h[20..]);
    var g4, h4 := g[16..20] + "-" + g[20..], h[16..20] + "-" + h[20..];
    DashStep(g, h, 12, 16, g4, h4);
    var g3, h3 := g[12..16] + "-" + g4, h[12..16] + "-" + h4;
    DashStep(g, h, 8, 12, g3, h3);
    DashStep(g, h, 0, 8, g[8..12] + "-" + g3, h[8..12] + "-" + h3);
    assert g[0..] == g && h[0..] == h;
  }

  lemma DashStep(g: string, h: string, i: nat, j: nat, x: string, y: string)
    requires |g| == |h| && i <= j <= |g| && (Below(x, y) <==> Below(g[j..], h[j..]))
    ensures Below(g[i..j] + "-" + x, h[i..j] + "-" + y) <==> Below(g[i..], h[i..])
  {
    hide Below;
    DashOnce(g[i..j], h[i..j], x, y, g[j..], h[j..]);
    assert g[i..] == g[i..j] + g[j..] && h[i..] == h[i..j] + h[j..];
  }

  /** A dash at the same place in both texts does not change their order. */
  lemma DashOnce(a: string, b: string, x: string, y: string, x': string, y': string)
    requires |a| == |b| && (Below(x, y) <==> Below(x', y'))
    ensures Below(a + "-" + x, b + "-" + y) <==> Below(a + x', b + y')
  {
    assert a + "-" + x == a + ("-" + x) && b + "-" + y == b + ("-" + y);
    BelowConcat(a, b, "-" + x, "-" + y);
    BelowConcat("-", "-", x, y);
    BelowConcat(a, b, x', y');
    assert !Below("-", "-");
  }

  lemma SmallPowers16()
    ensures Pow(16, 1) == 16 && Pow(16, 4) == 65536
  {}

  lemma Powers16()
    ensures Pow(16, 15) * 4 == P62 && Pow(16, 19) == P76 && Pow(16, 32) == P128
  {
    hide Pow;
    SmallPowers16();
    PowAdd(16, 4, 4);
    PowAdd(16, 8, 8);
    PowAdd(16, 15, 1);
    PowAdd(16, 15, 4);
    PowAdd(16, 16, 16);
  }

  /** Text order is numeric order, so canonical texts of generated values sort by age. */
  lemma TextOrderIsNumericOrder(v: nat, w: nat)
    requires v < P128 && w < P128
    ensures Below(Canonical(v), Canonical(w)) <==> v < w
    ensures Canonical(v) == Canonical(w) <==> v == w
  {
    Powers16();
    FixedOrder(v, w, 32);
    DashedOrder(Fixed(v, 32), Fixed(w, 32));
    if Canonical(v) == Canonical(w) {
      DashedInjective(Fixed(v, 32), Fixed(w, 32));
    }
    hide Fixed, Pow, Dashed;
  }

  // ---- the byte loop ----

  /** The 74 random bits that ten random bytes contribute: 12 and 62. */
  function RandomBits(random: seq<nat>): nat
    requires |random| == 10
  {
    (FromBytes(random[..2]) % 4096) * P62 + FromBytes(random[2..]) % P62
  }

  /** The sixteen bytes `createUuidV7` ends up with. */
  function Stamped(millisecond: int, random: seq<nat>): seq<nat>
    requires |random| == 10
  {
    MillisecondBytes(millisecond, 6)
      + [Or(0x70, And(random[0], 0x0f)), random[1]]
      + [Or(0x80, And(random[2], 0x3f))] + random[3..]
  }

  /** The last `n` bytes of a number, most significant first. */
  function MillisecondBytes(timestamp: int, n: nat): (bytes: seq<nat>)
    ensures |bytes| == n
    decreases n, timestamp
  {
    if n == 0 then [] else MillisecondBytes(timestamp / 256, n - 1) + [timestamp % 256]
  }

  lemma {:induction false} MillisecondValue(timestamp: int, n: nat)
    ensures AreBytes(MillisecondBytes(timestamp, n))
    ensures Pow(256, n) > 0 && FromBytes(MillisecondBytes(timestamp, n)) == timestamp % Pow(256, n)
    decreases n
  {
    if n > 0 {
      MillisecondValue(timestamp / 256, n - 1);
      var init := MillisecondBytes(timestamp / 256, n - 1);
      assert MillisecondBytes(timestamp, n)[..n - 1] == init;
      LowByte(timestamp, Pow(256, n - 1));
    }
  }

  lemma LowByte(a: int, p: nat)
    requires p > 0
    ensures a % (256 * p) == 256 * ((a / 256) % p) + a % 256
  {
    var q, r := a / 256 / p, a / 256 % p;
    assert a / 256 == q * p + r;
    assert q * (256 * p) == 256 * (q * p);
    ModUnique(a, 256 * p, q, 256 * r + a % 256);
  }

  lemma SmallMasks()
    ensures Ones(4) == 0x0f && Ones(6) == 0x3f && Ones(8) == 0xff && 7 * Pow(2, 4) == 0x70 && 2 * Pow(2, 6) == 0x80
  {}

  lemma MarkedBytes(a: nat, b: nat)
    ensures Or(0x70, And(a, 0x0f)) == 0x70 + a % 16
    ensures Or(0x80, And(b, 0x3f)) == 0x80 + b % 64
  {
    hide And, Or, Pow;
    SmallMasks();
    AndMask(a, 4);
    AndMask(b, 6);
    OrDisjoint(7, 4, a % 16);
    OrDisjoint(2, 6, b % 64);
  }

  lemma Powers256()
    ensures Pow(256, 1) == 256 && Pow(256, 2) == 65536 && Pow(256, 6) == P48 && Pow(256, 7) * 64 == P62
    ensures Pow(256, 8) == P64
  {}

  lemma FromTwo(a: nat, b: nat)
    ensures FromBytes([a, b]) == 256 * a + b
  {
    assert [a, b][..1] == [a] && [a][..0] == [];
    assert FromBytes([a]) == a;
  }

  /** The last eight bytes: variant and 62 bits. */
  lemma TailBits(random: seq<nat>)
    requires |random| == 10 && AreBytes(random)
    ensures FromBytes([0x80 + random[2] % 64] + random[3..]) == 2 * P62 + FromBytes(random[2..]) % P62
  {
    var rest := FromBytes(random[3..]);
    assert random[2..] == [random[2]] + random[3..];
    FromOne(random[2]);
    FromOne(0x80 + random[2] % 64);
    FromBytesConcat([random[2]], random[3..]);
    FromBytesConcat([0x80 + random[2] % 64], random[3..]);
    FromBytesBound(random[3..]);
    Powers256();
    hide FromBytes, AreBytes;
    LowSixtyTwo(random[2], Pow(256, 7), rest);
    hide Pow, P62;
  }

  lemma FromOne(a: nat)
    ensures FromBytes([a]) == a
  {
    assert [a][..0] == [];
  }

  lemma LowSixtyTwo(a: nat, p: nat, rest: nat)
    requires p * 64 == P62 && rest < p
    ensures (0x80 + a % 64) * p + rest == 2 * P62 + (a * p + rest) % P62
  {
    var q, r := a / 64, a % 64;
    Spread(p, a, q, r, rest);
    BelowSixtyFour(p, r, rest);
    ModUnique(a * p + rest, P62, q, r * p + rest);
  }

  lemma Spread(p: nat, a: nat, q: nat, r: nat, rest: nat)
    requires a == 64 * q + r
    ensures a * p + rest == q * (p * 64) + (r * p + rest)
    ensures (0x80 + r) * p + rest == 2 * (p * 64) + (r * p + rest)
  {}

  lemma BelowSixtyFour(p: nat, r: nat, rest: nat)
    requires r < 64 && rest < p
    ensures r * p + rest < p * 64
  {
    assert r * p <= 63 * p;
  }

  lemma {:induction false} FromBytesBound(bytes: seq<nat>)
    requires AreBytes(bytes)
    ensures FromBytes(bytes) < Pow(256, |bytes|)
  {
    if bytes != [] {
      FromBytesBound(bytes[..|bytes| - 1]);
    }
  }

  /** Version and the first twelve bits. */
  lemma HeadBits(random: seq<nat>)
    requires |random| == 10 && AreBytes(random)
    ensures FromBytes([0x70 + random[0] % 16, random[1]]) == 7 * 4096 + FromBytes(random[..2]) % 4096
  {
    FromTwo(0x70 + random[0] % 16, random[1]);
    FromTwo(random[0], random[1]);
    assert random[..2] == [random[0], random[1]];
    hide FromBytes;
    LowTwelve(random[0], random[1]);
  }

  lemma LowTwelve(a: nat, b: nat)
    requires b < 256
    ensures (256 * a + b) % 4096 == 256 * (a % 16) + b
  {}

  lemma RandomParts(random: seq<nat>)
    requires |random| == 10
    ensures RandomBits(random) < P74
    ensures RandomBits(random) / P62 == FromBytes(random[..2]) % 4096
    ensures RandomBits(random) % P62 == FromBytes(random[2..]) % P62
  {
    hide FromBytes;
    TwoParts(FromBytes(random[..2]) % 4096, FromBytes(random[2..]) % P62);
  }

  lemma TwoParts(a: nat, b: nat)
    requires a < 4096 && b < P62
    ensures a * P62 + b < P74 && (a * P62 + b) / P62 == a && (a * P62 + b) % P62 == b
  {
    ModUnique(a * P62 + b, P62, a, b);
  }

  lemma FieldsJoin(ms: nat, a: nat, b: nat)
    ensures (ms * 65536 + (7 * 4096 + a)) * P64 + (2 * P62 + b) == ms * P80 + 7 * P76 + a * P64 + 2 * P62 + b
  {}

  lemma StampedValue(millisecond: int, random: seq<nat>)
    requires |random| == 10 && AreBytes(random)
    ensures FromBytes(Stamped(millisecond, random))
         == ((millisecond % P48) * 65536 + (7 * 4096 + FromBytes(random[..2]) % 4096)) * P64
            + (2 * P62 + FromBytes(random[2..]) % P62)
  {
    hide Pow, FromBytes, And, Or;
    var ms := MillisecondBytes(millisecond, 6);
    var two := [0x70 + random[0] % 16, random[1]];
    var eight := [0x80 + random[2] % 64] + random[3..];
    Powers256();
    MarkedBytes(random[0], random[2]);
    MillisecondValue(millisecond, 6);
    assert Stamped(millisecond, random) == (ms + two) + eight;
    hide Stamped, MillisecondBytes;
    FromBytesConcat(ms, two);
    FromBytesConcat(ms + two, eight);
    HeadBits(random);
    TailBits(random);
    hide P48, P62, P64;
  }

  lemma StampedBytes(millisecond: int, random: seq<nat>)
    requires |random| == 10 && AreBytes(random)
    ensures AreBytes(Stamped(millisecond, random))
  {
    hide Pow, FromBytes, And, Or;
    MarkedBytes(random[0], random[2]);
    MillisecondValue(millisecond, 6);
  }

  /** The byte loop builds the number that the generator packs. */
  lemma StampedIsPacked(millisecond: int, random: seq<nat>)
    requires |random| == 10 && AreBytes(random)
    ensures AreBytes(Stamped(millisecond, random)) && RandomBits(random) < P74
    ensures FromBytes(Stamped(millisecond, random)) == Pack(millisecond, RandomBits(random))
  {
    hide Pow, FromBytes, Pack, Stamped, RandomBits, AreBytes;
    StampedBytes(millisecond, random);
    StampedValue(millisecond, random);
    RandomParts(random);
    PackIsSum(millisecond, RandomBits(random));
    FieldsJoin(millisecond % P48, FromBytes(random[..2]) % 4096, FromBytes(random[2..]) % P62);
    hide P48, P62, P64, P74, P76, P80;
  }

  /** Sixteen bytes: the millisecond in six, version and variant over the top bits of the
      first and third random byte, all other random bits as they are. */
  ghost predicate StampedWith(bytes: seq<nat>, millisecond: int, random: seq<nat>)
    requires |random| == 10
  {
    && |bytes| == 16 && AreBytes(bytes) && FromBytes(bytes[..6]) == millisecond % 0x1_0000_0000_0000
    && bytes[6] == 0x70 + random[0] % 16 && bytes[7] == random[1]
    && bytes[8] == 0x80 + random[2] % 64 && bytes[9..] == random[3..]
  }

  /** Two hexadecimal digits a byte, with dashes after bytes 4, 6, 8 and 10. */
  ghost predicate Printed(text: string, bytes: seq<nat>) {
    |BytesText(bytes)| == 32 && text == Dashed(BytesText(bytes))
  }

  lemma StampedIsStamped(millisecond: int, random: seq<nat>)
    requires |random| == 10 && AreBytes(random)
    ensures StampedWith(Stamped(millisecond, random), millisecond, random)
  {
    hide Pow, FromBytes, And, Or, MillisecondBytes;
    Powers256();
    MarkedBytes(random[0], random[2]);
    MillisecondValue(millisecond, 6);
    StampedBytes(millisecond, random);
    assert Stamped(millisecond, random)[..6] == MillisecondBytes(millisecond, 6);
  }

  lemma StampedIsPrinted(millisecond: int, random: seq<nat>)
    requires |random| == 10 && AreBytes(random)
    ensures Printed(Canonical(Pack(millisecond, RandomBits(random))), Stamped(millisecond, random))
  {
    hide Pack, RandomBits, FromBytes, Fixed, BytesText, And, Or, MillisecondBytes, Dashed;
    StampedIsPacked(millisecond, random);
    BytesTextIsFixed(Stamped(millisecond, random));
  }

  lemma MillisecondBytesStep(timestamp: int, n: nat)
    ensures MillisecondBytes(timestamp, n + 1) == MillisecondBytes(timestamp / 256, n) + [timestamp % 256]
  {}

  lemma MillisecondBytesEnd(timestamp: int)
    ensures MillisecondBytes(timestamp, 0) == []
  {}

  lemma StampedIs(millisecond: int, random: seq<nat>, bytes: seq<nat>)
    requires |random| == 10 && |bytes| == 16 && bytes[..6] == MillisecondBytes(millisecond, 6)
    requires bytes[6] == Or(0x70, And(random[0], 0x0f)) && bytes[7] == random[1]
    requires bytes[8] == Or(0x80, And(random[2], 0x3f)) && bytes[9..] == random[3..]
    ensures bytes == Stamped(millisecond, random)
  {
    hide And, Or, MillisecondBytes;
    assert bytes == bytes[..6] + [bytes[6], bytes[7]] + [bytes[8]] + bytes[9..];
  }

  lemma DashedIs(h: string)
    requires |h| == 32
    ensures Dashed(h) == h[..8] + "-" + h[8..12] + "-" + h[12..16] + "-" + h[16..20] + "-" + h[20..]
  {}

  lemma CanonicalIs(v: nat)
    ensures var h := Fixed(v, 32);
            Canonical(v) == h[..8] + "-" + h[8..12] + "-" + h[12..16] + "-" + h[16..20] + "-" + h[20..]
  {}

  /** `createUuidV7` gives the canonical text of the number that `uuid7` packs from the
      same millisecond and the same random bits; it refuses any other count of bytes. */
  method CreateUuidV7(now: int, random: seq<nat>) returns (text: Option<string>)
    requires AreBytes(random)
    ensures text.None? <==> |random| != 10
    ensures |random| == 10 ==> text == Some(Canonical(Pack(now, RandomBits(random))))
    ensures |random| == 10 ==> exists bytes :: StampedWith(bytes, now, random) && Printed(text.value, bytes)
  {
    if |random| != 10 {
      return None;
    }
    hide And, Or, Pack, FromBytes, Fixed, MillisecondBytes, Stamped, Canonical, RandomBits, Pow, Dashed, StampedWith;
    MillisecondBytesEnd(now);
    var bytes := new nat[16](_ => 0);
    var timestamp := now;
    var index := 5;
    while index >= 0
      invariant -1 <= index <= 5
      invariant MillisecondBytes(now, 6) == MillisecondBytes(timestamp, index + 1) + bytes[index + 1..6]
    {
      SmallMasks();
      AndMask(timestamp, 8);
      MillisecondBytesStep(timestamp, index);
      ghost var done := bytes[index + 1..6];
      bytes[index] := And(timestamp, 0xff);
      assert bytes[index..6] == [timestamp % 256] + done;
      timestamp := timestamp / 256;
      index := index - 1;
    }
    MillisecondBytesEnd(timestamp);
    ghost var stamp := bytes[..6];
    forall i | 6 <= i < 16 {
      bytes[i] := random[i - 6];
    }
    bytes[6] := Or(0x70, And(bytes[6], 0x0f));
    bytes[8] := Or(0x80, And(bytes[8], 0x3f));
    assert bytes[..][..6] == stamp && bytes[..][9..] == random[3..];
    StampedIs(now, random, bytes[..]);
    StampedIsStamped(now, random);
    StampedIsPacked(now, random);
    BytesTextIsFixed(bytes[..]);
    var hex := BytesText(bytes[..]);
    CanonicalIs(Pack(now, RandomBits(random)));
    text := Some(hex[..8] + "-" + hex[8..12] + "-" + hex[12..16] + "-" + hex[16..20] + "-" + hex[20..]);
    DashedIs(hex);
    assert Printed(text.value, bytes[..]);
  }

  // ---- the contract pattern ----

  const HEX_CLASS: set<char> := set c: char | IsHexChar(c)
  const VARIANT_CLASS: set<char> := {'8', '9', 'a', 'b'}

  /** ^[0-9a-f]{8}-[0-9a-f]{4}-7[0-9a-f]{3}-[89ab][0-9a-f]{3}-[0-9a-f]{12}$ */
  function UuidV7Pattern(): Regex {
    Cat(Times(HEX_CLASS, 8), Cat(Times({'-'}, 1), Cat(Times(HEX_CLASS, 4), Cat(Times({'-'}, 1),
    Cat(Times({'7'}, 1), Cat(Times(HEX_CLASS, 3), Cat(Times({'-'}, 1), Cat(Times(VARIANT_CLASS, 1),
    Cat(Times(HEX_CLASS, 3), Cat(Times({'-'}, 1), Times(HEX_CLASS, 12)))))))))))
  }

  /** The same, place by place. */
  predicate IsUuidV7Text(text: string) {
    && |text| == 36
    && (forall i :: 0 <= i < 36 ==> if i in {8, 13, 18, 23} then text[i] == '-' else IsHexChar(text[i]))
    && text[14] == '7' && text[19] in VARIANT_CLASS
  }

  /** The same, piece by piece. */
  predicate InPieces(text: string) {
    && |text| == 36
    && AllIn(text[0..8], HEX_CLASS) && AllIn(text[8..9], {'-'}) && AllIn(text[9..13], HEX_CLASS)
    && AllIn(text[13..14], {'-'}) && AllIn(text[14..15], {'7'}) && AllIn(text[15..18], HEX_CLASS)
    && AllIn(text[18..19], {'-'}) && AllIn(text[19..20], VARIANT_CLASS) && AllIn(text[20..23], HEX_CLASS)
    && AllIn(text[23..24], {'-'}) && AllIn(text[24..36], HEX_CLASS)
  }

  lemma PieceIs(text: string, i: nat, j: nat, chars: set<char>)
    requires i <= j <= |text|
    ensures AllIn(text[i..j], chars) <==> forall k :: i <= k < j ==> text[k] in chars
  {
    if AllIn(text[i..j], chars) {
      forall k | i <= k < j ensures text[k] in chars {
        assert text[k] == text[i..j][k - i];
      }
    }
  }

  lemma PiecesArePlaces(text: string)
    ensures InPieces(text) <==> IsUuidV7Text(text)
  {
    if |text| == 36 {
      PieceIs(text, 0, 8, HEX_CLASS);
      PieceIs(text, 8, 9, {'-'});
      PieceIs(text, 9, 13, HEX_CLASS);
      PieceIs(text, 13, 14, {'-'});
      PieceIs(text, 14, 15, {'7'});
      PieceIs(text, 15, 18, HEX_CLASS);
      PieceIs(text, 18, 19, {'-'});
      PieceIs(text, 19, 20, VARIANT_CLASS);
      PieceIs(text, 20, 23, HEX_CLASS);
      PieceIs(text, 23, 24, {'-'});
      PieceIs(text, 24, 36, HEX_CLASS);
      assert forall c :: c in HEX_CLASS <==> IsHexChar(c);
      assert IsHexChar('7') && forall c :: c in VARIANT_CLASS ==> IsHexChar(c);
      hide AllIn, IsHexChar;
    }
  }

  lemma PatternIsPlacewise(text: string)
    ensures Matches(UuidV7Pattern(), text) <==> IsUuidV7Text(text)
  {
    PiecesArePlaces(text);
    hide Matches, AllIn, IsUuidV7Text;
    var r10 := Cat(Times({'-'}, 1), Times(HEX_CLASS, 12));
    var r9 := Cat(Times(HEX_CLASS, 3), r10);
    var r8 := Cat(Times(VARIANT_CLASS, 1), r9);
    var r7 := Cat(Times({'-'}, 1), r8);
    var r6 := Cat(Times(HEX_CLASS, 3), r7);
    var r5 := Cat(Times({'7'}, 1), r6);
    var r4 := Cat(Times({'-'}, 1), r5);
    var r3 := Cat(Times(HEX_CLASS, 4), r4);
    var r2 := Cat(Times({'-'}, 1), r3);
    assert text[0..] == text;
    TimesFirst(HEX_CLASS, 8, r2, text, 0);
    TimesFirst({'-'}, 1, r3, text, 8);
    TimesFirst(HEX_CLASS, 4, r4, text, 9);
    TimesFirst({'-'}, 1, r5, text, 13);
    TimesFirst({'7'}, 1, r6, text, 14);
    TimesFirst(HEX_CLASS, 3, r7, text, 15);
    TimesFirst({'-'}, 1, r8, text, 18);
    TimesFirst(VARIANT_CLASS, 1, r9, text, 19);
    TimesFirst(HEX_CLASS, 3, r10, text, 20);
    TimesFirst({'-'}, 1, Times(HEX_CLASS, 12), text, 23);
    TimesLast(HEX_CLASS, 12, text, 24);
  }

  // ---- is_uuid7 ----

  /** `text.replace(pattern, "")`. */
  function Remove(text: string, pattern: string): string
    requires pattern != ""
  {
    if |text| < |pattern| then text
    else if text[..|pattern|] == pattern then Remove(text[|pattern|..], pattern)
    else [text[0]] + Remove(text[1..], pattern)
  }

  /** `text.strip("{}")`. */
  function StripBraces(text: string): string {
    if text != "" && text[0] in {'{', '}'} then StripBraces(text[1..])
    else if text != "" && text[|text| - 1] in {'{', '}'} then StripBraces(text[..|text| - 1])
    else text
  }

  /** `uuid.UUID(text)`. What `int(hex, 16)` makes of 32 characters that are not plain
      digits is up to `int16`. */
  function ParseUuid(text: string, int16: string -> Option<int>): Option<nat> {
    var hex := Remove(StripBraces(Remove(Remove(text, "urn:"), "uuid:")), "-");
    if |hex| != 32 then None
    else match int16(hex)
         case None => None
         case Some(v) => if 0 <= v < P128 then Some(v) else None
  }

  predicate HasVersion7(v: nat) {
    (v / P76) % 16 == 7 && (v / P62) % 4 == 2
  }

  predicate IsUuid7(text: string, int16: string -> Option<int>) {
    match ParseUuid(text, int16)
    case None => false
    case Some(v) => Canonical(v) == text && HasVersion7(v)
  }

  ghost predicate ReadsHex(int16: string -> Option<int>) {
    forall h :: |h| == 32 && IsHex(h) ==> int16(h) == Some(HexValue(h))
  }

  lemma {:induction false} RemoveNothing(text: string, pattern: string)
    requires pattern != "" && pattern[0] !in text
    ensures Remove(text, pattern) == text
  {
    if |text| >= |pattern| {
      assert text[..|pattern|][0] == text[0];
      RemoveNothing(text[1..], pattern);
      assert text == [text[0]] + text[1..];
    }
  }

  lemma {:induction false} RemoveDash(a: string, b: string)
    requires '-' !in a
    ensures Remove(a + "-" + b, "-") == a + Remove(b, "-")
  {
    if a == "" {
      assert (a + "-" + b)[..1] == "-" && (a + "-" + b)[1..] == b;
    } else {
      assert (a + "-" + b)[1..] == a[1..] + "-" + b && (a + "-" + b)[..1] == [a[0]];
      RemoveDash(a[1..], b);
      assert a == [a[0]] + a[1..];
    }
  }

  lemma HexHasNo(h: string, c: char)
    requires IsHex(h) && !IsHexChar(c)
    ensures c !in h
  {}

  lemma UndashIsInverse(h: string)
    requires |h| == 32 && IsHex(h)
    ensures Remove(Dashed(h), "-") == h
  {
    hide Remove;
    var h1, h2, h3, h4, h5 := h[..8], h[8..12], h[12..16], h[16..20], h[20..];
    assert Dashed(h) == h1 + "-" + (h2 + "-" + (h3 + "-" + (h4 + "-" + h5)));
    RemoveDash(h1, h2 + "-" + (h3 + "-" + (h4 + "-" + h5)));
    RemoveDash(h2, h3 + "-" + (h4 + "-" + h5));
    RemoveDash(h3, h4 + "-" + h5);
    RemoveDash(h4, h5);
    RemoveNothing(h5, "-");
    assert h == h1 + (h2 + (h3 + (h4 + h5)));
  }

  /** The parser reads back every canonical text. */
  lemma ParseCanonical(h: string, int16: string -> Option<int>)
    requires |h| == 32 && IsHex(h) && ReadsHex(int16)
    ensures ParseUuid(Dashed(h), int16) == Some(HexValue(h))
  {
    hide Remove, IsHexChar;
    var text := Dashed(h);
    assert text[0] == h[0] && text[35] == h[31];
    HexAndDashes(h);
    RemoveNothing(text, "urn:");
    RemoveNothing(text, "uuid:");
    assert StripBraces(text) == text;
    UndashIsInverse(h);
    FixedOfValue(h);
    Powers16();
    hide HexValue, Pow;
  }

  lemma HexAndDashes(h: string)
    requires |h| == 32 && IsHex(h)
    ensures 'u' !in Dashed(h) && h[0] !in {'{', '}'} && h[31] !in {'{', '}'}
  {
    HexHasNo(h, 'u');
  }

  /** The two marked digits are the version and the variant. */
  lemma MarkedDigits(v: nat)
    ensures Fixed(v, 32)[12] == '7' && Fixed(v, 32)[16] in VARIANT_CLASS <==> HasVersion7(v)
  {
    FixedAt(v, 32, 12);
    FixedAt(v, 32, 16);
    hide Fixed, Pow, Digit;
    Powers16();
    DigitOrder((v / P76) % 16, 7);
    VariantDigit(v / Pow(16, 15) % 16);
    Quarter(v, Pow(16, 15));
    hide VARIANT_CLASS;
    assert Digit(7) == '7';
  }

  lemma VariantDigit(d: nat)
    requires d < 16
    ensures Digit(d) in VARIANT_CLASS <==> 8 <= d < 12
  {}

  lemma Quarter(v: nat, p: nat)
    requires p > 0
    ensures (v / (p * 4)) % 4 == (v / p) % 16 / 4
  {
    var x, r := v / p, v % p;
    var y, z := x / 4, x % 4;
    assert v == p * x + r;
    SpreadQuarter(p, x, y, z);
    ThreeAtMost(p, z, r);
    ModUnique(v, p * 4, y, p * z + r);
    Fourth(x);
  }

  lemma Fourth(x: int)
    ensures x / 4 % 4 == x % 16 / 4
  {}

  lemma SpreadQuarter(p: nat, x: int, y: int, z: int)
    requires x == 4 * y + z
    ensures p * x == y * (p * 4) + p * z
  {}

  lemma ThreeAtMost(p: nat, z: int, r: int)
    requires 0 <= z <= 3 && 0 <= r < p
    ensures 0 <= p * z + r < p * 4
  {
    assert p * z <= p * 3;
  }

  lemma CanonicalPlaces(h: string)
    requires |h| == 32 && IsHex(h)
    ensures IsUuidV7Text(Dashed(h)) <==> h[12] == '7' && h[16] in VARIANT_CLASS
  {
    hide IsHexChar;
    var text := Dashed(h);
    forall i | 0 <= i < 36 && i !in {8, 13, 18, 23} ensures IsHexChar(text[i]) {
      var k := if i < 8 then i else if i < 13 then i - 1 else if i < 18 then i - 2 else if i < 23 then i - 3 else i - 4;
      assert Place(k) == i;
      DashedAt(h, k);
    }
    DashedAt(h, 12);
    DashedAt(h, 16);
  }

  function Undashed(text: string): string
    requires |text| == 36
  {
    text[..8] + text[9..13] + text[14..18] + text[19..23] + text[24..]
  }

  lemma UndashedAt(text: string, k: nat)
    requires |text| == 36 && k < 32
    ensures |Undashed(text)| == 32 && Undashed(text)[k] == text[Place(k)]
    ensures Place(k) < 36 && Place(k) !in {8, 13, 18, 23}
  {}

  lemma RedashedIs(text: string)
    requires |text| == 36 && text[8] == text[13] == text[18] == text[23] == '-'
    ensures |Undashed(text)| == 32 && Dashed(Undashed(text)) == text
  {
    var h := Undashed(text);
    assert h[..8] == text[..8] && h[8..12] == text[9..13] && h[12..16] == text[14..18];
    assert h[16..20] == text[19..23] && h[20..] == text[24..];
    FivePieces(text);
  }

  lemma FivePieces(text: string)
    requires |text| == 36 && text[8] == text[13] == text[18] == text[23] == '-'
    ensures text == text[..8] + "-" + text[9..13] + "-" + text[14..18] + "-" + text[19..23] + "-" + text[24..]
  {
    assert text == text[..8] + "-" + text[9..];
    assert text[9..] == text[9..13] + "-" + text[14..];
    assert text[14..] == text[14..18] + "-" + text[19..];
    assert text[19..] == text[19..23] + "-" + text[24..];
  }

  lemma UuidTextIsDashed(text: string)
    requires IsUuidV7Text(text)
    ensures |Undashed(text)| == 32 && IsHex(Undashed(text)) && Dashed(Undashed(text)) == text
  {
    hide IsHexChar, Dashed, Undashed, Place;
    assert text[8] == text[13] == text[18] == text[23] == '-';
    RedashedIs(text);
    forall k | 0 <= k < 32 ensures IsHexChar(Undashed(text)[k]) {
      UndashedAt(text, k);
    }
  }

  /** The server's check accepts exactly the texts of the contract pattern, whatever
      else the parser would let through. */
  lemma IsUuid7IsPattern(text: string, int16: string -> Option<int>)
    requires ReadsHex(int16)
    ensures IsUuid7(text, int16) <==> Matches(UuidV7Pattern(), text)
  {
    hide Fixed, HexValue, Dashed, IsUuidV7Text, HasVersion7, ReadsHex;
    PatternIsPlacewise(text);
    if IsUuidV7Text(text) {
      UuidTextIsDashed(text);
      var h := Undashed(text);
      FixedOfValue(h);
      ParseCanonical(h, int16);
      CanonicalPlaces(h);
      MarkedDigits(HexValue(h));
    }
    if IsUuid7(text, int16) {
      var v := ParseUuid(text, int16).value;
      FixedIsHex(v, 32);
      CanonicalPlaces(Fixed(v, 32));
      MarkedDigits(v);
    }
  }

  /** Every value either encoder makes is a UUIDv7 for both ends. */
  lemma PackedIsUuidV7(millisecond: int, random: nat)
    requires random < P74
    ensures Matches(UuidV7Pattern(), Canonical(Pack(millisecond, random)))
  {
    hide Pack, Fixed, IsUuidV7Text, Matches;
    var v := Pack(millisecond, random);
    PackLayout(millisecond, random);
    FixedIsHex(v, 32);
    CanonicalPlaces(Fixed(v, 32));
    MarkedDigits(v);
    PatternIsPlacewise(Canonical(v));
  }
}
