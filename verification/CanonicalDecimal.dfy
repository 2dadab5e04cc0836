/**
 The canonical decimal strings of the contracts: the two patterns, the number a
 decimal string denotes, and the promise that each number has exactly one spelling.
 */
module CanonicalDecimal {
  import opened Regex
  import opened Power

  // ---- the patterns ----

  const DIGITS: set<char> := set c: char | '0' <= c <= '9'
  const NONZERO: set<char> := set c: char | '1' <= c <= '9'

  /** \.[0-9]*[1-9] */
  function Fraction(): Regex {
    Cat(Class({'.'}), Cat(Many(DIGITS), Class(NONZERO)))
  }

  /** 0\.[0-9]*[1-9]|[1-9][0-9]*(?:\.[0-9]*[1-9])? */
  function Magnitude(): Regex {
    Alt(Cat(Class({'0'}), Fraction()), Cat(Class(NONZERO), Cat(Many(DIGITS), Opt(Fraction()))))
  }

  /** ^(?:0|-?(?:0\.[0-9]*[1-9]|[1-9][0-9]*(?:\.[0-9]*[1-9])?))$ */
  function DecimalPattern(): Regex {
    Alt(Class({'0'}), Cat(Opt(Class({'-'})), Magnitude()))
  }

  /** ^(?:0|(?:0\.[0-9]*[1-9]|[1-9][0-9]*(?:\.[0-9]*[1-9])?))$ */
  function NonNegativePattern(): Regex {
    Alt(Class({'0'}), Magnitude())
  }

  // ---- the number a decimal string denotes ----

  function DigitValue(c: char): nat {
    if '0' <= c <= '9' then (c - '0') as nat else 0
  }

  function NatValue(digits: string): nat {
    if digits == "" then 0 else 10 * NatValue(digits[..|digits| - 1]) + DigitValue(digits[|digits| - 1])
  }

  /** The place of the decimal point, the end of the string when there is none. */
  function Point(s: string): (d: nat)
    ensures d <= |s|
  {
    if s == "" || s[0] == '.' then 0 else 1 + Point(s[1..])
  }

  function Unsigned(s: string): real {
    var whole := s[..Point(s)];
    var part := if Point(s) < |s| then s[Point(s) + 1..] else "";
    NatValue(whole + part) as real / Pow(10, |part|) as real
  }

  /** What a string of digits with an optional sign and an optional point denotes. */
  function Number(s: string): real {
    if s != "" && s[0] == '-' then 0.0 - Unsigned(s[1..]) else Unsigned(s)
  }

  // ---- canonical spellings, part by part ----

  predicate WholePart(whole: string) {
    whole == "0" || (whole != "" && whole[0] in NONZERO && AllIn(whole, DIGITS))
  }

  predicate DecimalPart(part: string) {
    part == "" || (AllIn(part, DIGITS) && part[|part| - 1] in NONZERO)
  }

  datatype Parts = Parts(negative: bool, whole: string, part: string)

  /** No leading zero, no trailing zero, and no minus sign on zero. */
  predicate CanonicalParts(p: Parts) {
    && WholePart(p.whole) && DecimalPart(p.part)
    && !(p.negative && p.whole == "0" && p.part == "")
  }

  function Tail(part: string): string {
    if part == "" then "" else "." + part
  }

  function Spell(p: Parts): string {
    (if p.negative then "-" else "") + (p.whole + Tail(p.part))
  }

  // ---- the patterns accept exactly the canonical spellings ----

  lemma FractionParts(s: string)
    ensures Matches(Fraction(), s) <==> s != "" && s[0] == '.' && s[1..] != "" && DecimalPart(s[1..])
  {
    ClassFirst({'.'}, Cat(Many(DIGITS), Class(NONZERO)), s);
    if s != "" {
      ClassLast(DIGITS, NONZERO, s[1..]);
    }
    hide Matches;
  }

  lemma OptFraction(part: string)
    requires DecimalPart(part)
    ensures Matches(Opt(Fraction()), Tail(part))
  {
    FractionParts(Tail(part));
    assert Matches(Opt(Fraction()), Tail(part)) <==> Tail(part) == "" || Matches(Fraction(), Tail(part));
    hide Matches;
  }

  lemma FractionTail(s: string) returns (part: string)
    requires Matches(Opt(Fraction()), s)
    ensures DecimalPart(part) && s == Tail(part)
  {
    FractionParts(s);
    part := if s == "" then "" else s[1..];
    assert s == "" || Matches(Fraction(), s);
    assert s != "" ==> s == [s[0]] + s[1..];
    hide Matches;
  }

  lemma BodyMatches(whole: string, part: string)
    requires WholePart(whole) && DecimalPart(part) && !(whole == "0" && part == "")
    ensures Matches(Magnitude(), whole + Tail(part))
  {
    hide Matches;
    var tail, s := Tail(part), whole + Tail(part);
    OptFraction(part);
    MagnitudeParts(s);
    if whole == "0" {
      FractionParts(tail);
      assert s[1..] == tail;
    } else {
      assert s[1..] == whole[1..] + tail;
      ManyMatches(whole[1..]);
      MatchesCat(Many(DIGITS), Opt(Fraction()), whole[1..], tail);
    }
  }

  lemma ManyMatches(s: string)
    ensures Matches(Many(DIGITS), s) <==> AllIn(s, DIGITS)
  {}

  lemma MagnitudeParts(s: string)
    ensures Matches(Magnitude(), s) <==>
            s != "" && ((s[0] == '0' && Matches(Fraction(), s[1..]))
                        || (s[0] in NONZERO && Matches(Cat(Many(DIGITS), Opt(Fraction())), s[1..])))
  {
    ClassFirst({'0'}, Fraction(), s);
    ClassFirst(NONZERO, Cat(Many(DIGITS), Opt(Fraction())), s);
    assert Matches(Magnitude(), s) <==>
      Matches(Cat(Class({'0'}), Fraction()), s) || Matches(Cat(Class(NONZERO), Cat(Many(DIGITS), Opt(Fraction()))), s);
    hide Matches;
  }

  lemma MatchesBody(s: string) returns (whole: string, part: string)
    requires Matches(Magnitude(), s)
    ensures WholePart(whole) && DecimalPart(part) && !(whole == "0" && part == "") && s == whole + Tail(part)
  {
    hide Matches;
    MagnitudeParts(s);
    assert s == [s[0]] + s[1..];
    if s[0] == '0' {
      FractionParts(s[1..]);
      whole, part := "0", s[2..];
      hide DecimalPart;
      assert s[1..][1..] == part && s[1..] == "." + part;
    } else {
      var digits;
      digits, part := MatchesWhole(s[1..]);
      whole := [s[0]] + digits;
      hide DecimalPart;
      assert s == whole + Tail(part);
    }
  }

  lemma MatchesWhole(s: string) returns (digits: string, part: string)
    requires Matches(Cat(Many(DIGITS), Opt(Fraction())), s)
    ensures AllIn(digits, DIGITS) && DecimalPart(part) && s == digits + Tail(part)
  {
    hide Matches;
    var i := CatSplit(Many(DIGITS), Opt(Fraction()), s);
    ManyMatches(s[..i]);
    part := FractionTail(s[i..]);
    digits := s[..i];
  }

  lemma DecimalAlternatives(s: string)
    ensures Matches(DecimalPattern(), s) <==>
            s == "0" || Matches(Magnitude(), s) || (s != "" && s[0] == '-' && Matches(Magnitude(), s[1..]))
    ensures Matches(NonNegativePattern(), s) <==> s == "0" || Matches(Magnitude(), s)
  {
    assert Matches(Class({'0'}), s) <==> s == "0";
    SignMatches(s);
    assert Matches(DecimalPattern(), s) <==>
      Matches(Class({'0'}), s) || Matches(Cat(Opt(Class({'-'})), Magnitude()), s);
    assert Matches(NonNegativePattern(), s) <==> Matches(Class({'0'}), s) || Matches(Magnitude(), s);
    hide Matches;
  }

  lemma SignMatches(s: string)
    ensures Matches(Cat(Opt(Class({'-'})), Magnitude()), s) <==>
            Matches(Magnitude(), s) || (s != "" && s[0] == '-' && Matches(Magnitude(), s[1..]))
  {
    hide Matches, Magnitude;
    if Matches(Magnitude(), s) {
      SignIs("");
      MatchesCat(Opt(Class({'-'})), Magnitude(), "", s);
      assert s == "" + s;
    }
    if s != "" && s[0] == '-' && Matches(Magnitude(), s[1..]) {
      SignIs("-");
      MatchesCat(Opt(Class({'-'})), Magnitude(), "-", s[1..]);
      assert s == "-" + s[1..];
    }
    if Matches(Cat(Opt(Class({'-'})), Magnitude()), s) {
      var i := CatSplit(Opt(Class({'-'})), Magnitude(), s);
      SignIs(s[..i]);
      assert s[i..] == if s[..i] == "" then s else s[1..];
    }
  }

  lemma SignIs(s: string)
    ensures Matches(Opt(Class({'-'})), s) <==> s == "" || s == "-"
  {
    assert Matches(Opt(Class({'-'})), s) <==> s == "" || Matches(Class({'-'}), s);
  }

  lemma SpellMatches(p: Parts)
    requires CanonicalParts(p)
    ensures Matches(DecimalPattern(), Spell(p))
  {
    hide Matches, WholePart, DecimalPart;
    var body := p.whole + Tail(p.part);
    if p.whole == "0" && p.part == "" {
      DecimalAlternatives(body);
    } else {
      BodyMatches(p.whole, p.part);
      DecimalAlternatives(body);
      DecimalAlternatives("-" + body);
      assert ("-" + body)[1..] == body;
    }
    assert Spell(p) == if p.negative then "-" + body else body;
  }

  lemma MatchesSpell(s: string) returns (p: Parts)
    requires Matches(DecimalPattern(), s)
    ensures CanonicalParts(p) && s == Spell(p)
    ensures Matches(NonNegativePattern(), s) <==> !p.negative
  {
    hide Matches;
    DecimalAlternatives(s);
    if s == "0" {
      p := Parts(false, "0", "");
    } else if Matches(Magnitude(), s) {
      var whole, part := MatchesBody(s);
      p := Parts(false, whole, part);
    } else {
      var whole, part := MatchesBody(s[1..]);
      p := Parts(true, whole, part);
      assert s == "-" + s[1..];
    }
  }

  // ---- the value of digits ----

  lemma {:induction false} ValueConcat(a: string, b: string)
    ensures NatValue(a + b) == NatValue(a) * Pow(10, |b|) + NatValue(b)
  {
    if b == "" {
      assert a + b == a;
    } else {
      assert (a + b)[..|a + b| - 1] == a + b[..|b| - 1];
      ValueConcat(a, b[..|b| - 1]);
      NextDigit(NatValue(a), Pow(10, |b| - 1), NatValue(b[..|b| - 1]));
    }
  }

  lemma NextDigit(v: nat, p: nat, x: nat)
    ensures 10 * (v * p + x) == v * (10 * p) + 10 * x
  {}

  lemma {:induction false} ValueBound(s: string)
    requires AllIn(s, DIGITS)
    ensures NatValue(s) < Pow(10, |s|)
    ensures s != "" && s[0] in NONZERO ==> NatValue(s) >= Pow(10, |s| - 1)
    ensures s != "" && s[|s| - 1] in NONZERO ==> NatValue(s) % 10 != 0
  {
    if s != "" {
      ValueBound(s[..|s| - 1]);
    }
  }

  lemma {:induction false} SameDigits(a: string, b: string)
    requires AllIn(a, DIGITS) && AllIn(b, DIGITS) && |a| == |b| && NatValue(a) == NatValue(b)
    ensures a == b
  {
    if a != "" {
      var n := |a| - 1;
      LastDigits(NatValue(a[..n]), a[n], NatValue(b[..n]), b[n]);
      SameDigits(a[..n], b[..n]);
      hide NatValue;
      assert a == a[..n] + [a[n]] && b == b[..n] + [b[n]];
    }
  }

  lemma LastDigits(v: nat, c: char, w: nat, d: char)
    requires c in DIGITS && d in DIGITS
    ensures 10 * v + DigitValue(c) == 10 * w + DigitValue(d) ==> v == w && c == d
  {}

  lemma {:induction false} Pow10Grows(j: nat, k: nat)
    requires j <= k
    ensures Pow(10, j) <= Pow(10, k) && Pow(10, k) == Pow(10, k - j) * Pow(10, j)
  {
    if j < k {
      Pow10Grows(j, k - 1);
      assert Pow(10, k) == 10 * Pow(10, k - 1) && Pow(10, k - j) == 10 * Pow(10, k - 1 - j);
      hide Pow;
      Regroup(10, Pow(10, k - 1 - j), Pow(10, j));
    }
  }

  function Scaled(p: Parts): nat {
    NatValue(p.whole + p.part)
  }

  function SignedScaled(p: Parts): int {
    if p.negative then -(Scaled(p) as int) else Scaled(p)
  }

  lemma {:induction false} PointOf(whole: string, part: string)
    requires AllIn(whole, DIGITS)
    ensures Point(whole + Tail(part)) == |whole|
  {
    if whole == "" {
      assert whole + Tail(part) == Tail(part);
    } else {
      assert (whole + Tail(part))[1..] == whole[1..] + Tail(part);
      PointOf(whole[1..], part);
    }
  }

  function Ratio(m: int, k: nat): real {
    m as real / Pow(10, k) as real
  }

  lemma SpelledNumber(p: Parts)
    requires AllIn(p.whole, DIGITS) && p.whole != ""
    ensures Number(Spell(p)) == Ratio(SignedScaled(p), |p.part|)
  {
    hide NatValue, Pow;
    var body := p.whole + Tail(p.part);
    PointOf(p.whole, p.part);
    assert body[..|p.whole|] == p.whole;
    assert p.part != "" ==> body[|p.whole| + 1..] == p.part;
    assert Unsigned(body) == Ratio(Scaled(p), |p.part|);
    if p.negative {
      assert Spell(p)[1..] == body;
      Negated(Scaled(p) as real, Pow(10, |p.part|) as real);
    } else {
      assert Spell(p) == body;
    }
  }

  lemma Negated(a: real, b: real)
    requires b > 0.0
    ensures 0.0 - a / b == (-a) / b
  {}

  /** What a decimal string denotes, read digit by digit: each digit is worth its own
      value, ten times the digits before it, and a power of ten is divided off for the
      digits after the point. */
  lemma DigitsRead(digits: string, c: char)
    requires '0' <= c <= '9'
    ensures NatValue("") == 0 && NatValue(digits + [c]) == 10 * NatValue(digits) + (c as int - '0' as int)
  {
    assert (digits + [c])[..|digits|] == digits;
  }

  lemma NumberReads(whole: string, part: string)
    requires AllIn(whole, DIGITS) && whole != "" && part != ""
    ensures Number(whole) == NatValue(whole) as real
    ensures Number(whole + "." + part) == NatValue(whole + part) as real / Pow(10, |part|) as real
    ensures Number("-" + (whole + "." + part)) == -(NatValue(whole + part) as real / Pow(10, |part|) as real)
  {
    hide NatValue, Pow, Number;
    SpellsWhole(whole);
    SpellsFraction(whole, part);
    SpelledNumber(Parts(false, whole, ""));
    SpelledNumber(Parts(false, whole, part));
    SpelledNumber(Parts(true, whole, part));
    PowZero();
    NegatedRatio(NatValue(whole + part), |part|);
  }

  lemma SpellsWhole(whole: string)
    ensures Spell(Parts(false, whole, "")) == whole && whole + "" == whole
  {}

  lemma SpellsFraction(whole: string, part: string)
    requires part != ""
    ensures Spell(Parts(false, whole, part)) == whole + "." + part
    ensures Spell(Parts(true, whole, part)) == "-" + (whole + "." + part)
  {
    assert whole + ("." + part) == whole + "." + part;
  }

  lemma NegatedRatio(m: nat, k: nat)
    ensures Ratio(-(m as int), k) == -(m as real / Pow(10, k) as real)
  {
    Negated(m as real, Pow(10, k) as real);
  }

  lemma PowZero()
    ensures Pow(10, 0) == 1
  {}

  // ---- one spelling for each number ----

  lemma SameRatio(a: int, b: int, j: nat, k: nat)
    requires Ratio(a, j) == Ratio(b, k)
    ensures a * Pow(10, k) == b * Pow(10, j)
  {
    hide Pow;
    CrossMultiply(a, b, Pow(10, j), Pow(10, k));
  }

  lemma CrossMultiply(a: int, b: int, p: int, q: int)
    requires p > 0 && q > 0 && a as real / p as real == b as real / q as real
    ensures a * q == b * p
  {
    var x := a as real / p as real;
    assert x * p as real == a as real && x * q as real == b as real;
    Commute(x, p as real, q as real);
    assert (a * q) as real == a as real * q as real;
    assert (b * p) as real == b as real * p as real;
  }

  lemma Commute(x: real, p: real, q: real)
    ensures (x * p) * q == (x * q) * p
  {}

  lemma ScaledPositive(p: Parts)
    requires CanonicalParts(p)
    ensures Scaled(p) == 0 ==> p == Parts(false, "0", "")
    ensures p.part != "" ==> Scaled(p) % 10 != 0
  {
    var s := p.whole + p.part;
    ValueBound(s);
    if p.part != "" {
      assert s[|s| - 1] == p.part[|p.part| - 1];
    } else {
      assert s == p.whole;
    }
  }

  lemma SamePlaces(p: Parts, q: Parts)
    requires CanonicalParts(p) && CanonicalParts(q) && |p.part| <= |q.part|
    requires Scaled(p) * Pow(10, |q.part|) == Scaled(q) * Pow(10, |p.part|)
    ensures |p.part| == |q.part| && Scaled(p) == Scaled(q)
  {
    hide CanonicalParts, Scaled;
    var j, k := |p.part|, |q.part|;
    Pow10Grows(j, k);
    TrailingZero(Scaled(p), k - j);
    Cancel(Scaled(p) * Pow(10, k - j), Scaled(q), Pow(10, j)) by {
      assert Scaled(p) * (Pow(10, k - j) * Pow(10, j)) == (Scaled(p) * Pow(10, k - j)) * Pow(10, j);
    }
    ScaledPositive(q);
  }

  lemma TrailingZero(a: nat, n: nat)
    ensures n > 0 ==> (a * Pow(10, n)) % 10 == 0
  {
    if n > 0 {
      var p := Pow(10, n - 1);
      assert a * (10 * p) == 10 * (a * p);
    }
  }

  lemma Cancel(a: int, b: int, c: int)
    requires c > 0 && a * c == b * c
    ensures a == b
  {
    assert (a - b) * c == 0;
  }

  lemma ShorterIsLess(v: string, w: string)
    requires WholePart(v) && WholePart(w)
    ensures w != "0" && |v| < |w| ==> NatValue(v) < NatValue(w)
  {
    if |v| < |w| {
      ValueBound(v);
      ValueBound(w);
      Pow10Grows(|v|, |w| - 1);
    }
  }

  lemma SameWhole(v: string, w: string)
    requires WholePart(v) && WholePart(w) && NatValue(v) == NatValue(w)
    ensures v == w
  {
    ShorterIsLess(v, w);
    ShorterIsLess(w, v);
    ValueBound(v);
    ValueBound(w);
    assert NatValue("0") == 0;
    if v != "0" && w != "0" {
      hide NatValue, Pow;
      SameDigits(v, w);
    }
  }

  lemma SameParts(p: Parts, q: Parts)
    requires CanonicalParts(p) && CanonicalParts(q) && |p.part| == |q.part| && Scaled(p) == Scaled(q)
    ensures p.whole == q.whole && p.part == q.part
  {
    hide NatValue, Pow;
    ValueConcat(p.whole, p.part);
    ValueConcat(q.whole, q.part);
    ValueBound(p.part);
    ValueBound(q.part);
    SplitSum(NatValue(p.whole), NatValue(p.part), NatValue(q.whole), NatValue(q.part), Pow(10, |p.part|));
    SameWhole(p.whole, q.whole);
    SameDigits(p.part, q.part);
  }

  lemma SplitSum(a: nat, b: nat, c: nat, d: nat, m: nat)
    requires b < m && d < m && a * m + b == c * m + d
    ensures a == c && b == d
  {
    var x: int := a - c;
    assert x * m == d - b;
    assert x >= 1 ==> x * m >= m;
    assert x <= -1 ==> (x + 1) * m <= 0;
  }

  /** Two accepted strings that denote the same number are the same string. */
  lemma OneSpelling(s: string, t: string)
    requires Matches(DecimalPattern(), s) && Matches(DecimalPattern(), t)
    requires Number(s) == Number(t)
    ensures s == t
  {
    hide Matches, Number, Spell, Scaled;
    var p := MatchesSpell(s);
    var q := MatchesSpell(t);
    SpelledNumber(p);
    SpelledNumber(q);
    ScaledPositive(p);
    ScaledPositive(q);
    var a := SignedScaled(p);
    var b := SignedScaled(q);
    SameRatio(a, b, |p.part|, |q.part|);
    SameSign(a, b, Pow(10, |q.part|), Pow(10, |p.part|));
    if |p.part| <= |q.part| {
      SamePlaces(p, q);
    } else {
      SamePlaces(q, p);
    }
    SameParts(p, q);
    assert p.negative == q.negative;
  }

  lemma SameSign(a: int, b: int, c: int, d: int)
    requires c > 0 && d > 0 && a * c == b * d
    ensures (a < 0 <==> b < 0) && (a == 0 <==> b == 0) && (-a) * c == (-b) * d
  {}

  // ---- a spelling for each number ----

  function NatText(v: nat): string {
    if v < 10 then [v as char + '0'] else NatText(v / 10) + [(v % 10) as char + '0']
  }

  /** The last `n` decimal digits of `v`. */
  function Padded(v: nat, n: nat): (s: string)
    ensures |s| == n
  {
    if n == 0 then "" else Padded(v / 10, n - 1) + [(v % 10) as char + '0']
  }

  lemma {:induction false} NatTextValue(v: nat)
    ensures WholePart(NatText(v)) && NatValue(NatText(v)) == v
  {
    if v >= 10 {
      NatTextValue(v / 10);
      assert NatText(v)[..|NatText(v)| - 1] == NatText(v / 10);
    }
  }

  lemma {:induction false} PaddedValue(v: nat, n: nat)
    requires v < Pow(10, n)
    ensures AllIn(Padded(v, n), DIGITS) && NatValue(Padded(v, n)) == v
    ensures v % 10 != 0 && n > 0 ==> Padded(v, n)[n - 1] in NONZERO
  {
    hide NatValue, DigitValue, DIGITS, NONZERO;
    if n == 0 {
      EmptyValue();
    } else {
      assert v / 10 < Pow(10, n - 1);
      hide Pow;
      PaddedValue(v / 10, n - 1);
      DigitChar(v % 10);
      ValueAppend(Padded(v / 10, n - 1), (v % 10) as char + '0');
    }
  }

  lemma EmptyValue()
    ensures NatValue("") == 0
  {}

  lemma DigitChar(d: nat)
    requires d < 10
    ensures var c := d as char + '0'; c in DIGITS && DigitValue(c) == d && (d != 0 ==> c in NONZERO)
  {}

  lemma ValueAppend(s: string, c: char)
    ensures NatValue(s + [c]) == 10 * NatValue(s) + DigitValue(c)
  {
    assert (s + [c])[..|s|] == s;
  }

  function Quotient(v: nat, p: nat): nat
    requires p > 0
  {
    v / p
  }

  function Remainder(v: nat, p: nat): (r: nat)
    requires p > 0
    ensures r < p && v == Quotient(v, p) * p + r
  {
    v % p
  }

  /** The parts of m / 10^k: trailing zeros of the fraction are dropped first. */
  function Write(m: int, k: nat): Parts
    decreases k
  {
    if k > 0 && m % 10 == 0 then Write(m / 10, k - 1)
    else
      var v: nat := if m < 0 then -m else m;
      Parts(m < 0, NatText(Quotient(v, Pow(10, k))), Padded(Remainder(v, Pow(10, k)), k))
  }

  lemma {:induction false} WriteIsCanonical(m: int, k: nat)
    ensures CanonicalParts(Write(m, k)) && Number(Spell(Write(m, k))) == Ratio(m, k)
    decreases k
  {
    if k > 0 && m % 10 == 0 {
      hide Number, Spell, CanonicalParts;
      WriteIsCanonical(m / 10, k - 1);
      DropZero(m, k);
    } else {
      WriteReduced(m, k);
    }
  }

  lemma DropZero(m: int, k: nat)
    requires k > 0 && m % 10 == 0
    ensures Ratio(m / 10, k - 1) == Ratio(m, k)
  {
    var n, p := m / 10, Pow(10, k - 1) as real;
    assert m as real == 10.0 * n as real && Pow(10, k) as real == 10.0 * p;
    var x := Ratio(n, k - 1);
    assert x * p == n as real;
    assert x * (10.0 * p) == 10.0 * n as real;
  }

  lemma WriteReduced(m: int, k: nat)
    requires k == 0 || m % 10 != 0
    ensures CanonicalParts(Write(m, k)) && Number(Spell(Write(m, k))) == Ratio(m, k)
  {
    hide Number, Spell, NatText, Padded, Quotient, Remainder, Pow, NatValue;
    var v: nat := if m < 0 then -m else m;
    var p := Write(m, k);
    var q, r := Quotient(v, Pow(10, k)), Remainder(v, Pow(10, k));
    NatTextValue(q);
    PaddedValue(r, k);
    ValueConcat(p.whole, p.part);
    LastDigit(q, r, v, k);
    SpelledNumber(p);
    ZeroScaled(p);
  }

  lemma ZeroScaled(p: Parts)
    ensures p.whole == "0" && p.part == "" ==> Scaled(p) == 0
  {
    assert "0" + "" == "0";
    assert NatValue("0") == 0;
  }

  lemma LastDigit(q: nat, r: nat, v: nat, k: nat)
    requires v == q * Pow(10, k) + r
    ensures k > 0 ==> r % 10 == v % 10
  {
    assert k > 0 ==> q * (10 * Pow(10, k - 1)) == 10 * (q * Pow(10, k - 1));
  }

  /** Every finite decimal m / 10^k has an accepted spelling. */
  lemma EverySpelled(m: int, k: nat)
    ensures Matches(DecimalPattern(), Spell(Write(m, k))) && Number(Spell(Write(m, k))) == Ratio(m, k)
  {
    hide Matches, Number, Spell, CanonicalParts;
    WriteIsCanonical(m, k);
    SpellMatches(Write(m, k));
  }

  /** The non-negative pattern accepts exactly the accepted decimals that are not below zero. */
  lemma NonNegativeExactly(s: string)
    ensures Matches(NonNegativePattern(), s) <==> Matches(DecimalPattern(), s) && Number(s) >= 0.0
  {
    hide Matches, Number, Spell, Scaled;
    DecimalAlternatives(s);
    if Matches(DecimalPattern(), s) {
      var p := MatchesSpell(s);
      SpelledNumber(p);
      ScaledPositive(p);
      RatioSign(SignedScaled(p), |p.part|);
    }
  }

  lemma RatioSign(m: int, k: nat)
    ensures Ratio(m, k) >= 0.0 <==> m >= 0
  {
    var x, p := Ratio(m, k), Pow(10, k) as real;
    assert x * p == m as real;
    assert x >= 0.0 ==> x * p >= 0.0;
    assert x < 0.0 ==> x * p < 0.0;
  }
}
