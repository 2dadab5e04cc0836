/** Integer bit operations with Python's meaning: negative numbers have infinitely
    many leading ones, so `&`, `<<` and `>>` are floor arithmetic. */
module Bits {
  import opened Power

  function And(a: int, mask: nat): nat
    decreases mask, a
  {
    if mask == 0 then 0 else 2 * And(a / 2, mask / 2) + (a % 2) * (mask % 2)
  }

  function Or(a: nat, b: nat): nat
    decreases a + b
  {
    if a == 0 && b == 0 then 0
    else 2 * Or(a / 2, b / 2) + if a % 2 == 1 || b % 2 == 1 then 1 else 0
  }

  /** The mask of `k` ones. */
  function Ones(k: nat): nat {
    Pow(2, k) - 1
  }

  function Shl(a: nat, k: nat): nat {
    a * Pow(2, k)
  }

  function Shr(a: nat, k: nat): nat {
    QuotientSign(a, Pow(2, k));
    a / Pow(2, k)
  }

  lemma QuotientSign(a: nat, m: nat)
    requires m > 0
    ensures a / m >= 0
  {
    var q := a / m;
    assert a == q * m + a % m;
    assert q <= -1 ==> (q + 1) * m <= 0;
  }

  /** A mask of `k` ones keeps the low `k` bits. */
  lemma {:induction false} AndMask(a: int, k: nat)
    ensures And(a, Ones(k)) == a % Pow(2, k)
    decreases k
  {
    if k > 0 {
      var p := Pow(2, k - 1);
      AndOdd(a, p);
      AndMask(a / 2, k - 1);
      hide And;
      assert Ones(k) == 2 * p - 1 && Ones(k - 1) == p - 1;
      SplitMod(a, p);
    }
  }

  lemma AndOdd(a: int, p: nat)
    requires p > 0
    ensures And(a, 2 * p - 1) == 2 * And(a / 2, p - 1) + a % 2
  {
    assert (2 * p - 1) / 2 == p - 1 && (2 * p - 1) % 2 == 1;
  }

  lemma SplitMod(a: int, p: nat)
    requires p > 0
    ensures a % (2 * p) == 2 * ((a / 2) % p) + a % 2
  {
    var q := a / 2 / p;
    var r := (a / 2) % p;
    assert a / 2 == q * p + r;
    assert a == 2 * (a / 2) + a % 2;
    assert a == q * (2 * p) + (2 * r + a % 2);
    ModUnique(a, 2 * p, q, 2 * r + a % 2);
  }

  lemma ModUnique(a: int, m: int, q: int, r: int)
    requires m > 0 && a == q * m + r && 0 <= r < m
    ensures a % m == r && a / m == q
  {
    var d := a / m - q;
    assert a == m * (a / m) + a % m;
    assert m * d == r - a % m;
    assert d >= 1 ==> m * d >= m;
    assert d <= -1 ==> m * d <= -m;
  }

  /** Shifted left by `k`, a field shares no bit with one of at most `k` bits, so
      or-ing them together adds them. */
  lemma {:induction false} OrDisjoint(a: nat, k: nat, b: nat)
    requires b < Pow(2, k)
    ensures Or(a * Pow(2, k), b) == a * Pow(2, k) + b
  {
    if k == 0 {
      OrZero(a);
    } else {
      var p := Pow(2, k - 1);
      assert a * Pow(2, k) == 2 * (a * p);
      OrDisjoint(a, k - 1, b / 2);
      assert (2 * (a * p)) / 2 == a * p && (2 * (a * p)) % 2 == 0;
    }
  }

  lemma {:induction false} OrZero(a: nat)
    ensures Or(a, 0) == a
  {
    if a > 0 {
      OrZero(a / 2);
    }
  }
}
