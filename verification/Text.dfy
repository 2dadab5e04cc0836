/** Strings in code-point order, the order of `sorted` and of text comparison. */
module Text {

  predicate Below(a: string, b: string) {
    b != [] && (a == [] || a[0] < b[0] || (a[0] == b[0] && Below(a[1..], b[1..])))
  }

  lemma {:induction false} BelowIrreflexive(a: string)
    ensures !Below(a, a)
  {
    if a != [] {
      BelowIrreflexive(a[1..]);
    }
  }

  lemma {:induction false} BelowTransitive(a: string, b: string, c: string)
    requires Below(a, b) && Below(b, c)
    ensures Below(a, c)
  {
    if a != [] && a[0] == b[0] == c[0] {
      BelowTransitive(a[1..], b[1..], c[1..]);
    }
  }

  lemma {:induction false} BelowTotal(a: string, b: string)
    ensures Below(a, b) || a == b || Below(b, a)
  {
    if a != [] && b != [] && a[0] == b[0] {
      BelowTotal(a[1..], b[1..]);
      assert a == [a[0]] + a[1..] && b == [b[0]] + b[1..];
    }
  }

  /** The order is decided by the first place where the texts differ, a missing character
      counting as the least. */
  predicate DiffersAt(a: string, b: string, k: nat) {
    && k <= |a| && k < |b| && a[..k] == b[..k] && (k == |a| || a[k] < b[k])
  }

  lemma {:induction false} BelowAtFirstDifference(a: string, b: string)
    ensures Below(a, b) <==> exists k: nat :: DiffersAt(a, b, k)
  {
    if Below(a, b) {
      if a == [] || a[0] < b[0] {
        assert DiffersAt(a, b, 0);
      } else {
        BelowAtFirstDifference(a[1..], b[1..]);
        var k: nat :| DiffersAt(a[1..], b[1..], k);
        assert a[..k + 1] == [a[0]] + a[1..][..k] && b[..k + 1] == [b[0]] + b[1..][..k];
        assert DiffersAt(a, b, k + 1);
      }
    }
    forall k: nat | DiffersAt(a, b, k) ensures Below(a, b) {
      if k > 0 {
        assert a[0] == a[..k][0] && b[0] == b[..k][0];
        assert a[1..][..k - 1] == a[..k][1..] && b[1..][..k - 1] == b[..k][1..];
        assert DiffersAt(a[1..], b[1..], k - 1);
        BelowAtFirstDifference(a[1..], b[1..]);
      }
    }
  }

  /** Texts with heads of equal length compare by their heads first. */
  lemma {:induction false} BelowConcat(a: string, b: string, x: string, y: string)
    requires |a| == |b|
    ensures Below(a + x, b + y) <==> Below(a, b) || (a == b && Below(x, y))
  {
    if a == [] {
      assert a + x == x && b + y == y;
    } else {
      assert (a + x)[1..] == a[1..] + x && (b + y)[1..] == b[1..] + y;
      BelowConcat(a[1..], b[1..], x, y);
      assert a == [a[0]] + a[1..] && b == [b[0]] + b[1..];
    }
  }

  // ---- sorting ----

  /** `names` lists exactly the set, in strictly increasing order. */
  ghost predicate InOrder(names: seq<string>, all: set<string>) {
    && (forall i, j :: 0 <= i < j < |names| ==> Below(names[i], names[j]))
    && (forall name :: name in names <==> name in all)
  }

  /** The least text of a non-empty set. */
  method Least(keys: set<string>) returns (least: string)
    requires keys != {}
    ensures least in keys && forall k :: k in keys && k != least ==> Below(least, k)
  {
    least :| least in keys;
    var rest := keys - {least};
    while rest != {}
      invariant least in keys && rest <= keys
      invariant forall k :: k in keys - rest && k != least ==> Below(least, k)
      decreases rest
    {
      var k :| k in rest;
      BelowTotal(least, k);
      if Below(k, least) {
        forall x | x in keys - rest && x != least ensures Below(k, x) {
          BelowTransitive(k, least, x);
        }
        least := k;
      }
      rest := rest - {k};
    }
  }

  method Ordered(all: set<string>) returns (names: seq<string>)
    ensures InOrder(names, all)
  {
    names := [];
    var rest := all;
    while rest != {}
      invariant rest <= all
      invariant forall i, j :: 0 <= i < j < |names| ==> Below(names[i], names[j])
      invariant forall name :: name in names <==> name in all - rest
      invariant forall i, k :: 0 <= i < |names| && k in rest ==> Below(names[i], k)
      decreases rest
    {
      var next := Least(rest);
      names := names + [next];
      rest := rest - {next};
    }
  }
}
