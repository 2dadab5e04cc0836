/**
 The monotonic UUIDv7 generator (RFC 9562, sections 5.7 and 6.2): a 48-bit
 millisecond, the version 7, 12 random bits, the variant 2, and 62 random bits.
 */
module UuidV7 {
  import opened Bits
  import opened Power

  const P48: nat := 0x1_0000_0000_0000
  const P62: nat := 0x4000_0000_0000_0000
  const P64: nat := 0x1_0000_0000_0000_0000
  const P74: nat := 0x400_0000_0000_0000_0000
  const P76: nat := 0x1000_0000_0000_0000_0000
  const P80: nat := 0x1_0000_0000_0000_0000_0000
  const P128: nat := 0x1_0000_0000_0000_0000_0000_0000_0000_0000

  lemma SmallPowers()
    ensures Pow(2, 2) == 4 && Pow(2, 4) == 16 && Pow(2, 12) == 4096
  {}

  lemma Powers()
    ensures Pow(2, 48) == P48 && Pow(2, 62) == P62 && Pow(2, 64) == P64
    ensures Pow(2, 74) == P74 && Pow(2, 76) == P76 && Pow(2, 80) == P80
  {
    hide Pow;
    SmallPowers();
    PowAdd(2, 12, 12);
    PowAdd(2, 24, 24);
    PowAdd(2, 48, 12);
    PowAdd(2, 60, 2);
    PowAdd(2, 62, 2);
    PowAdd(2, 62, 12);
    PowAdd(2, 64, 12);
    PowAdd(2, 76, 4);
  }

  // ---- the packed value ----

  /** The shifts and ors of the generator, for the low 74 bits of `random`. */
  function Pack(millisecond: int, random: nat): nat {
    var randomA := Shr(random, 62);
    var randomB := And(random, Ones(62));
    Or(Or(Or(Or(Shl(And(millisecond, Ones(48)), 80), Shl(7, 76)), Shl(randomA, 64)), Shl(2, 62)), randomB)
  }

  /** The five fields are disjoint, so the value is their weighted sum. */
  lemma PackIsSum(millisecond: int, random: nat)
    requires random < P74
    ensures Pack(millisecond, random)
         == (millisecond % P48) * P80 + 7 * P76 + (random / P62) * P64 + 2 * P62 + random % P62
  {
    hide Pow, And, Or;
    Powers();
    AndMask(random, 62);
    AndMask(millisecond, 48);
    OrFields(millisecond % P48, random / P62, random % P62);
  }

  lemma OrFields(ms: nat, a: nat, b: nat)
    requires a < 4096 && b < P62
    ensures Or(Or(Or(Or(ms * P80, 7 * P76), a * P64), 2 * P62), b)
         == ms * P80 + 7 * P76 + a * P64 + 2 * P62 + b
  {
    hide Pow, Or;
    Powers();
    OrDisjoint(ms, 80, 7 * P76);
    OrDisjoint(16 * ms + 7, 76, a * P64);
    OrDisjoint((16 * ms + 7) * 4096 + a, 64, 2 * P62);
    OrDisjoint(((16 * ms + 7) * 4096 + a) * 4 + 2, 62, b);
  }

  /** Every field is read back where RFC 9562 puts it. */
  lemma PackLayout(millisecond: int, random: nat)
    requires random < P74
    ensures var v := Pack(millisecond, random);
            && v < P128
            && v / P80 == millisecond % P48
            && (v / P76) % 16 == 7
            && (v / P62) % 4 == 2
            && (v / P64) % 4096 * P62 + v % P62 == random
  {
    hide Pack;
    PackIsSum(millisecond, random);
    SplitLow(random);
    FieldLayout(millisecond % P48, random / P62, random % P62);
  }

  lemma FieldLayout(ms: nat, a: nat, b: nat)
    requires ms < P48 && a < 4096 && b < P62
    ensures var v := ms * P80 + 7 * P76 + a * P64 + 2 * P62 + b;
            && v < P128 && v / P80 == ms && (v / P76) % 16 == 7
            && (v / P64) % 4096 == a && (v / P62) % 4 == 2 && v % P62 == b
  {
    var v := ms * P80 + 7 * P76 + a * P64 + 2 * P62 + b;
    ModUnique(v, P80, ms, 7 * P76 + a * P64 + 2 * P62 + b);
    FieldAt(v, P76, ms, 16, 7, a * P64 + 2 * P62 + b);
    FieldAt(v, P64, 16 * ms + 7, 4096, a, 2 * P62 + b);
    FieldAt(v, P62, (16 * ms + 7) * 4096 + a, 4, 2, b);
  }

  /** A field of `size` values above `unit`, below `upper`. */
  lemma FieldAt(v: nat, unit: nat, upper: nat, size: nat, field: nat, lower: nat)
    requires v == (upper * size + field) * unit + lower && field < size && lower < unit
    ensures (v / unit) % size == field && v % unit == lower
  {
    ModUnique(v, unit, upper * size + field, lower);
    ModUnique(upper * size + field, size, upper, field);
  }

  /** The millisecond that fits and the random bits, as one number. */
  function Low(millisecond: int, random: nat): nat {
    (millisecond % P48) * P74 + random
  }

  /** Packed values compare exactly as the fitting millisecond and the random bits do. */
  lemma PackOrder(m: int, r: nat, n: int, q: nat)
    requires r < P74 && q < P74
    ensures Pack(m, r) < Pack(n, q) <==> Low(m, r) < Low(n, q)
    ensures Pack(m, r) == Pack(n, q) <==> Low(m, r) == Low(n, q)
  {
    hide Pack;
    PackIsSum(m, r);
    PackIsSum(n, q);
    SplitLow(r);
    SplitLow(q);
    FieldOrder(m % P48, r / P62, r % P62, n % P48, q / P62, q % P62);
  }

  lemma SplitLow(r: nat)
    requires r < P74
    ensures r == (r / P62) * P62 + r % P62 && r / P62 < 4096
  {}

  lemma FieldOrder(ms: nat, a: nat, b: nat, ns: nat, c: nat, d: nat)
    requires a < 4096 && c < 4096 && b < P62 && d < P62
    ensures var v, w := ms * P80 + 7 * P76 + a * P64 + 2 * P62 + b, ns * P80 + 7 * P76 + c * P64 + 2 * P62 + d;
            var x, y := ms * P74 + (a * P62 + b), ns * P74 + (c * P62 + d);
            (v < w <==> x < y) && (v == w <==> x == y)
  {
    AsHead(ms, a, b);
    AsHead(ns, c, d);
    HeadOrder(ms, a, ns, c);
    LeadingOrder(((16 * ms + 7) * 4096 + a) * 4 + 2, b, ((16 * ns + 7) * 4096 + c) * 4 + 2, d);
    LeadingOrder(ms * 4096 + a, b, ns * 4096 + c, d);
    hide P62, P64, P74, P76, P80;
  }

  /** Both sums as a head of 62 low bits. */
  lemma AsHead(ms: nat, a: nat, b: nat)
    ensures ms * P80 + 7 * P76 + a * P64 + 2 * P62 + b == (((16 * ms + 7) * 4096 + a) * 4 + 2) * P62 + b
    ensures ms * P74 + (a * P62 + b) == (ms * 4096 + a) * P62 + b
  {}

  lemma HeadOrder(ms: nat, a: nat, ns: nat, c: nat)
    requires a < 4096 && c < 4096
    ensures var l, m := ((16 * ms + 7) * 4096 + a) * 4 + 2, ((16 * ns + 7) * 4096 + c) * 4 + 2;
            && (l < m <==> ms * 4096 + a < ns * 4096 + c)
            && (l == m <==> ms * 4096 + a == ns * 4096 + c)
  {
    if ms == ns {
    } else if ms < ns {
      assert ms + 1 <= ns;
    } else {
      assert ns + 1 <= ms;
    }
  }

  /** Numbers with 62 low bits compare by what precedes these bits first. */
  lemma LeadingOrder(x: nat, b: nat, y: nat, d: nat)
    requires b < P62 && d < P62
    ensures x * P62 + b < y * P62 + d <==> x < y || (x == y && b < d)
    ensures x * P62 + b == y * P62 + d <==> x == y && b == d
  {}

  // ---- the generator ----

  datatype State = State(millisecond: int, random: nat)
  datatype Call = Call(timeNs: int, draw: nat)

  const INITIAL := State(-1, 0)

  predicate Drawn(calls: seq<Call>) {
    forall i :: 0 <= i < |calls| ==> calls[i].draw < P74
  }

  function Tick(g: State, millisecond: int, draw: nat): State {
    if millisecond > g.millisecond then State(millisecond, draw)
    else
      var random := And(g.random + 1, Ones(74));
      State(if random == 0 then g.millisecond + 1 else g.millisecond, random)
  }

  /** The state after a sequence of calls in one process. */
  function After(calls: seq<Call>): State {
    if calls == [] then INITIAL
    else
      var last := calls[|calls| - 1];
      Tick(After(calls[..|calls| - 1]), last.timeNs / 1_000_000, last.draw)
  }

  /** Millisecond and random bits as one unbounded counter. */
  function Counter(g: State): int {
    g.millisecond * P74 + g.random
  }

  lemma TickCounts(g: State, millisecond: int, draw: nat)
    requires g.random < P74 && draw < P74
    ensures var g' := Tick(g, millisecond, draw);
            && g'.random < P74 && g'.millisecond >= g.millisecond
            && (millisecond > g.millisecond ==> g' == State(millisecond, draw))
            && (millisecond <= g.millisecond ==> Counter(g') == Counter(g) + 1)
            && Counter(g') > Counter(g)
  {
    hide Pow, And;
    Powers();
    AndMask(g.random + 1, 74);
  }

  lemma {:induction false} AfterSound(calls: seq<Call>)
    requires Drawn(calls)
    ensures After(calls).random < P74
  {
    if calls != [] {
      var last := calls[|calls| - 1];
      AfterSound(calls[..|calls| - 1]);
      TickCounts(After(calls[..|calls| - 1]), last.timeNs / 1_000_000, last.draw);
    }
  }

  /** The value that the last of the calls returned. */
  function Value(calls: seq<Call>): nat
    requires Drawn(calls)
  {
    AfterSound(calls);
    Pack(After(calls).millisecond, After(calls).random)
  }

  lemma {:induction false} CounterGrows(calls: seq<Call>, i: nat)
    requires Drawn(calls) && i < |calls|
    ensures Counter(After(calls[..i])) < Counter(After(calls))
    ensures After(calls[..i]).millisecond <= After(calls).millisecond
    decreases |calls|
  {
    var last := calls[|calls| - 1];
    var before := calls[..|calls| - 1];
    AfterSound(before);
    TickCounts(After(before), last.timeNs / 1_000_000, last.draw);
    if i < |calls| - 1 {
      CounterGrows(before, i);
      assert before[..i] == calls[..i];
    }
  }

  /** Later values are greater, whatever the clock reads (rollbacks included) and
      whatever is drawn, while the generator's millisecond has 48 bits. */
  lemma StrictlyIncreasing(calls: seq<Call>, i: nat)
    requires Drawn(calls) && 0 < i < |calls|
    requires After(calls[..i]).millisecond >= 0 && After(calls).millisecond < P48
    ensures Value(calls[..i]) < Value(calls)
  {
    hide Pack, After;
    var g := After(calls[..i]);
    var g' := After(calls);
    AfterSound(calls[..i]);
    AfterSound(calls);
    CounterGrows(calls, i);
    PackOrder(g.millisecond, g.random, g'.millisecond, g'.random);
  }

  /** Whether a call keeps the order, told from the state before it, the clock and the
      draw alone. When the clock moved on, what counts is the part of the millisecond
      that fits in 48 bits; otherwise only a carry into a multiple of 2^48 fails. */
  predicate KeepsOrder(g: State, millisecond: int, draw: nat) {
    if millisecond > g.millisecond then
      || g.millisecond % P48 < millisecond % P48
      || (g.millisecond % P48 == millisecond % P48 && g.random < draw)
    else !(g.random == P74 - 1 && (g.millisecond + 1) % P48 == 0)
  }

  lemma StepKeepsOrderExactly(g: State, millisecond: int, draw: nat)
    requires g.random < P74 && draw < P74
    ensures var g' := Tick(g, millisecond, draw);
            Pack(g.millisecond, g.random) < Pack(g'.millisecond, g'.random) <==> KeepsOrder(g, millisecond, draw)
  {
    hide Pack, Tick;
    var g' := Tick(g, millisecond, draw);
    TickCases(g, millisecond, draw);
    PackOrder(g.millisecond, g.random, g'.millisecond, g'.random);
    if millisecond > g.millisecond {
      LowOrder(g.millisecond % P48, g.random, millisecond % P48, draw);
    } else {
      hide Low;
      CarryOrder(g);
    }
  }

  /** It fails one millisecond past the bound, where the values start over. */
  lemma OrderPast48Bits(draw: nat)
    requires draw < P74
    ensures var g, g' := State(P48 - 1, P74 - 1), Tick(State(P48 - 1, P74 - 1), P48, draw);
            g' == State(P48, draw) && Pack(g'.millisecond, g'.random) < Pack(g.millisecond, g.random)
  {
    hide Pack;
    PackOrder(P48, draw, P48 - 1, P74 - 1);
  }

  lemma TickCases(g: State, millisecond: int, draw: nat)
    requires g.random < P74 && draw < P74
    ensures Tick(g, millisecond, draw) ==
            if millisecond > g.millisecond then State(millisecond, draw)
            else if g.random == P74 - 1 then State(g.millisecond + 1, 0)
            else State(g.millisecond, g.random + 1)
  {
    hide Pow, And;
    Powers();
    AndMask(g.random + 1, 74);
  }

  lemma LowOrder(ms: nat, r: nat, ns: nat, q: nat)
    requires r < P74 && q < P74
    ensures ms * P74 + r < ns * P74 + q <==> ms < ns || (ms == ns && r < q)
  {}

  lemma CarryOrder(g: State)
    requires g.random < P74
    ensures g.random < P74 - 1 ==> Low(g.millisecond, g.random) < Low(g.millisecond, g.random + 1)
    ensures g.random == P74 - 1 ==>
              (Low(g.millisecond, g.random) < Low(g.millisecond + 1, 0) <==> (g.millisecond + 1) % P48 != 0)
  {
    NextFit(g.millisecond);
  }

  lemma NextFit(m: int)
    ensures (m + 1) % P48 == if m % P48 == P48 - 1 then 0 else m % P48 + 1
  {}

  // ---- how far the generator runs ahead of the clock ----

  /** `bound` is at least every clock reading, in milliseconds, none before the epoch. */
  predicate ClockWithin(calls: seq<Call>, bound: nat) {
    forall i :: 0 <= i < |calls| ==> 0 <= calls[i].timeNs / 1_000_000 <= bound
  }

  lemma {:induction false} CounterBound(calls: seq<Call>, bound: nat)
    requires Drawn(calls) && ClockWithin(calls, bound) && calls != []
    ensures Counter(After(calls)) <= bound * P74 + P74 + |calls| - 2
  {
    var last := calls[|calls| - 1];
    var before := calls[..|calls| - 1];
    AfterSound(before);
    TickCounts(After(before), last.timeNs / 1_000_000, last.draw);
    if before != [] {
      CounterBound(before, bound);
    }
  }

  /** After `n` calls the generator is ahead of the latest clock reading by at most
      (2^74 + n - 2) / 2^74 milliseconds: one, until 2^74 more calls are made. */
  lemma LeadBound(calls: seq<Call>, bound: nat)
    requires Drawn(calls) && ClockWithin(calls, bound) && calls != []
    ensures After(calls).millisecond - bound <= (P74 + |calls| - 2) / P74
    ensures After(calls).millisecond - bound <= 1 + (|calls| - 1) / P74
  {
    AfterSound(calls);
    CounterBound(calls, bound);
  }

  /** The bound is reached: a stopped clock and an all-ones first draw attain it for
      every number of calls. */
  lemma {:induction false} LeadBoundTight(millisecond: nat, n: nat)
    requires n > 0
    ensures var calls := seq(n, i => Call(millisecond * 1_000_000, P74 - 1));
            After(calls).millisecond - millisecond == (P74 + n - 2) / P74
            && Counter(After(calls)) == millisecond * P74 + P74 + n - 2
  {
    var calls := seq(n, i => Call(millisecond * 1_000_000, P74 - 1));
    var before := calls[..n - 1];
    assert (millisecond * 1_000_000) / 1_000_000 == millisecond;
    AfterSound(calls);
    AfterSound(before);
    TickCounts(After(before), millisecond, P74 - 1);
    if n > 1 {
      assert before == seq(n - 1, i => Call(millisecond * 1_000_000, P74 - 1));
      LeadBoundTight(millisecond, n - 1);
      AheadByCounter(After(before), millisecond, n - 1);
    }
    assert Counter(After(calls)) == millisecond * P74 + P74 + n - 2;
    hide After;
    AheadByCounter(After(calls), millisecond, n);
  }

  lemma AheadByCounter(g: State, millisecond: nat, n: nat)
    requires n > 0 && g.random < P74 && Counter(g) == millisecond * P74 + P74 + n - 2
    ensures g.millisecond - millisecond == (P74 + n - 2) / P74
    ensures n > 1 ==> g.millisecond >= millisecond + 1
    ensures g.millisecond >= millisecond
  {
    ModUnique(P74 + n - 2, P74, g.millisecond - millisecond, g.random);
  }

  /** The same order from the clock and the number of calls alone: it holds as long as
      the latest reading leaves room below 2^48 for the lead. */
  lemma IncreasingByTheClock(calls: seq<Call>, i: nat, bound: nat)
    requires Drawn(calls) && 0 < i < |calls|
    requires ClockWithin(calls, bound) && bound + 1 + (|calls| - 1) / P74 < P48
    ensures Value(calls[..i]) < Value(calls)
  {
    hide Pack, After, Value;
    LeadBound(calls, bound);
    FromFirstReading(calls, i, bound);
    StrictlyIncreasing(calls, i);
  }

  const P63: nat := 0x8000_0000_0000_0000

  /** Readings of a 64-bit nanosecond clock never come near that, so on such a clock the
      values of one process increase without exception for 2^121 calls. */
  lemma IncreasingOnMachineClocks(calls: seq<Call>, i: nat)
    requires Drawn(calls) && 0 < i < |calls| <= 0x8000_0000_0000 * P74
    requires forall k :: 0 <= k < |calls| ==> 0 <= calls[k].timeNs < P63
    ensures Value(calls[..i]) < Value(calls)
  {
    assert ClockWithin(calls, P63 / 1_000_000);
    IncreasingByTheClock(calls, i, P63 / 1_000_000);
  }

  lemma {:induction false} FromFirstReading(calls: seq<Call>, i: nat, bound: nat)
    requires Drawn(calls) && 0 < i <= |calls| && ClockWithin(calls, bound)
    ensures After(calls[..i]).millisecond >= 0
    decreases i
  {
    var last := calls[i - 1];
    assert calls[..i][..i - 1] == calls[..i - 1];
    AfterSound(calls[..i - 1]);
    TickCounts(After(calls[..i - 1]), last.timeNs / 1_000_000, last.draw);
    if i > 1 {
      FromFirstReading(calls, i - 1, bound);
    }
  }

  lemma AfterAppend(calls: seq<Call>, call: Call)
    ensures After(calls + [call]) == Tick(After(calls), call.timeNs / 1_000_000, call.draw)
  {
    assert (calls + [call])[..|calls|] == calls;
  }

  /** The module-level state of `uuid7`, which the lock makes one object. `calls` is
      its history: the clock reading and the draw of every call so far. */
  class Uuid7Generator {
    var lastMillisecond: int
    var lastRandom: nat
    ghost var calls: seq<Call>

    ghost predicate Valid()
      reads this
    {
      Drawn(calls) && State(lastMillisecond, lastRandom) == After(calls)
    }

    constructor ()
      ensures Valid() && calls == []
    {
      lastMillisecond := -1;
      lastRandom := 0;
      calls := [];
    }

    /** A value greater than every earlier one, while the millisecond has 48 bits. */
    method Uuid7(timeNs: int, draw: nat) returns (value: nat)
      requires Valid() && draw < P74
      modifies this
      ensures Valid() && calls == old(calls) + [Call(timeNs, draw)]
      ensures value == Value(calls)
      ensures timeNs / 1_000_000 > old(lastMillisecond) ==>
                lastMillisecond == timeNs / 1_000_000 && lastRandom == draw
      ensures timeNs / 1_000_000 <= old(lastMillisecond) ==>
                if old(lastRandom) == P74 - 1 then lastMillisecond == old(lastMillisecond) + 1 && lastRandom == 0
                else lastMillisecond == old(lastMillisecond) && lastRandom == old(lastRandom) + 1
      ensures value / P80 == lastMillisecond % P48 && (value / P76) % 16 == 7 && (value / P62) % 4 == 2
      ensures (value / P64) % 4096 * P62 + value % P62 == lastRandom
      ensures After(calls).millisecond < P48 ==>
                forall i :: 0 < i < |calls| && After(calls[..i]).millisecond >= 0 ==> Value(calls[..i]) < value
    {
      hide Pack, And, Pow, After, Value;
      AfterSound(calls);
      AfterAppend(calls, Call(timeNs, draw));
      TickCounts(State(lastMillisecond, lastRandom), timeNs / 1_000_000, draw);
      TickCases(State(lastMillisecond, lastRandom), timeNs / 1_000_000, draw);
      var millisecond := timeNs / 1_000_000;
      var random: nat;
      if millisecond > lastMillisecond {
        random := draw;
      } else {
        millisecond := lastMillisecond;
        random := And(lastRandom + 1, Ones(74));
        if random == 0 {
          millisecond := millisecond + 1;
        }
      }
      lastMillisecond := millisecond;
      lastRandom := random;
      calls := calls + [Call(timeNs, draw)];
      value := Pack(millisecond, random);
      ValueIs(calls);
      PackLayout(millisecond, random);
      if After(calls).millisecond < P48 {
        forall i | 0 < i < |calls| && After(calls[..i]).millisecond >= 0 ensures Value(calls[..i]) < value {
          StrictlyIncreasing(calls, i);
        }
      }
    }
  }

  lemma ValueIs(calls: seq<Call>)
    requires Drawn(calls)
    ensures Value(calls) == Pack(After(calls).millisecond, After(calls).random)
  {
    hide Pack, After;
  }
}
