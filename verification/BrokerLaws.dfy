/**
 Laws of the ledger over any log of fills at any positive prices: where the money is,
 what an average price can be, and what follows when all fills have one price.
 */
module BrokerLaws {
  import opened BrokerModels
  import opened BrokerLedger

  // ---- sums over positions ----

  /** The order of the summands is not specified; `SumWithout` shows that it does not matter. */
  ghost function Sum(m: Positions, f: Position -> real): real {
    if m == map[] then 0.0 else
    var k :| k in m;
    f(m[k]) + Sum(m - {k}, f)
  }

  lemma {:induction false} SumWithout(m: Positions, f: Position -> real, k: string)
    requires k in m
    ensures Sum(m, f) == f(m[k]) + Sum(m - {k}, f)
    decreases |m|
  {
    var j :| j in m && Sum(m, f) == f(m[j]) + Sum(m - {j}, f);
    if j != k {
      SumWithout(m - {j}, f, k);
      SumWithout(m - {k}, f, j);
      assert m - {j} - {k} == m - {k} - {j};
    }
  }

  lemma SumUpdate(m: Positions, f: Position -> real, k: string, p: Position)
    ensures Sum(m[k := p], f) == Sum(m, f) + f(p) - if k in m then f(m[k]) else 0.0
  {
    SumWithout(m[k := p], f, k);
    assert m[k := p] - {k} == m - {k};
    if k in m {
      SumWithout(m, f, k);
    } else {
      assert m - {k} == m;
    }
  }

  // ---- cost basis ----

  function Cost(p: Position): real {
    p.quantity * p.averagePrice
  }

  /** The gain a fill realises: a sale earns its price less the average price paid. */
  function Gain(l: Ledger, e: Execution): real
    requires Fillable(l, e)
  {
    if e.side.Buy? then 0.0 else e.quantity * (e.price - l.positions[e.symbol].averagePrice)
  }

  function Realised(start: real, log: seq<Execution>): real
    requires Replays(start, log)
  {
    if log == [] then 0.0 else
    var before := log[..|log| - 1];
    Realised(start, before) + Gain(Replay(start, before), log[|log| - 1])
  }

  lemma AveragedCost(quantity: real, average: real, e: Execution)
    requires quantity >= 0.0 && average >= 0.0
    ensures (quantity + e.quantity) * Averaged(quantity, average, e) == quantity * average + Notional(e)
  {}

  lemma BoughtCost(l: Ledger, e: Execution, quantity: real, average: real)
    requires quantity == if e.symbol in l.positions then l.positions[e.symbol].quantity else 0.0
    requires average == if e.symbol in l.positions then l.positions[e.symbol].averagePrice else 0.0
    ensures Cost(Bought(l.positions, e)) == quantity * average + Notional(e)
  {
    AveragedCost(quantity, average, e);
    hide Averaged, Notional;
  }

  lemma BuyCost(l: Ledger, e: Execution)
    requires Fillable(l, e) && e.side.Buy?
    ensures Sum(Fill(l, e).positions, Cost) == Sum(l.positions, Cost) + Notional(e)
  {
    var quantity := if e.symbol in l.positions then l.positions[e.symbol].quantity else 0.0;
    var average := if e.symbol in l.positions then l.positions[e.symbol].averagePrice else 0.0;
    BoughtCost(l, e, quantity, average);
    SumUpdate(l.positions, Cost, e.symbol, Bought(l.positions, e));
    hide Sum, Averaged, Bought, Notional;
  }

  lemma SaleCost(l: Ledger, e: Execution)
    requires Fillable(l, e) && e.side.Sell?
    ensures Sum(Fill(l, e).positions, Cost)
         == Sum(l.positions, Cost) - e.quantity * l.positions[e.symbol].averagePrice
  {
    hide Sum;
    var held := l.positions[e.symbol];
    if held.quantity == e.quantity {
      SumWithout(l.positions, Cost, e.symbol);
    } else {
      SumUpdate(l.positions, Cost, e.symbol, Fill(l, e).positions[e.symbol]);
      Distribute(held.averagePrice, held.quantity - e.quantity, e.quantity);
    }
  }

  lemma Distribute(x: real, y: real, z: real)
    ensures x * (y + z) == x * y + x * z
  {}

  lemma FillCost(l: Ledger, e: Execution)
    requires Fillable(l, e)
    ensures var l' := Fill(l, e);
            l'.cash + Sum(l'.positions, Cost) == l.cash + Sum(l.positions, Cost) + Gain(l, e)
  {
    hide Sum, Bought;
    if e.side.Buy? {
      BuyCost(l, e);
    } else {
      SaleCost(l, e);
      var average := l.positions[e.symbol].averagePrice;
      Distribute(e.quantity, e.price - average, average);
    }
  }

  /** Cash and the cost of what is held are the starting cash and the realised gains. */
  lemma {:induction false} CostBasisIdentity(start: real, log: seq<Execution>)
    requires Replays(start, log)
    ensures var l := Replay(start, log); l.cash + Sum(l.positions, Cost) == start + Realised(start, log)
  {
    if log != [] {
      CostBasisIdentity(start, log[..|log| - 1]);
      FillCost(Replay(start, log[..|log| - 1]), log[|log| - 1]);
    }
  }

  // ---- bounds of an average price ----

  /** The purchases of a symbol since it was last flat. */
  function OpenBuys(log: seq<Execution>, symbol: string): seq<Execution> {
    if log == [] then [] else
    var e := log[|log| - 1];
    var before := OpenBuys(log[..|log| - 1], symbol);
    if e.symbol != symbol then before
    else if e.side.Buy? then before + [e]
    else if NetQuantity(log, symbol) == 0.0 then []
    else before
  }

  predicate PricesWithin(buys: seq<Execution>, low: real, high: real) {
    forall i :: 0 <= i < |buys| ==> low <= buys[i].price <= high
  }

  lemma AveragedWithin(quantity: real, average: real, e: Execution, low: real, high: real)
    requires quantity >= 0.0 && average >= 0.0 && low <= e.price <= high
    requires quantity > 0.0 ==> low <= average <= high
    ensures low <= Averaged(quantity, average, e) <= high
  {
    var averaged: real := Averaged(quantity, average, e);
    AveragedCost(quantity, average, e);
    Mixed(quantity, e.quantity, average, e.price, averaged, low);
    Mixed(quantity, e.quantity, 0.0 - average, 0.0 - e.price, 0.0 - averaged, 0.0 - high);
  }

  /** A weighted mean is at least what both of its terms are at least. */
  lemma Mixed(a: real, b: real, x: real, y: real, mean: real, low: real)
    requires a >= 0.0 && b > 0.0 && (a + b) * mean == a * x + b * y
    requires low <= y && (a > 0.0 ==> low <= x)
    ensures low <= mean
  {
    Scale(a, low, x);
    Scale(b, low, y);
    Distribute(low, a, b);
    assert (a + b) * low == low * (a + b);
    assert (a + b) * low <= (a + b) * mean;
    Unscale(a + b, low, mean);
  }

  lemma Scale(factor: real, x: real, y: real)
    requires factor >= 0.0 && (factor > 0.0 ==> x <= y)
    ensures factor * x <= factor * y
  {
    if factor == 0.0 {
      assert factor * x == 0.0 && factor * y == 0.0;
    }
  }

  lemma Unscale(factor: real, x: real, y: real)
    requires factor > 0.0 && factor * x <= factor * y
    ensures x <= y
  {}

  /** The average price of an open position lies between the lowest and the highest
      price paid since the symbol was last flat; there was at least one purchase since. */
  lemma {:induction false} AverageWithinPurchases(start: real, log: seq<Execution>, symbol: string, low: real,
                                                  high: real)
    requires Replays(start, log)
    ensures var l := Replay(start, log); var buys := OpenBuys(log, symbol);
            && (symbol !in l.positions ==> buys == [])
            && (symbol in l.positions ==> buys != [])
            && (symbol in l.positions && PricesWithin(buys, low, high) ==>
                  low <= l.positions[symbol].averagePrice <= high)
  {
    ReplayIsNet(start, log);
    if log != [] {
      var e := log[|log| - 1];
      var before := log[..|log| - 1];
      var l := Replay(start, before);
      ReplayIsNet(start, before);
      AverageWithinPurchases(start, before, symbol, low, high);
      if e.symbol == symbol && e.side.Buy? && PricesWithin(OpenBuys(log, symbol), low, high) {
        var buys := OpenBuys(before, symbol);
        assert OpenBuys(log, symbol) == buys + [e] && (buys + [e])[|buys|] == e;
        assert forall i :: 0 <= i < |buys| ==> (buys + [e])[i] == buys[i];
        if symbol in l.positions {
          AveragedWithin(l.positions[symbol].quantity, l.positions[symbol].averagePrice, e, low, high);
        } else {
          AveragedWithin(0.0, 0.0, e, low, high);
        }
      }
    }
  }

  function BuysOf(log: seq<Execution>, symbol: string): seq<Execution> {
    if log == [] then [] else
    var e := log[|log| - 1];
    BuysOf(log[..|log| - 1], symbol) + if e.symbol == symbol && e.side.Buy? then [e] else []
  }

  /** `n` fills in, the symbol was flat, and it was not flat again after any later fill. */
  predicate LastFlat(log: seq<Execution>, symbol: string, n: nat) {
    && n <= |log| && NetQuantity(log[..n], symbol) == 0.0
    && forall m :: n < m <= |log| && log[m - 1].symbol == symbol ==> NetQuantity(log[..m], symbol) != 0.0
  }

  /** The purchases that bound an average are exactly those since the symbol was last flat. */
  lemma {:induction false} OpenBuysSinceFlat(start: real, log: seq<Execution>, symbol: string, n: nat)
    requires Replays(start, log) && LastFlat(log, symbol, n)
    ensures OpenBuys(log, symbol) == BuysOf(log[n..], symbol)
    decreases |log|
  {
    if n == |log| {
      assert log[..n] == log;
      ReplayIsNet(start, log);
      AverageWithinPurchases(start, log, symbol, 0.0, 0.0);
    } else {
      var before, e := log[..|log| - 1], log[|log| - 1];
      assert before[..n] == log[..n] && log[..|log|] == log;
      forall m | n < m <= |before| && before[m - 1].symbol == symbol ensures NetQuantity(before[..m], symbol) != 0.0 {
        assert before[..m] == log[..m];
      }
      OpenBuysSinceFlat(start, before, symbol, n);
      assert log[n..][..|log[n..]| - 1] == before[n..];
    }
  }

  /** A sale moves no average price, and no fill touches the position of another symbol. */
  lemma SalesKeepAverages(l: Ledger, e: Execution, symbol: string)
    requires Fillable(l, e) && symbol in Fill(l, e).positions
    ensures e.side.Sell? ==>
              symbol in l.positions && Fill(l, e).positions[symbol].averagePrice == l.positions[symbol].averagePrice
    ensures e.symbol != symbol ==> symbol in l.positions && Fill(l, e).positions[symbol] == l.positions[symbol]
  {}

  /** Between two purchases of a symbol its average price is constant, whatever else is
      traded and however much of it is sold meanwhile. */
  lemma {:induction false} AverageBetweenPurchases(start: real, log: seq<Execution>, n: nat, symbol: string)
    requires Replays(start, log) && n <= |log| && symbol in Replay(start, log).positions
    requires forall i :: n <= i < |log| ==> !(log[i].symbol == symbol && log[i].side.Buy?)
    ensures Replays(start, log[..n]) && symbol in Replay(start, log[..n]).positions
    ensures Replay(start, log).positions[symbol].averagePrice == Replay(start, log[..n]).positions[symbol].averagePrice
    decreases |log|
  {
    hide Fill;
    if n == |log| {
      assert log[..n] == log;
    } else {
      var before, last := log[..|log| - 1], log[|log| - 1];
      SalesKeepAverages(Replay(start, before), last, symbol);
      AverageBetweenPurchases(start, before, n, symbol);
      assert before[..n] == log[..n];
    }
  }

  // ---- one market price ----

  predicate AllAt(log: seq<Execution>, price: real) {
    forall i :: 0 <= i < |log| ==> log[i].price == price
  }

  function MarketValue(p: Position): real {
    p.quantity * MARKET_PRICE
  }

  lemma {:induction false} AveragesAtMarket(start: real, log: seq<Execution>, symbol: string)
    requires Replays(start, log) && AllAt(log, MARKET_PRICE) && symbol in Replay(start, log).positions
    ensures Replay(start, log).positions[symbol].averagePrice == MARKET_PRICE
  {
    OpenBuysInLog(log, symbol);
    AverageWithinPurchases(start, log, symbol, MARKET_PRICE, MARKET_PRICE);
  }

  lemma {:induction false} OpenBuysInLog(log: seq<Execution>, symbol: string)
    ensures forall i :: 0 <= i < |OpenBuys(log, symbol)| ==> OpenBuys(log, symbol)[i] in log
  {
    if log != [] {
      OpenBuysInLog(log[..|log| - 1], symbol);
      assert log == log[..|log| - 1] + [log[|log| - 1]];
    }
  }

  lemma {:induction false} NoGainAtMarket(start: real, log: seq<Execution>)
    requires Replays(start, log) && AllAt(log, MARKET_PRICE)
    ensures Realised(start, log) == 0.0
  {
    if log != [] {
      var before := log[..|log| - 1];
      var e := log[|log| - 1];
      NoGainAtMarket(start, before);
      if e.side.Sell? {
        AveragesAtMarket(start, before, e.symbol);
      }
    }
  }

  lemma {:induction false} SumSame(m: Positions, f: Position -> real, g: Position -> real)
    requires forall k :: k in m ==> f(m[k]) == g(m[k])
    ensures Sum(m, f) == Sum(m, g)
    decreases |m|
  {
    if m != map[] {
      var k :| k in m && Sum(m, f) == f(m[k]) + Sum(m - {k}, f);
      SumWithout(m, g, k);
      SumSame(m - {k}, f, g);
    }
  }

  /** When every fill has the market price, equity never moves. */
  lemma EquityIsConserved(start: real, log: seq<Execution>)
    requires Replays(start, log) && AllAt(log, MARKET_PRICE)
    ensures var l := Replay(start, log); l.cash + Sum(l.positions, MarketValue) == start
  {
    hide *;
    CostBasisIdentity(start, log);
    NoGainAtMarket(start, log);
    CostIsMarketValue(start, log);
    SumSame(Replay(start, log).positions, Cost, MarketValue);
  }

  lemma CostIsMarketValue(start: real, log: seq<Execution>)
    requires Replays(start, log) && AllAt(log, MARKET_PRICE)
    ensures forall k :: k in Replay(start, log).positions ==>
              Cost(Replay(start, log).positions[k]) == MarketValue(Replay(start, log).positions[k])
  {
    hide Replays, Replay, AllAt;
    forall k | k in Replay(start, log).positions
      ensures Cost(Replay(start, log).positions[k]) == MarketValue(Replay(start, log).positions[k])
    {
      AveragesAtMarket(start, log, k);
    }
  }
}
