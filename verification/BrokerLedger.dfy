/**
 The ledger of the broker as values: what one fill does to cash and positions, and
 what a log of fills amounts to. A fill may have any positive price.
 */
module BrokerLedger {
  import opened BrokerModels

  type Positions = map<string, Position>
  datatype Ledger = Ledger(cash: real, positions: Positions)

  function Notional(e: Execution): real {
    e.quantity * e.price
  }

  predicate Affordable(l: Ledger, e: Execution) {
    Notional(e) <= l.cash
  }

  predicate Covered(l: Ledger, e: Execution) {
    e.symbol in l.positions && e.quantity <= l.positions[e.symbol].quantity
  }

  predicate Fillable(l: Ledger, e: Execution) {
    if e.side.Buy? then Affordable(l, e) else Covered(l, e)
  }

  /** The average price after buying: all cost so far over all quantity so far. */
  function Averaged(quantity: real, average: real, e: Execution): (r: Amount)
    requires quantity >= 0.0 && average >= 0.0
  {
    PositiveCost(quantity, average, e);
    (quantity * average + Notional(e)) / (quantity + e.quantity)
  }

  lemma PositiveCost(quantity: real, average: real, e: Execution)
    requires quantity >= 0.0 && average >= 0.0
    ensures (quantity * average + Notional(e)) / (quantity + e.quantity) > 0.0
  {
    assert quantity * average >= 0.0;
    assert Notional(e) > 0.0;
  }

  function Bought(positions: Positions, e: Execution): Position {
    var quantity := if e.symbol in positions then positions[e.symbol].quantity else 0.0;
    var average := if e.symbol in positions then positions[e.symbol].averagePrice else 0.0;
    Position(e.symbol, quantity + e.quantity, Averaged(quantity, average, e), e.executedAt)
  }

  function Fill(l: Ledger, e: Execution): Ledger
    requires Fillable(l, e)
  {
    if e.side.Buy? then
      Ledger(l.cash - Notional(e), l.positions[e.symbol := Bought(l.positions, e)])
    else
      var held := l.positions[e.symbol];
      if held.quantity == e.quantity then Ledger(l.cash + Notional(e), l.positions - {e.symbol})
      else Ledger(l.cash + Notional(e),
                  l.positions[e.symbol :=
                    Position(held.symbol, held.quantity - e.quantity, held.averagePrice, e.executedAt)])
  }

  /** What a fill does to cash and to the one position it is about. A purchase is refused
      only for lack of cash, a sale only for lack of the position. */
  lemma FillDoes(l: Ledger, e: Execution)
    ensures Fillable(l, e) <==>
            if e.side.Buy? then e.quantity * e.price <= l.cash
            else e.symbol in l.positions && e.quantity <= l.positions[e.symbol].quantity
    ensures Fillable(l, e) ==>
              var l' := Fill(l, e);
              && l'.cash == l.cash + (if e.side.Buy? then -(e.quantity * e.price) else e.quantity * e.price)
              && (forall k :: k != e.symbol ==>
                    && (k in l'.positions <==> k in l.positions)
                    && (k in l'.positions ==> l'.positions[k] == l.positions[k]))
              && (e.symbol in l'.positions ==> l'.positions[e.symbol].updatedAt == e.executedAt)
    ensures Fillable(l, e) && e.side.Sell? ==>
              var held, after := l.positions[e.symbol], Fill(l, e).positions;
              && (e.symbol !in after <==> held.quantity == e.quantity)
              && (e.symbol in after ==>
                    after[e.symbol] == Position(held.symbol, held.quantity - e.quantity, held.averagePrice,
                                                e.executedAt))
    ensures Fillable(l, e) && e.side.Buy? ==>
              var held := if e.symbol in l.positions then l.positions[e.symbol].quantity else 0.0;
              var average := if e.symbol in l.positions then l.positions[e.symbol].averagePrice else 0.0;
              var after := Fill(l, e).positions;
              && e.symbol in after && after[e.symbol].symbol == e.symbol
              && after[e.symbol].quantity == held + e.quantity
              && after[e.symbol].averagePrice == (held * average + e.quantity * e.price) / (held + e.quantity)
  {}

  // ---- logs of fills ----

  /** Every fill of the log was acceptable when it was made. */
  predicate Replays(start: real, log: seq<Execution>)
    decreases |log|, 0
  {
    log == [] || (Replays(start, log[..|log| - 1]) && Fillable(Replay(start, log[..|log| - 1]), log[|log| - 1]))
  }

  function Replay(start: real, log: seq<Execution>): Ledger
    requires Replays(start, log)
    decreases |log|, 1
  {
    if log == [] then Ledger(start, map[]) else Fill(Replay(start, log[..|log| - 1]), log[|log| - 1])
  }

  lemma ReplayAppend(start: real, log: seq<Execution>, e: Execution)
    requires Replays(start, log) && Fillable(Replay(start, log), e)
    ensures Replays(start, log + [e]) && Replay(start, log + [e]) == Fill(Replay(start, log), e)
  {
    assert (log + [e])[..|log|] == log;
  }

  // ---- what positions and cash are, without averaging ----

  function Signed(e: Execution): real {
    if e.side.Buy? then e.quantity else 0.0 - e.quantity
  }

  /** What the log bought of a symbol less what it sold. */
  function NetQuantity(log: seq<Execution>, symbol: string): real {
    if log == [] then 0.0 else
    var e := log[|log| - 1];
    NetQuantity(log[..|log| - 1], symbol) + if e.symbol == symbol then Signed(e) else 0.0
  }

  /** The cash the log paid out less the cash it took in. */
  function NetCost(log: seq<Execution>): real {
    if log == [] then 0.0 else
    var e := log[|log| - 1];
    NetCost(log[..|log| - 1]) + if e.side.Buy? then Notional(e) else -Notional(e)
  }

  /** Positions are exactly the net quantities, a symbol being absent when it nets to
      zero; cash is exactly the start less the net cost. */
  lemma {:induction false} ReplayIsNet(start: real, log: seq<Execution>)
    requires Replays(start, log)
    ensures var l := Replay(start, log);
            && l.cash == start - NetCost(log)
            && forall symbol ::
                 && (symbol in l.positions <==> NetQuantity(log, symbol) != 0.0)
                 && (symbol in l.positions ==>
                       l.positions[symbol].symbol == symbol && l.positions[symbol].quantity == NetQuantity(log, symbol))
  {
    if log != [] {
      ReplayIsNet(start, log[..|log| - 1]);
    }
  }

  /** No prefix of the log overdraws the cash or sells a symbol short. */
  lemma {:induction false} NeverOverdrawn(start: real, log: seq<Execution>, n: nat, symbol: string)
    requires Replays(start, log) && start >= 0.0 && n <= |log|
    ensures Replays(start, log[..n]) && Replay(start, log[..n]).cash >= 0.0
    ensures start - NetCost(log[..n]) >= 0.0 && NetQuantity(log[..n], symbol) >= 0.0
    decreases |log|
  {
    ReplayIsNet(start, log);
    hide Notional, Averaged, Bought, NetQuantity, NetCost;
    if n == |log| {
      assert log[..n] == log;
      if log != [] {
        NeverOverdrawn(start, log[..|log| - 1], |log| - 1, symbol);
        assert log[..|log| - 1][..|log| - 1] == log[..|log| - 1];
      }
    } else {
      NeverOverdrawn(start, log[..|log| - 1], n, symbol);
      assert log[..|log| - 1][..n] == log[..n];
    }
  }
}
