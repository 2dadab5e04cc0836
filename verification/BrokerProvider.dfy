/**
 `MockBrokerProvider`: the in-memory broker with its fields updated in place. Clocks
 and random identifiers are parameters; identifiers are fresh.
 */
module BrokerProvider {
  import opened Options
  import opened Text
  import opened BrokerModels
  import opened BrokerLedger
  import opened BrokerLaws

  // ---- positions sorted by symbol ----

  predicate Keyed(m: Positions) {
    forall k :: k in m ==> m[k].symbol == k
  }

  /** `ps` lists exactly the positions of `m`, in strictly increasing order of symbol. */
  ghost predicate Listing(ps: seq<Position>, m: Positions) {
    && (forall i, j :: 0 <= i < j < |ps| ==> Below(ps[i].symbol, ps[j].symbol))
    && (forall i :: 0 <= i < |ps| ==> ps[i].symbol in m && ps[i] == m[ps[i].symbol])
    && (forall k :: k in m ==> m[k] in ps)
  }

  /** There is only one such list. */
  lemma {:induction false} ListingUnique(ps: seq<Position>, qs: seq<Position>, m: Positions)
    requires Keyed(m) && Listing(ps, m) && Listing(qs, m)
    ensures ps == qs
    decreases |ps|
  {
    hide Listing, Keyed;
    EmptyListing(ps, m);
    EmptyListing(qs, m);
    if ps != [] {
      var p := ps[|ps| - 1];
      SameLast(ps, qs, m);
      WithoutLast(ps, m);
      WithoutLast(qs, m);
      ListingUnique(ps[..|ps| - 1], qs[..|qs| - 1], m - {p.symbol});
      assert ps == ps[..|ps| - 1] + [p] && qs == qs[..|qs| - 1] + [p];
    }
  }

  lemma EmptyListing(ps: seq<Position>, m: Positions)
    requires Listing(ps, m)
    ensures ps == [] <==> m == map[]
  {
    if ps != [] {
      assert ps[0].symbol in m;
    }
  }

  lemma SameLast(ps: seq<Position>, qs: seq<Position>, m: Positions)
    requires Keyed(m) && Listing(ps, m) && Listing(qs, m) && ps != [] && qs != []
    ensures ps[|ps| - 1] == qs[|qs| - 1]
  {
    var p, q := ps[|ps| - 1], qs[|qs| - 1];
    assert p in qs && q in ps;
    LastIsGreatest(ps, q);
    LastIsGreatest(qs, p);
    if p != q {
      BelowTransitive(p.symbol, q.symbol, p.symbol);
      BelowIrreflexive(p.symbol);
    }
  }

  lemma LastIsGreatest(ps: seq<Position>, p: Position)
    requires forall i, j :: 0 <= i < j < |ps| ==> Below(ps[i].symbol, ps[j].symbol)
    requires p in ps
    ensures p == ps[|ps| - 1] || Below(p.symbol, ps[|ps| - 1].symbol)
  {}

  lemma WithoutLast(ps: seq<Position>, m: Positions)
    requires Keyed(m) && Listing(ps, m) && ps != []
    ensures Keyed(m - {ps[|ps| - 1].symbol}) && Listing(ps[..|ps| - 1], m - {ps[|ps| - 1].symbol})
  {
    var last := ps[|ps| - 1];
    forall i | 0 <= i < |ps| - 1 ensures ps[i].symbol != last.symbol {
      BelowIrreflexive(last.symbol);
    }
    forall k | k in m - {last.symbol} ensures m[k] in ps[..|ps| - 1] {
      assert m[k] in ps;
    }
  }

  method Sorted(m: Positions) returns (ps: seq<Position>)
    requires Keyed(m)
    ensures Listing(ps, m)
  {
    ps := [];
    var keys := m.Keys;
    while keys != {}
      invariant keys <= m.Keys
      invariant forall i, j :: 0 <= i < j < |ps| ==> Below(ps[i].symbol, ps[j].symbol)
      invariant forall i :: 0 <= i < |ps| ==> ps[i].symbol in m && ps[i] == m[ps[i].symbol]
      invariant forall i, k :: 0 <= i < |ps| && k in keys ==> Below(ps[i].symbol, k)
      invariant forall k :: k in m && k !in keys ==> m[k] in ps
      decreases keys
    {
      var k := Least(keys);
      ps := ps + [m[k]];
      keys := keys - {k};
    }
  }

  // ---- executions of one order ----

  function ForOrder(log: seq<Execution>, orderId: string): seq<Execution> {
    if log == [] then [] else
    (if log[0].orderId == orderId then [log[0]] else []) + ForOrder(log[1..], orderId)
  }

  predicate DistinctOrders(log: seq<Execution>) {
    forall i, j :: 0 <= i < j < |log| ==> log[i].orderId != log[j].orderId
  }

  lemma {:induction false} OneExecutionPerOrder(log: seq<Execution>, i: nat)
    requires DistinctOrders(log) && i < |log|
    ensures ForOrder(log, log[i].orderId) == [log[i]]
  {
    if i == 0 {
      NoExecution(log[1..], log[0].orderId);
    } else {
      assert log[0].orderId != log[i].orderId;
      OneExecutionPerOrder(log[1..], i - 1);
    }
  }

  lemma {:induction false} NoExecution(log: seq<Execution>, orderId: string)
    requires forall i :: 0 <= i < |log| ==> log[i].orderId != orderId
    ensures ForOrder(log, orderId) == []
  {
    if log != [] {
      NoExecution(log[1..], orderId);
    }
  }

  /** The filled order that a market execution belongs to. */
  function FilledOrder(e: Execution): Order {
    Order(e.orderId, e.symbol, e.side, Market, e.quantity, Filled, e.executedAt, e.executedAt, None)
  }

  /** Orders and executions are in bijection, and every order is filled. */
  predicate Matched(orders: map<string, Order>, log: seq<Execution>) {
    DistinctOrders(log) && |orders| == |log| && Placed(orders, log) && Executed(orders, log)
  }

  predicate Placed(orders: map<string, Order>, log: seq<Execution>) {
    forall i :: 0 <= i < |log| ==> log[i].orderId in orders && orders[log[i].orderId] == FilledOrder(log[i])
  }

  predicate Executed(orders: map<string, Order>, log: seq<Execution>) {
    forall id :: id in orders ==> exists i :: 0 <= i < |log| && log[i].orderId == id
  }

  lemma KeyedReplay(start: real, log: seq<Execution>)
    requires Replays(start, log)
    ensures Keyed(Replay(start, log).positions)
  {
    ReplayIsNet(start, log);
  }

  lemma AllAtAppend(log: seq<Execution>, e: Execution)
    requires AllAt(log, e.price)
    ensures AllAt(log + [e], e.price)
  {}

  lemma BoughtIs(positions: Positions, e: Execution, previousQuantity: real, previousCost: real)
    requires previousQuantity == if e.symbol in positions then positions[e.symbol].quantity else 0.0
    requires previousCost
          == if e.symbol in positions then positions[e.symbol].quantity * positions[e.symbol].averagePrice else 0.0
    ensures (previousCost + e.quantity * e.price) / (previousQuantity + e.quantity) > 0.0
    ensures Bought(positions, e) == Position(e.symbol, previousQuantity + e.quantity,
              (previousCost + e.quantity * e.price) / (previousQuantity + e.quantity), e.executedAt)
  {
    PositiveCost(previousQuantity, if e.symbol in positions then positions[e.symbol].averagePrice else 0.0, e);
  }

  class MockBrokerProvider {
    var connected: bool
    var orders: map<string, Order>
    var executions: seq<Execution>
    var positions: Positions
    var account: Account

    /** Everything the provider holds is what its execution log amounts to. */
    ghost predicate Valid()
      reads this
    {
      && Replays(STARTING_CASH, executions)
      && Replay(STARTING_CASH, executions) == Ledger(account.cash, positions)
      && AllAt(executions, MARKET_PRICE)
      && Matched(orders, executions)
      && Listing(account.positions, positions)
      && account.buyingPower == account.cash
      && account.equity == STARTING_CASH
    }

    constructor (accountId: string, now: Time)
      ensures Valid() && !connected && executions == [] && orders == map[] && positions == map[]
      ensures account == Account(accountId, 100000.0, 100000.0, 100000.0, now, [])
    {
      connected := false;
      orders := map[];
      executions := [];
      positions := map[];
      account := Account(accountId, STARTING_CASH, STARTING_CASH, STARTING_CASH, now, []);
    }

    method Connect()
      modifies this`connected
      ensures connected && Valid() == old(Valid())
    {
      connected := true;
    }

    method Disconnect()
      modifies this`connected
      ensures !connected && Valid() == old(Valid())
    {
      connected := false;
    }

    /** A valid broker knows exactly the orders of its log, each as the filled order of
        its one execution. */
    method GetOrder(orderId: string) returns (r: Result<Order>)
      ensures r == if !connected then Err(Disconnected)
                   else if orderId in orders then Ok(orders[orderId]) else Err(UnknownOrder)
      ensures Valid() && connected ==>
                (r.Ok? <==> exists i :: 0 <= i < |executions| && executions[i].orderId == orderId)
      ensures Valid() ==>
                forall i :: 0 <= i < |executions| && executions[i].orderId == orderId && r.Ok? ==>
                  && r.value.id == orderId && r.value.symbol == executions[i].symbol
                  && r.value.side == executions[i].side && r.value.quantity == executions[i].quantity
                  && r.value.orderType == Market && r.value.status == Filled && r.value.limitPrice == None
                  && r.value.createdAt == r.value.updatedAt == executions[i].executedAt
    {
      hide Listing, Replays, Replay;
      if !connected {
        return Err(Disconnected);
      }
      return if orderId in orders then Ok(orders[orderId]) else Err(UnknownOrder);
    }

    method GetExecutions(orderId: Option<string>) returns (r: Result<seq<Execution>>)
      ensures r == if !connected then Err(Disconnected)
                   else Ok(if orderId.None? then executions else ForOrder(executions, orderId.value))
      ensures Valid() && connected && orderId.Some? && orderId.value in orders ==>
                exists i :: 0 <= i < |executions| && executions[i].orderId == orderId.value && r == Ok([executions[i]])
    {
      if !connected {
        return Err(Disconnected);
      }
      if orderId.None? {
        return Ok(executions);
      }
      forall i | Valid() && 0 <= i < |executions|
        ensures ForOrder(executions, executions[i].orderId) == [executions[i]]
      {
        OneExecutionPerOrder(executions, i);
      }
      return Ok(ForOrder(executions, orderId.value));
    }

    method GetPositions() returns (r: Result<seq<Position>>)
      requires Keyed(positions)
      ensures !connected ==> r == Err(Disconnected)
      ensures connected ==> r.Ok? && Listing(r.value, positions)
    {
      if !connected {
        return Err(Disconnected);
      }
      var ps := Sorted(positions);
      return Ok(ps);
    }

    /** The snapshot of a valid broker is worth the starting cash, can spend exactly its
        cash, which is the start less the net cost of the log, and lists the positions. */
    method GetAccount() returns (r: Result<Account>)
      ensures r == if connected then Ok(account) else Err(Disconnected)
      ensures Valid() && connected ==>
                && r.Ok? && r.value.equity == STARTING_CASH
                && r.value.buyingPower == r.value.cash == STARTING_CASH - NetCost(executions)
                && r.value.cash + Sum(positions, MarketValue) == STARTING_CASH
                && Listing(r.value.positions, positions)
    {
      hide Listing, Sum, Matched, Fill, Replay, Replays, AllAt;
      if Valid() {
        ReplayIsNet(STARTING_CASH, executions);
        EquityIsConserved(STARTING_CASH, executions);
      }
      return if connected then Ok(account) else Err(Disconnected);
    }

    /** What a valid broker is, in terms of its execution log alone: cash and positions
        are net sums, bought at the market price, never overdrawn or short at any time,
        and every order is filled by the one execution that carries its identifier. */
    lemma Standing()
      requires Valid()
      ensures account.cash == STARTING_CASH - NetCost(executions)
      ensures forall k :: (k in positions <==> NetQuantity(executions, k) != 0.0)
      ensures forall k :: k in positions ==>
                positions[k].quantity == NetQuantity(executions, k) && positions[k].averagePrice == MARKET_PRICE
      ensures forall n :: 0 <= n <= |executions| ==> NetCost(executions[..n]) <= STARTING_CASH
      ensures forall n, k :: 0 <= n <= |executions| ==> NetQuantity(executions[..n], k) >= 0.0
      ensures forall id :: id in orders ==> orders[id].status.Filled? && |ForOrder(executions, id)| == 1
    {
      hide Listing, Fill, Replay, Replays, AllAt;
      ReplayIsNet(STARTING_CASH, executions);
      forall k | k in positions ensures positions[k].averagePrice == MARKET_PRICE {
        AveragesAtMarket(STARTING_CASH, executions, k);
      }
      forall n | 0 <= n <= |executions| ensures NetCost(executions[..n]) <= STARTING_CASH {
        NeverOverdrawn(STARTING_CASH, executions, n, "");
      }
      forall n, k | 0 <= n <= |executions| ensures NetQuantity(executions[..n], k) >= 0.0 {
        NeverOverdrawn(STARTING_CASH, executions, n, k);
      }
      forall id | id in orders ensures orders[id].status.Filled? && |ForOrder(executions, id)| == 1 {
        var i :| 0 <= i < |executions| && executions[i].orderId == id;
        OneExecutionPerOrder(executions, i);
      }
    }

    /** One fill at whatever price the execution has; a refused fill changes nothing. */
    method ApplyFill(e: Execution) returns (r: Result<()>)
      requires connected && Keyed(positions)
      modifies this`positions, this`account
      ensures var l := Ledger(old(account.cash), old(positions));
              if Fillable(l, e) then
                && r.Ok? && Ledger(account.cash, positions) == Fill(l, e) && Keyed(positions)
                && account.buyingPower == account.cash && Listing(account.positions, positions)
                && account.equity == old(account.equity) && account.id == old(account.id)
                && account.updatedAt == e.executedAt
              else
                && r == Err(if e.side.Buy? then InsufficientCash else InsufficientPosition)
                && positions == old(positions) && account == old(account)
    {
      hide Listing;
      var notional := e.quantity * e.price;
      var cash := account.cash;
      ghost var l := Ledger(account.cash, positions);
      if e.side.Buy? {
        if notional > cash {
          return Err(InsufficientCash);
        }
        var previousQuantity := if e.symbol in positions then positions[e.symbol].quantity else 0.0;
        var previousCost :=
          if e.symbol in positions then positions[e.symbol].quantity * positions[e.symbol].averagePrice else 0.0;
        var quantity := previousQuantity + e.quantity;
        BoughtIs(positions, e, previousQuantity, previousCost);
        hide Bought;
        var bought := Position(e.symbol, quantity, (previousCost + notional) / quantity, e.executedAt);
        positions := positions[e.symbol := bought];
        cash := cash - notional;
      } else {
        if e.symbol !in positions || e.quantity > positions[e.symbol].quantity {
          return Err(InsufficientPosition);
        }
        var existing := positions[e.symbol];
        var quantity := existing.quantity - e.quantity;
        if quantity == 0.0 {
          positions := positions - {e.symbol};
        } else {
          positions := positions[e.symbol := Position(existing.symbol, quantity, existing.averagePrice, e.executedAt)];
        }
        cash := cash + notional;
      }
      assert Ledger(cash, positions) == Fill(l, e);
      hide Fill;
      var listed := GetPositions();
      account := Account(account.id, cash, account.equity, cash, e.executedAt, listed.value);
      return Ok(());
    }

    /** Values the open positions at the market price. */
    method RefreshAccount(now: Time)
      requires connected && Keyed(positions)
      modifies this`account
      ensures account.cash == old(account.cash) == account.buyingPower
      ensures account.equity == account.cash + Sum(positions, MarketValue)
      ensures Listing(account.positions, positions) && account.updatedAt == now && account.id == old(account.id)
    {
      hide Listing;
      var value := 0.0;
      var rest := positions;
      while rest != map[]
        invariant account == old(account)
        invariant value + Sum(rest, MarketValue) == Sum(positions, MarketValue)
        decreases |rest|
      {
        var k :| k in rest;
        SumWithout(rest, MarketValue, k);
        value := value + rest[k].quantity * MARKET_PRICE;
        rest := rest - {k};
      }
      var listed := GetPositions();
      account := Account(account.id, account.cash, account.cash + value, account.cash, now, listed.value);
    }

    /** The execution that `place_order` makes of a request. */
    function ExecutionOf(request: OrderRequest, now: Time, orderId: string, executionId: string): Execution {
      Execution(executionId, orderId, request.symbol, request.side, request.quantity, MARKET_PRICE, now)
    }

    /** An order succeeds exactly when the broker is connected, the order is a market
        order, and it is affordable or covered; otherwise nothing at all changes. */
    method PlaceOrder(request: OrderRequest, now: Time, orderId: string, executionId: string) returns (r: Result<Order>)
      requires Valid() && orderId !in orders
      modifies this`orders, this`executions, this`positions, this`account
      ensures Valid()
      ensures r.Ok? <==> connected && request.orderType.Market?
                         && if request.side.Buy? then request.quantity * 100.0 <= old(account.cash)
                            else request.symbol in old(positions)
                                 && request.quantity <= old(positions)[request.symbol].quantity
      ensures r.Ok? ==>
                && r.value == Order(orderId, request.symbol, request.side, Market, request.quantity, Filled,
                                    now, now, None)
                && orders == old(orders)[orderId := r.value]
                && executions == old(executions) + [Execution(executionId, orderId, request.symbol, request.side,
                                                              request.quantity, 100.0, now)]
                && account.updatedAt == now && account.id == old(account.id)
                && account.cash == old(account.cash)
                                   + (if request.side.Buy? then -(request.quantity * 100.0)
                                      else request.quantity * 100.0)
                && forall k :: k != request.symbol ==>
                     && (k in positions <==> k in old(positions))
                     && (k in positions ==> positions[k] == old(positions)[k])
      ensures r.Err? ==>
                && orders == old(orders) && executions == old(executions)
                && positions == old(positions) && account == old(account)
      ensures r.Err? ==> r.error == if !connected then Disconnected else if request.orderType.Limit? then Unsupported
                                    else if request.side.Buy? then InsufficientCash else InsufficientPosition
    {
      hide Listing, Sum, Matched, Fill, Replay, Replays, AllAt, Keyed;
      if !connected {
        return Err(Disconnected);
      }
      if request.orderType.Limit? {
        return Err(Unsupported);
      }
      KeyedReplay(STARTING_CASH, executions);
      var order := Order(orderId, request.symbol, request.side, Market, request.quantity, Filled, now, now, None);
      var e := ExecutionOf(request, now, orderId, executionId);
      FillDoes(Ledger(account.cash, positions), e);
      var filled := ApplyFill(e);
      if filled.Err? {
        return Err(filled.error);
      }
      ReplayAppend(STARTING_CASH, executions, e);
      MatchedAppend(orders, executions, e);
      AllAtAppend(executions, e);
      orders := orders[order.id := order];
      executions := executions + [e];
      RefreshAccount(now);
      EquityIsConserved(STARTING_CASH, executions);
      return Ok(order);
    }

    /** Only a pending order can be cancelled. A valid broker has none, so cancelling
        never succeeds and never changes it. */
    method CancelOrder(orderId: string, now: Time) returns (r: Result<Order>)
      modifies this`orders
      ensures connected && orderId in old(orders) && old(orders)[orderId].status.Pending? ==>
                && r == Ok(old(orders)[orderId].(status := Cancelled, updatedAt := now))
                && orders == old(orders)[orderId := r.value]
      ensures !(connected && orderId in old(orders) && old(orders)[orderId].status.Pending?) ==>
                r.Err? && orders == old(orders)
      ensures old(Valid()) ==> r.Err? && Valid() && orders == old(orders)
    {
      if !connected {
        return Err(Disconnected);
      }
      var found := GetOrder(orderId);
      if found.Err? {
        return found;
      }
      var order := found.value;
      if !order.status.Pending? {
        return Err(NotPending);
      }
      var cancelled := Order(order.id, order.symbol, order.side, order.orderType, order.quantity, Cancelled,
                             order.createdAt, now, order.limitPrice);
      orders := orders[orderId := cancelled];
      return Ok(cancelled);
    }
  }

  lemma MatchedAppend(orders: map<string, Order>, log: seq<Execution>, e: Execution)
    requires Matched(orders, log) && e.orderId !in orders
    ensures Matched(orders[e.orderId := FilledOrder(e)], log + [e])
  {
    PlacedAppend(orders, log, e);
    ExecutedAppend(orders, log, e, FilledOrder(e));
    hide DistinctOrders, Placed, Executed, FilledOrder;
    assert orders[e.orderId := FilledOrder(e)].Keys == orders.Keys + {e.orderId};
  }

  lemma PlacedAppend(orders: map<string, Order>, log: seq<Execution>, e: Execution)
    requires DistinctOrders(log) && Placed(orders, log) && e.orderId !in orders
    ensures DistinctOrders(log + [e]) && Placed(orders[e.orderId := FilledOrder(e)], log + [e])
  {
    hide FilledOrder;
  }

  lemma ExecutedAppend(orders: map<string, Order>, log: seq<Execution>, e: Execution, order: Order)
    requires Executed(orders, log)
    ensures Executed(orders[e.orderId := order], log + [e])
  {
    var log' := log + [e];
    assert log'[|log|].orderId == e.orderId;
    forall id | id in orders ensures exists i :: 0 <= i < |log'| && log'[i].orderId == id {
      var i :| 0 <= i < |log| && log[i].orderId == id;
      assert log'[i].orderId == id;
    }
  }
}
