// Where the conservation laws of the exchange stop holding, and exactly when.
module ExchangeLimits {
  import opened Positions
  import opened Matching
  import opened Wrappers
  import opened Exchange
  import opened Settlement
  import opened ExchangeMoney
  import opened ExchangeConservation
  import opened Sums

  // ----- Executing a stale quantity ----------------------------------------------------

  // A transaction that trades keeps the order's fills in step with its quantity
  // exactly when it runs for the quantity still unfilled.
  lemma FillsAccountedExactly(m: Market, id: int, qty: int)
    requires Accounted(m) && 0 <= id < |m.orders|
    ensures var m' := MatchStep(m, id, qty);
            m'.tape != m.tape ==>
              && id < |m'.orders|
              && (Traded(m'.tape, id) + m'.orders[id].remaining == m'.orders[id].req.quantity <==>
                qty == m.orders[id].remaining)
  {
    hide MatchStep, Traded;
    MatchAccounts(m, id, qty, id);
    MatchKeepsRequests(m, id, qty);
  }

  const SYM := "X"

  // An order of one unit, just placed.
  function Placed(user: int, side: Side, kind: Kind, price: real): Order
  {
    var start := if kind.Dormant() then PendingTrigger else Pending;
    Order(Request(user, SYM, side, kind, Some(price), if kind.Dormant() then Some(price) else None, 1, false, Equity),
          1, start, start)
  }

  function Awake(user: int, side: Side, kind: Kind): Order
  {
    Placed(user, side, kind, 10.0).(book := Pending, status := Pending)
  }

  function Done(user: int, side: Side, kind: Kind): Order { Reported(Placed(user, side, kind, 10.0), 0) }

  // Two dormant orders on opposite sides and a resting BUY.
  function Crowd(): Market
  {
    Market([Placed(1, Buy, StopLimit, 10.0), Placed(2, Sell, StopLimit, 10.0), Placed(3, Buy, Limit, 10.0)],
           map[1 := 0.0, 2 := 0.0, 3 := 0.0], map[], map[(2, SYM) := Holding(2, 1.0)], [])
  }

  // One price wakes both; check_and_trigger has read quantity 1 for each.  The
  // first execution fills the second order, whose own execution then sells its
  // quantity again.
  lemma StaleCaptureOverfills()
    ensures var m := Run(Crowd(), [Trigger(SYM, 10.0), Match(0, 1), Match(1, 1)]);
            && Accounted(Crowd()) && |m.orders| == 3
            && Traded(m.tape, 1) == 2 > m.orders[1].req.quantity == 1
  {
    hide Value, Blend, MatchStep;
    var s1, s2, s3 := Trigger(SYM, 10.0), Match(0, 1), Match(1, 1);
    var m0 := Crowd();
    var m1 := Apply(m0, s1);
    assert m1.orders == [Awake(1, Buy, StopLimit), Awake(2, Sell, StopLimit), Placed(3, Buy, Limit, 10.0)];
    FirstExecution(m1);
    var m2 := Apply(m1, s2);
    SecondExecution(m2);
    assert [s1, s2, s3][..2] == [s1, s2] && [s1, s2][..1] == [s1] && [s1][..0] == [];
    assert Run(m0, []) == m0;
    assert Run(m0, [s1]) == m1;
    assert Run(m0, [s1, s2]) == m2;
    var t1, t2 := Trade(0, 1, 1, 2, 1, 10.0, 0), Trade(2, 1, 3, 2, 1, 10.0, 0);
    assert [t1, t2][..1] == [t1] && [t1][..0] == [];
    assert Traded([], 1) == 0 && Traded([t1], 1) == 1 && Traded([t1, t2], 1) == 2;
  }

  // A book with one crossing row proposes one trade with it.
  lemma OneCandidate(m: Market, id: int, x: nat, price: real)
    requires 0 <= id < |m.orders| && x < |m.orders| && Query(m.orders[id].req, m.orders, |m.orders|) == [x]
    requires Selectable(m.orders[id].req, m.orders[x]) && m.orders[x].remaining == 1
    requires m.orders[id].req.price == m.orders[x].req.price == Some(price)
    ensures !IsUnpriced(Taker(m, id, 1), BookRows(m, id), |BookRows(m, id)|)
    ensures Proposed(m, id, 1) == [TradeWith(Taker(m, id, 1), BookRows(m, id)[0], 1)]
    ensures |BookRows(m, id)| == 1 && BookRows(m, id)[0] ==
      Matching.Resting.Resting(x, m.orders[x].req.user, m.orders[x].req.side, Some(price), 1)
  {
    hide Query;
    var inc, rows := Taker(m, id, 1), BookRows(m, id);
    assert Supply(inc, rows, 0) == 0 && Supply(inc, rows, 1) == 1;
    assert Taken(inc, rows, 0) == 1;
    assert TradesOf(inc, rows, 0) == [];
  }

  lemma OneTradeSettles(m: Market, id: int, t: Trade)
    ensures t.quantity <= 1 ==> SettleAll(m, id, 1, [t], 1) == SettleOne(m, id, 1 - t.quantity, t)
  {
    hide SettleOne;
    assert [t][..1] == [t] && [t][..0] == [];
    assert Volume([]) == 0 && Volume([t]) == t.quantity;
    assert SettleAll(m, id, 1, [t], 0) == Some(m);
  }

  lemma FirstExecution(m: Market)
    requires m.orders == [Awake(1, Buy, StopLimit), Awake(2, Sell, StopLimit), Placed(3, Buy, Limit, 10.0)]
    requires m.tape == [] && m.holdings == map[(2, SYM) := Holding(2, 1.0)] && 2 in m.wallets
    ensures var m' := MatchStep(m, 0, 1);
            && m'.orders == [Done(1, Buy, StopLimit), Done(2, Sell, StopLimit), Placed(3, Buy, Limit, 10.0)]
            && m'.tape == [Trade(0, 1, 1, 2, 1, 10.0, 0)]
            && m'.holdings == map[(2, SYM) := Holding(1, 1.0), (1, SYM) := Holding(1, 10.0)] && 2 in m'.wallets
  {
    hide Value, Blend;
    var taker := m.orders[0].req;
    assert Query(taker, m.orders, 0) == [];
    assert Query(taker, m.orders, 1) == [];
    assert Query(taker, m.orders, 2) == [1];
    assert Query(taker, m.orders, 3) == [1];
    OneCandidate(m, 0, 1, 10.0);
    OneTradeSettles(m, 0, Trade(0, 1, 1, 2, 1, 10.0, 0));
  }

  lemma SecondExecution(m: Market)
    requires m.orders == [Done(1, Buy, StopLimit), Done(2, Sell, StopLimit), Placed(3, Buy, Limit, 10.0)]
    requires m.tape == [Trade(0, 1, 1, 2, 1, 10.0, 0)] && 2 in m.wallets
    requires m.holdings == map[(2, SYM) := Holding(1, 1.0), (1, SYM) := Holding(1, 10.0)]
    ensures var m' := MatchStep(m, 1, 1);
            && m'.orders == [Done(1, Buy, StopLimit), Done(2, Sell, StopLimit), Done(3, Buy, Limit)]
            && m'.tape == [Trade(0, 1, 1, 2, 1, 10.0, 0), Trade(2, 1, 3, 2, 1, 10.0, 0)]
  {
    hide Value, Blend;
    var taker := m.orders[1].req;
    assert Query(taker, m.orders, 0) == [];
    assert Query(taker, m.orders, 1) == [];
    assert Query(taker, m.orders, 2) == [];
    assert Query(taker, m.orders, 3) == [2];
    OneCandidate(m, 1, 2, 10.0);
    OneTradeSettles(m, 1, Trade(2, 1, 3, 2, 1, 10.0, 0));
  }

  // ----- Waking a plain STOP --------------------------------------------------------------

  // A plain STOP adopts the last price, so its reservation is revalued.
  ghost function Repricing(symbol: string, ltp: real): Order -> real
  {
    (o: Order) =>
      if Wakes(o, symbol, ltp) && o.CashBuy() && o.req.kind == Stop && o.req.price.Some? then
        Value(o.remaining, ltp - o.req.price.value)
      else 0.0
  }

  // What waking orders does to cash plus reservations, exactly.
  lemma TriggerMoneyExactly(m: Market, symbol: string, ltp: real)
    requires Sound(m)
    ensures Money(TriggerStep(m, symbol, ltp)) == Money(m) + SeqSum(m.orders, Repricing(symbol, ltp))
  {
    hide Value;
    RepricingSum(m, symbol, ltp, |m.orders|);
    assert m.orders[..|m.orders|] == m.orders;
    var after := TriggerStep(m, symbol, ltp).orders;
    assert after[..|m.orders|] == after;
  }

  lemma {:induction false} RepricingSum(m: Market, symbol: string, ltp: real, n: nat)
    requires Sound(m) && n <= |m.orders|
    ensures SeqSum(TriggerStep(m, symbol, ltp).orders[..n], Reserved)
         == SeqSum(m.orders[..n], Reserved) + SeqSum(m.orders[..n], Repricing(symbol, ltp))
  {
    hide Sound, Woken, Reserved, Repricing;
    if n > 0 {
      RepricingSum(m, symbol, ltp, n - 1);
      var before, after := m.orders, TriggerStep(m, symbol, ltp).orders;
      assert before[..n][..n - 1] == before[..n - 1] && after[..n][..n - 1] == after[..n - 1];
      OrderIsSound(m, n - 1);
      RepricedOrder(before[n - 1], symbol, ltp);
    }
  }

  lemma OrderIsSound(m: Market, id: nat)
    requires Sound(m) && id < |m.orders|
    ensures OrderSound(m.orders[id])
  {}

  lemma RepricedOrder(o: Order, symbol: string, ltp: real)
    requires OrderSound(o)
    ensures Reserved(Woken(o, symbol, ltp)) == Reserved(o) + Repricing(symbol, ltp)(o)
  {
    hide Value;
    if o.req.price.Some? { ValueDiff(o.remaining, ltp, o.req.price.value); }
  }

  // So a BUY STOP placed at 10 and woken by a price of 15 refunds 15 on
  // cancellation: the wallet ends higher than it began.
  lemma WokenStopRefundsMore()
    ensures var m := Market([], map[1 := 10.0], map[], map[], []);
            var r := Request(1, SYM, Buy, Stop, Some(10.0), Some(12.0), 1, false, Equity);
            Run(m, [Place(r), Trigger(SYM, 15.0), Cancel(1, 0)]).wallets == map[1 := 15.0]
  {
    var m0 := Market([], map[1 := 10.0], map[], map[], []);
    var r := Request(1, SYM, Buy, Stop, Some(10.0), Some(12.0), 1, false, Equity);
    var s1, s2, s3 := Place(r), Trigger(SYM, 15.0), Cancel(1, 0);
    assert [s1, s2, s3][..2] == [s1, s2] && [s1, s2][..1] == [s1] && [s1][..0] == [];
    assert Run(m0, []) == m0;
    var m1 := Apply(m0, s1);
    assert Run(m0, [s1]) == m1;
    assert m1.wallets == map[1 := 0.0] && m1.orders == [Order(r, 1, PendingTrigger, PendingTrigger)];
    var m2 := Apply(m1, s2);
    assert Run(m0, [s1, s2]) == m2;
    assert m2.orders[0] == Order(r.(price := Some(15.0)), 1, Pending, Pending);
  }
}
