// What the matching transaction does to the order book: price-time priority of
// the book query, and which rows a settlement touches.
module Settlement {
  import opened Positions
  import opened Matching
  import opened Wrappers
  import opened Exchange

  // ----- The book query is price-time priority -----------------------------------

  ghost predicate InOrder(taker: Request, orders: seq<Order>, x: nat, y: nat)
    requires x < |orders| && y < |orders|
  {
    var p, q := orders[x].req.price, orders[y].req.price;
    Ahead(taker, p, q) || (!Ahead(taker, q, p) && x < y)
  }

  ghost predicate PriceTime(taker: Request, orders: seq<Order>, ids: seq<nat>)
  {
    && (forall i :: 0 <= i < |ids| ==> ids[i] < |orders|)
    && forall i, j :: 0 <= i < j < |ids| ==> ids[i] != ids[j] && InOrder(taker, orders, ids[i], ids[j])
  }

  lemma {:induction false} InsertKeepsOrder(taker: Request, orders: seq<Order>, ids: seq<nat>, id: nat)
    requires PriceTime(taker, orders, ids) && id < |orders| && forall i :: 0 <= i < |ids| ==> ids[i] < id
    ensures PriceTime(taker, orders, Insert(taker, orders, ids, id))
  {
    var n := |ids| - 1;
    if |ids| > 0 && Ahead(taker, orders[id].req.price, orders[ids[n]].req.price) {
      var init := ids[..n];
      InsertKeepsOrder(taker, orders, init, id);
      InsertMembers(taker, orders, init, id);
      var r := Insert(taker, orders, init, id);
      forall i | 0 <= i < |r| ensures r[i] != ids[n] && InOrder(taker, orders, r[i], ids[n]) {
        assert r[i] in r;
      }
    }
  }

  // The query returns exactly the rows it asks for ...
  lemma {:induction false} QueryMembers(taker: Request, orders: seq<Order>, n: nat)
    requires n <= |orders|
    ensures forall x: nat :: x in Query(taker, orders, n) <==> x < n && Selectable(taker, orders[x])
  {
    hide Insert, Selectable;
    if n > 0 {
      QueryMembers(taker, orders, n - 1);
      if Selectable(taker, orders[n - 1]) {
        InsertMembers(taker, orders, Query(taker, orders, n - 1), n - 1);
      }
    }
  }

  // ... best price first, oldest first at equal price.
  lemma {:induction false} QueryIsPriceTime(taker: Request, orders: seq<Order>, n: nat)
    requires n <= |orders|
    ensures PriceTime(taker, orders, Query(taker, orders, n))
  {
    hide Insert, Selectable, InOrder;
    if n > 0 {
      QueryIsPriceTime(taker, orders, n - 1);
      if Selectable(taker, orders[n - 1]) {
        InsertKeepsOrder(taker, orders, Query(taker, orders, n - 1), n - 1);
      }
    }
  }

  // So the greedy loop on the book is optimal for the incoming side.
  lemma MatchIsOptimal(m: Market, id: int, qty: nat, a: seq<nat>)
    requires 0 <= id < |m.orders|
    ensures var inc, rows := Taker(m, id, qty), BookRows(m, id);
            BestFirst(inc, rows)
            && (Feasible(inc, rows, a) && Total(a, |a|) == Volume(Proposed(m, id, qty)) ==>
                  Cost(inc, rows, Greedy(inc, rows), |rows|) <= Cost(inc, rows, a, |rows|))
  {
    var inc, rows := Taker(m, id, qty), BookRows(m, id);
    QueryIsPriceTime(m.orders[id].req, m.orders, |m.orders|);
    var ids := Query(m.orders[id].req, m.orders, |m.orders|);
    forall i, j | 0 <= i < j < |rows| && Eligible(inc, rows[i]) && Eligible(inc, rows[j])
      ensures UnitCost(inc, rows[i]) <= UnitCost(inc, rows[j])
    {
      assert InOrder(m.orders[id].req, m.orders, ids[i], ids[j]);
    }
    if Feasible(inc, rows, a) && Total(a, |a|) == Volume(Proposed(m, id, qty)) {
      FillsAllItCan(inc, rows, |rows|);
      GreedyTotal(inc, rows, |rows|);
      GreedyIsOptimal(inc, rows, a);
    }
  }

  // ----- The trades proposed --------------------------------------------------------

  // Everything settlement relies on about one trade of order `id`.
  ghost predicate Sane(orders: seq<Order>, id: int, t: Trade)
    requires 0 <= id < |orders|
  {
    var other := Other(id, t);
    && 0 <= other < |orders| && other != id
    && Selectable(orders[id].req, orders[other])
    && orders[other].remaining == t.left + t.quantity && t.left >= 0 && t.quantity > 0
    && orders[other].req.price == Some(t.price)
    && (if orders[id].req.side.Buy? then
          t.buyOrder == id && t.sellOrder == other && t.buyUser == orders[id].req.user &&
            t.sellUser == orders[other].req.user
        else
          t.sellOrder == id && t.buyOrder == other && t.sellUser == orders[id].req.user &&
            t.buyUser == orders[other].req.user)
  }

  function RestingOrder(inc: Incoming, t: Trade): int { if inc.side.Buy? then t.sellOrder else t.buyOrder }

  ghost predicate DistinctRows(inc: Incoming, ts: seq<Trade>)
  {
    forall j, k :: 0 <= j < k < |ts| ==> RestingOrder(inc, ts[j]) != RestingOrder(inc, ts[k])
  }

  lemma DistinctPush(inc: Incoming, ts: seq<Trade>, t: Trade)
    requires DistinctRows(inc, ts) && forall j :: 0 <= j < |ts| ==> RestingOrder(inc, ts[j]) != RestingOrder(inc, t)
    ensures DistinctRows(inc, ts + [t])
  {}

  lemma {:induction false} TradesHitDistinctRows(inc: Incoming, rows: seq<Resting>, n: nat)
    requires n <= |rows| && forall i, j :: 0 <= i < j < |rows| ==> rows[i].orderId != rows[j].orderId
    ensures DistinctRows(inc, TradesOf(inc, rows, n))
  {
    hide DistinctRows;
    if n == 0 {
      NoRows(inc);
    } else {
      TradesHitDistinctRows(inc, rows, n - 1);
      var ts := TradesOf(inc, rows, n - 1);
      if Taken(inc, rows, n - 1) > 0 {
        var t := TradeWith(inc, rows[n - 1], Taken(inc, rows, n - 1));
        forall j | 0 <= j < |ts| ensures RestingOrder(inc, ts[j]) != RestingOrder(inc, t) {
          RestingRow(inc, rows, n - 1, j);
        }
        DistinctPush(inc, ts, t);
      }
    }
  }

  lemma NoRows(inc: Incoming)
    ensures DistinctRows(inc, [])
  {}

  lemma RestingRow(inc: Incoming, rows: seq<Resting>, n: nat, j: nat)
    requires n <= |rows| && j < |TradesOf(inc, rows, n)|
    ensures exists i :: 0 <= i < n && RestingOrder(inc, TradesOf(inc, rows, n)[j]) == rows[i].orderId
  {
    var t := TradesOf(inc, rows, n)[j];
    TradesRespectBothSides(inc, rows, n, t);
    var i :| 0 <= i < n && Eligible(inc, rows[i]) && Taken(inc, rows, i) == t.quantity &&
      t == TradeWith(inc, rows[i], t.quantity);
    assert RestingOrder(inc, t) == rows[i].orderId;
  }

  lemma ProposedAreSane(m: Market, id: int, qty: nat)
    requires 0 <= id < |m.orders|
    ensures var ts := Proposed(m, id, qty);
            && (forall k :: 0 <= k < |ts| ==> Sane(m.orders, id, ts[k]))
            && (forall j, k :: 0 <= j < k < |ts| ==> Other(id, ts[j]) != Other(id, ts[k]))
            && Volume(ts) <= qty
    ensures |Proposed(m, id, qty)| > 0 ==> m.orders[id].req.price.Some?
    ensures forall t :: t in Proposed(m, id, qty) && m.orders[id].req.side.Buy? ==>
      t.price <= m.orders[id].req.price.value
  {
    var inc, rows, ts := Taker(m, id, qty), BookRows(m, id), Proposed(m, id, qty);
    var taker := m.orders[id].req;
    var ids := Query(taker, m.orders, |m.orders|);
    QueryIsPriceTime(taker, m.orders, |m.orders|);
    TradesHitDistinctRows(inc, rows, |rows|);
    assert DistinctRows(inc, ts);
    FillsAllItCan(inc, rows, |rows|);
    forall k | 0 <= k < |ts|
      ensures Sane(m.orders, id, ts[k]) && Other(id, ts[k]) == RestingOrder(inc, ts[k])
    {
      TradesRespectBothSides(inc, rows, |rows|, ts[k]);
      var i :| 0 <= i < |rows| && Eligible(inc, rows[i]) && Taken(inc, rows, i) == ts[k].quantity
               && ts[k] == TradeWith(inc, rows[i], ts[k].quantity);
      assert Selectable(taker, m.orders[ids[i]]);
    }
    forall t | t in ts ensures inc.price.Some? && (inc.side.Buy? ==> t.price <= inc.price.value) {
      TradesRespectBothSides(inc, rows, |rows|, t);
    }
    if |ts| > 0 { assert ts[0] in ts; }
  }

  // ----- The rows a settlement touches ------------------------------------------------

  lemma SideTouchesLedgersOnly(m: Market, user: int, side: Side, r: Request, qty: nat, price: real)
    ensures var s := SettleSide(m, user, side, r, qty, price);
            s.Some? ==>
              && price > 0.0
              && s.value.orders == m.orders && s.value.wallets == m.wallets && s.value.tape == m.tape
  {
    hide Filled, Blend;
  }

  lemma OneTouchesTwoRows(m: Market, id: int, left: nat, t: Trade)
    requires SettleOne(m, id, left, t).Some?
    ensures var other, m' := Other(id, t), SettleOne(m, id, left, t).value;
            && 0 <= id < |m.orders| && 0 <= other < |m.orders| && t.left >= 0 && t.price > 0.0
            && m'.orders == m.orders[other := Reported(m.orders[other], t.left)]
                              [id := Reported(if id == other then Reported(m.orders[other], t.left)
                                else m.orders[id], left)]
            && m'.tape == m.tape + [t]
            && t.sellUser in m.wallets
            && m'.wallets == m.wallets[t.sellUser := m.wallets[t.sellUser] + Value(t.quantity, t.price)]
  {
    hide SettleSide, Value, Reported;
    var other := Other(id, t);
    var marked := m.orders[other := Reported(m.orders[other], t.left)];
    var m1 := m.(tape := m.tape + [t], orders := marked[id := Reported(marked[id], left)]);
    SideTouchesLedgersOnly(m1, t.buyUser, Buy, m1.orders[t.buyOrder].req, t.quantity, t.price);
    var m2 := SettleSide(m1, t.buyUser, Buy, m1.orders[t.buyOrder].req, t.quantity, t.price).value;
    SideTouchesLedgersOnly(m2, t.sellUser, Sell, m1.orders[t.sellOrder].req, t.quantity, t.price);
  }

  // After settling the first `n` trades of order `id`.
  ghost predicate Settled(m: Market, m': Market, id: int, qty: nat, ts: seq<Trade>, n: nat)
    requires 0 <= id < |m.orders| && n <= |ts|
  {
    && |m'.orders| == |m.orders|
    && Volume(ts[..n]) <= qty
    && m'.orders[id] == (if n == 0 then m.orders[id] else Reported(m.orders[id], qty - Volume(ts[..n])))
    && (forall j :: 0 <= j < n ==> var o := Other(id, ts[j]);
          0 <= o < |m.orders| && ts[j].left >= 0 && m'.orders[o] == Reported(m.orders[o], ts[j].left))
    && (forall x :: 0 <= x < |m.orders| && x != id && (forall j :: 0 <= j < n ==> Other(id, ts[j]) != x) ==>
          m'.orders[x] == m.orders[x])
    && (forall x :: 0 <= x < |m.orders| ==> m'.orders[x].req == m.orders[x].req)
    && m'.tape == m.tape + ts[..n]
    && m'.wallets.Keys == m.wallets.Keys
  }

  ghost predicate GoodTrades(m: Market, id: int, ts: seq<Trade>)
    requires 0 <= id < |m.orders|
  {
    && (forall k :: 0 <= k < |ts| ==> Sane(m.orders, id, ts[k]))
    && (forall j, k :: 0 <= j < k < |ts| ==> Other(id, ts[j]) != Other(id, ts[k]))
  }

  lemma {:induction false} SettlementTouches(m: Market, id: int, qty: nat, ts: seq<Trade>, n: nat)
    requires 0 <= id < |m.orders| && n <= |ts| && GoodTrades(m, id, ts)
    requires SettleAll(m, id, qty, ts, n).Some?
    ensures Settled(m, SettleAll(m, id, qty, ts, n).value, id, qty, ts, n)
  {
    hide SettleOne, Settled, GoodTrades;
    if n > 0 {
      SettlementTouches(m, id, qty, ts, n - 1);
      SettledNext(m, SettleAll(m, id, qty, ts, n - 1).value, id, qty, ts, n);
    } else {
      NothingSettled(m, id, qty, ts);
    }
  }

  // Where the book stands just before the n-th trade.
  lemma BeforeTrade(m: Market, before: Market, id: int, qty: nat, ts: seq<Trade>, n: nat)
    requires 0 <= id < |m.orders| && 0 < n <= |ts| && GoodTrades(m, id, ts) && Settled(m, before, id, qty, ts, n - 1)
    ensures var other := Other(id, ts[n - 1]);
            && Sane(m.orders, id, ts[n - 1])
            && |before.orders| == |m.orders|
            && before.orders[other] == m.orders[other]
            && before.orders[id] == if n == 1 then m.orders[id] else Reported(m.orders[id], qty - Volume(ts[..n - 1]))
  {
    hide Sane, Volume, Reported;
    assert Sane(m.orders, id, ts[n - 1]);
    SaneRow(m.orders, id, ts[n - 1]);
  }

  lemma SaneRow(orders: seq<Order>, id: int, t: Trade)
    requires 0 <= id < |orders| && Sane(orders, id, t)
    ensures 0 <= Other(id, t) < |orders| && Other(id, t) != id && t.left >= 0 && t.quantity > 0
  {}

  lemma SettledNext(m: Market, before: Market, id: int, qty: nat, ts: seq<Trade>, n: nat)
    requires 0 <= id < |m.orders| && 0 < n <= |ts| && GoodTrades(m, id, ts)
    requires Settled(m, before, id, qty, ts, n - 1) && Volume(ts[..n]) <= qty
    requires SettleOne(before, id, qty - Volume(ts[..n]), ts[n - 1]).Some?
    ensures Settled(m, SettleOne(before, id, qty - Volume(ts[..n]), ts[n - 1]).value, id, qty, ts, n)
  {
    hide SettleOne, Sane, Value, Volume;
    var t, left := ts[n - 1], qty - Volume(ts[..n]);
    var other := Other(id, t);
    BeforeTrade(m, before, id, qty, ts, n);
    SaneRow(m.orders, id, t);
    VolumePush(ts, n);
    OneTouchesTwoRows(before, id, left, t);
    var after := SettleOne(before, id, left, t).value;
    forall j | 0 <= j < n
      ensures var o := Other(id, ts[j]);
              0 <= o < |m.orders| && ts[j].left >= 0 && after.orders[o] == Reported(m.orders[o], ts[j].left)
    {
      assert Sane(m.orders, id, ts[j]);
      SaneRow(m.orders, id, ts[j]);
    }
    forall x | 0 <= x < |m.orders| && x != id && (forall j :: 0 <= j < n ==> Other(id, ts[j]) != x)
      ensures after.orders[x] == m.orders[x]
    {
      assert Other(id, ts[n - 1]) != x;
    }
    assert m.tape + ts[..n] == m.tape + ts[..n - 1] + [t];
  }

  lemma NothingSettled(m: Market, id: int, qty: nat, ts: seq<Trade>)
    requires 0 <= id < |m.orders|
    ensures Settled(m, m, id, qty, ts, 0)
  {
    assert ts[..0] == [] && m.tape + [] == m.tape;
  }

  lemma VolumePush(ts: seq<Trade>, n: nat)
    requires 0 < n <= |ts|
    ensures ts[..n] == ts[..n - 1] + [ts[n - 1]]
    ensures Volume(ts[..n]) == Volume(ts[..n - 1]) + ts[n - 1].quantity
  {
    assert ts[..n][..n - 1] == ts[..n - 1];
  }
}
