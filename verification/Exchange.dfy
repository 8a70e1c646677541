// The simulated exchange as its committed transactions: placing, amending and
// cancelling an order (api/orders.py), one matching transaction
// (service/executionEngine.py `_execute_matching` and `_process_trades`) and
// one wake-up of dormant orders (service/stopOrderTriggerService.py).  A row of
// `orders` and its row of `order_book` are one record here: `status` is the
// first table's column, `book` and `remaining` the second's.
module Exchange {
  import opened Positions
  import opened Matching
  import opened Wrappers

  datatype Kind = MarketOrder | Limit | Stop | StopLimit
  {
    // is_dormant_order_type
    predicate Dormant() { Stop? || StopLimit? }
  }

  datatype Status = Pending | PendingTrigger | PartiallyExecuted | Executed | Cancelled | Failed

  datatype Contract = Equity | Option | Futures

  // What a client submits.
  datatype Request = Request(user: int, symbol: string, side: Side, kind: Kind, price: Option<real>,
                             trigger: Option<real>, quantity: int, fo: bool, contract: Contract)
  {
    // OrderCreate's field constraints.
    predicate Valid()
    {
      quantity > 0 && (price.Some? ==> price.value > 0.0) && (trigger.Some? ==> trigger.value > 0.0)
    }
  }

  datatype Order = Order(req: Request, remaining: nat, book: Status, status: Status)
  {
    predicate Open() { book == Pending || book == PendingTrigger || book == PartiallyExecuted }

    // Quantity still resting in the order book, dormant or not.
    function OpenQty(): nat { if Open() then remaining else 0 }

    predicate Unfilled() { status == Pending || status == PendingTrigger }

    // A BUY paid for out of the wallet when it was placed.
    predicate CashBuy() { req.side.Buy? && req.contract != Futures }

    // MarginEngine.is_margin_required
    predicate MarginRequired() { req.contract != Equity && req.fo && (req.contract == Futures || req.side.Sell?) }
  }

  datatype Holding = Holding(quantity: int, avgPrice: real)

  datatype Market = Market(orders: seq<Order>, wallets: map<int, real>, positions: map<(int, string), Figures>,
                           holdings: map<(int, string), Holding>, tape: seq<Trade>)

  datatype Step =
    | Place(req: Request)
    | Cancel(user: int, id: int)
    | Amend(user: int, id: int, price: Option<real>, quantity: Option<int>, trigger: Option<real>)
    | Match(id: int, qty: int)         // one run of the matching transaction for `qty` units of order `id`
    | Trigger(symbol: string, ltp: real)

  // ----- Wallet statements ----------------------------------------------------

  // debitWalletIfSufficient
  predicate CanDebit(m: Market, user: int, amount: real)
  {
    user in m.wallets && m.wallets[user] >= amount
  }

  // An increment of a wallet that does not exist touches no row.
  function Credit(m: Market, user: int, amount: real): Market
  {
    if user in m.wallets then m.(wallets := m.wallets[user := m.wallets[user] + amount]) else m
  }

  // ----- Place, cancel, amend ---------------------------------------------------

  function PlaceStep(m: Market, r: Request): Market
  {
    var dormant := if r.kind.Dormant() then PendingTrigger else Pending;
    if !r.Valid() then m
    else
      var o := Order(r, r.quantity, dormant, dormant);
      if o.CashBuy() then
        if r.price.Some? && CanDebit(m, r.user, Value(r.quantity, r.price.value)) then
          Credit(m, r.user, -Value(r.quantity, r.price.value)).(orders := m.orders + [o])
        else m
      else m.(orders := m.orders + [o])
  }

  // The guard of the cancel and modify statements.
  predicate Touchable(m: Market, user: int, id: int)
  {
    0 <= id < |m.orders| && m.orders[id].req.user == user && m.orders[id].Unfilled()
  }

  function CancelStep(m: Market, user: int, id: int): Market
  {
    if !Touchable(m, user, id) then m
    else
      var o := m.orders[id];
      var closed := m.(orders := m.orders[id :=
        o.(status := Cancelled, book := if o.Open() then Cancelled else o.book)]);
      if o.CashBuy() && o.req.price.Some? && o.req.price.value > 0.0 && o.req.quantity > 0 then
        Credit(closed, user, Value(o.req.quantity, o.req.price.value))
      else closed
  }

  function Coalesce<T>(a: Option<T>, b: Option<T>): Option<T> { if a.Some? then a else b }

  function AmendStep(m: Market, user: int, id: int, price: Option<real>, quantity: Option<int>,
      trigger: Option<real>): Market
  {
    if (price.None? && quantity.None? && trigger.None?) || !Touchable(m, user, id) || m.orders[id].MarginRequired()
      || (price.Some? && price.value <= 0.0) || (quantity.Some? && quantity.value <= 0)
      || (trigger.Some? && trigger.value <= 0.0) then m
    else
      var o := m.orders[id];
      var newQty := if quantity.Some? then quantity.value else o.req.quantity;
      var newPrice := Coalesce(price, o.req.price);
      var r := o.req.(price := newPrice, quantity := newQty, trigger := Coalesce(trigger, o.req.trigger));
      var amended := o.(req := r, remaining := if quantity.Some? then newQty else o.remaining);
      if !o.CashBuy() then m.(orders := m.orders[id := amended])
      else if newPrice.None? then m
      else
        var held := if o.req.price.Some? then Value(o.req.quantity, o.req.price.value) else 0.0;
        var delta := Value(newQty, newPrice.value) - held;
        if delta > 0.0 && !CanDebit(m, user, delta) then m
        else Credit(m, user, -delta).(orders := m.orders[id := amended])
  }

  // ----- Triggering -----------------------------------------------------------

  // StopOrderTriggerService._trigger_condition_met: the price the order wakes
  // up with, if the last price wakes it.
  function WakePrice(r: Request, ltp: real): Option<real>
  {
    if r.trigger.None? || (r.side.Buy? && ltp < r.trigger.value) || (r.side.Sell? && ltp > r.trigger.value) then None
    else if r.kind == Stop || r.price.None? then Some(ltp)
    else r.price
  }

  predicate Wakes(o: Order, symbol: string, ltp: real)
  {
    o.book == PendingTrigger && o.req.symbol == symbol && WakePrice(o.req, ltp).Some?
  }

  function Woken(o: Order, symbol: string, ltp: real): Order
  {
    if Wakes(o, symbol, ltp) then o.(req := o.req.(price := WakePrice(o.req, ltp)), book := Pending, status := Pending)
    else o
  }

  function TriggerStep(m: Market, symbol: string, ltp: real): Market
  {
    m.(orders := seq(|m.orders|, i requires 0 <= i < |m.orders| => Woken(m.orders[i], symbol, ltp)))
  }

  // ----- The book query ---------------------------------------------------------

  // select_sell_orders / select_buy_orders, WHERE clause.
  predicate Selectable(taker: Request, o: Order)
  {
    && o.req.symbol == taker.symbol && o.req.side != taker.side && o.req.user != taker.user
    && (o.book == Pending || o.book == PartiallyExecuted) && o.remaining > 0
  }

  // ORDER BY price ASC against a BUY, DESC against a SELL; NULL sorts as the
  // greatest value.
  predicate Ahead(taker: Request, p: Option<real>, q: Option<real>)
  {
    if taker.side.Buy? then p.Some? && (q.None? || p.value < q.value)
    else q.Some? && (p.None? || p.value > q.value)
  }

  // Equal prices keep creation order: `id` is newer than all of `ids`.
  function Insert(taker: Request, orders: seq<Order>, ids: seq<nat>, id: nat): seq<nat>
    requires id < |orders| && forall i :: 0 <= i < |ids| ==> ids[i] < |orders|
  {
    if |ids| > 0 && Ahead(taker, orders[id].req.price, orders[ids[|ids| - 1]].req.price) then
      Insert(taker, orders, ids[..|ids| - 1], id) + [ids[|ids| - 1]]
    else ids + [id]
  }

  function Query(taker: Request, orders: seq<Order>, n: nat): (ids: seq<nat>)
    requires n <= |orders|
    ensures forall i :: 0 <= i < |ids| ==> ids[i] < n && Selectable(taker, orders[ids[i]])
  {
    if n == 0 then []
    else
      var ids := Query(taker, orders, n - 1);
      if Selectable(taker, orders[n - 1]) then
        InsertMembers(taker, orders, ids, n - 1);
        var r := Insert(taker, orders, ids, n - 1);
        assert forall i :: 0 <= i < |r| ==> r[i] in r;
        r
      else ids
  }

  lemma {:induction false} InsertMembers(taker: Request, orders: seq<Order>, ids: seq<nat>, id: nat)
    requires id < |orders| && forall i :: 0 <= i < |ids| ==> ids[i] < |orders|
    ensures var r := Insert(taker, orders, ids, id);
            |r| == |ids| + 1 && multiset(r) == multiset(ids) + multiset{id}
    ensures forall x :: x in Insert(taker, orders, ids, id) <==> x in ids || x == id
  {
    var n := |ids| - 1;
    if |ids| > 0 {
      assert ids == ids[..n] + [ids[n]];
      if Ahead(taker, orders[id].req.price, orders[ids[n]].req.price) {
        InsertMembers(taker, orders, ids[..n], id);
      }
    }
    var r := Insert(taker, orders, ids, id);
    forall x ensures x in r <==> x in ids || x == id {
      assert x in r <==> x in multiset(r);
      assert x in ids <==> x in multiset(ids);
    }
  }

  // ----- The matching transaction -----------------------------------------------

  function RowsFor(orders: seq<Order>, ids: seq<nat>): (rows: seq<Resting>)
    requires forall i :: 0 <= i < |ids| ==> ids[i] < |orders|
    ensures |rows| == |ids|
  {
    seq(|ids|, i requires 0 <= i < |ids| =>
      var o := orders[ids[i]]; Resting(ids[i], o.req.user, o.req.side, o.req.price, o.remaining))
  }

  function Taker(m: Market, id: int, qty: nat): Incoming
    requires 0 <= id < |m.orders|
  {
    var r := m.orders[id].req;
    Incoming(id, r.user, r.side, r.price, qty)
  }

  function BookRows(m: Market, id: int): seq<Resting>
    requires 0 <= id < |m.orders|
  {
    RowsFor(m.orders, Query(m.orders[id].req, m.orders, |m.orders|))
  }

  function Proposed(m: Market, id: int, qty: nat): seq<Trade>
    requires 0 <= id < |m.orders|
  {
    var rows := BookRows(m, id);
    TradesOf(Taker(m, id, qty), rows, |rows|)
  }

  function Other(id: int, t: Trade): int { if t.buyOrder == id then t.sellOrder else t.buyOrder }

  // TradeSettlementService.settle_fill; None where it raises.
  function SettleSide(m: Market, user: int, side: Side, r: Request, qty: nat, price: real): Option<Market>
  {
    var k := (user, r.symbol);
    if qty == 0 || price <= 0.0 then None
    else if r.fo then
      Some(m.(positions := m.positions[k :=
        Filled(if k in m.positions then m.positions[k] else FLAT, Fill(side, qty, price))]))
    else if side.Buy? then
      if k !in m.holdings then Some(m.(holdings := m.holdings[k := Holding(qty, price)]))
      else
        var h := m.holdings[k];
        if h.quantity < 0 then Some(m)
        else Some(m.(holdings := m.holdings[k := Holding(h.quantity + qty, Blend(h.quantity, h.avgPrice, qty, price))]))
    else
      if k !in m.holdings || qty > m.holdings[k].quantity then None
      else Some(m.(holdings := m.holdings[k := m.holdings[k].(quantity := m.holdings[k].quantity - qty)]))
  }

  function FillStatus(left: nat): Status { if left == 0 then Executed else PartiallyExecuted }

  function Reported(o: Order, left: nat): Order
  {
    o.(remaining := left, book := FillStatus(left), status := FillStatus(left))
  }

  // One turn of _process_trades' loop; `left` is what the incoming order still lacks.
  function SettleOne(m: Market, id: int, left: nat, t: Trade): Option<Market>
  {
    var other := Other(id, t);
    if !(0 <= id < |m.orders| && 0 <= other < |m.orders|
         && 0 <= t.buyOrder < |m.orders| && 0 <= t.sellOrder < |m.orders|
         && t.left >= 0) then None
    else
      var marked := m.orders[other := Reported(m.orders[other], t.left)];
      var m1 := m.(tape := m.tape + [t], orders := marked[id := Reported(marked[id], left)]);
      var m2 := SettleSide(m1, t.buyUser, Buy, m1.orders[t.buyOrder].req, t.quantity, t.price);
      if m2.None? then None else
      var m3 := SettleSide(m2.value, t.sellUser, Sell, m1.orders[t.sellOrder].req, t.quantity, t.price);
      if m3.None? || t.sellUser !in m3.value.wallets then None
      else Some(Credit(m3.value, t.sellUser, Value(t.quantity, t.price)))
  }

  function SettleAll(m: Market, id: int, qty: nat, trades: seq<Trade>, n: nat): Option<Market>
    requires n <= |trades|
  {
    if n == 0 then Some(m)
    else
      var before := SettleAll(m, id, qty, trades, n - 1);
      var matched := Volume(trades[..n]);
      if before.None? || matched > qty then None
      else SettleOne(before.value, id, qty - matched, trades[n - 1])
  }

  // The whole transaction.  A raise rolls it back and marks the order FAILED.
  function MatchStep(m: Market, id: int, qty: int): Market
  {
    if !(0 <= id < |m.orders|) || qty <= 0 || m.orders[id].book == PendingTrigger then m
    else
      var trades := Proposed(m, id, qty);
      var settled := SettleAll(m, id, qty, trades, |trades|);
      if IsUnpriced(Taker(m, id, qty), BookRows(m, id), |BookRows(m, id)|) || settled.None? then
        m.(orders := m.orders[id := m.orders[id].(status := Failed)])
      else settled.value
  }

  // Matching.Unpriced over the first `n` rows.
  predicate IsUnpriced(inc: Incoming, rows: seq<Resting>, n: nat)
    requires n <= |rows|
    ensures IsUnpriced(inc, rows, n) <==>
      exists i :: 0 <= i < n && Supply(inc, rows, i) < inc.quantity && (inc.price.None? || rows[i].price.None?)
  {
    if n == 0 then false
    else
      || IsUnpriced(inc, rows, n - 1)
      || (Supply(inc, rows, n - 1) < inc.quantity && (inc.price.None? || rows[n - 1].price.None?))
  }

  function Apply(m: Market, s: Step): Market
  {
    match s
    case Place(r) => PlaceStep(m, r)
    case Cancel(user, id) => CancelStep(m, user, id)
    case Amend(user, id, price, quantity, trigger) => AmendStep(m, user, id, price, quantity, trigger)
    case Match(id, qty) => MatchStep(m, id, qty)
    case Trigger(symbol, ltp) => TriggerStep(m, symbol, ltp)
  }

  function Run(m: Market, steps: seq<Step>): Market
  {
    if |steps| == 0 then m else Apply(Run(m, steps[..|steps| - 1]), steps[|steps| - 1])
  }
}
