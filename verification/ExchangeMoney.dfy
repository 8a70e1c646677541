// Money on the exchange: wallet cash plus the cash set aside for open BUY
// orders, over any run of transactions.
module ExchangeMoney {
  import opened Positions
  import opened Matching
  import opened Wrappers
  import opened Exchange
  import opened Settlement
  import opened Sums

  // ----- What every transaction keeps ----------------------------------------------

  ghost predicate OrderSound(o: Order)
  {
    && o.req.quantity > 0
    && (o.Unfilled() ==> o.book == o.status && o.remaining == o.req.quantity)
    && (o.book == PendingTrigger ==> o.status == PendingTrigger)
    && (o.CashBuy() ==> o.req.price.Some?)
    && (o.CashBuy() && o.req.kind != Stop ==> o.req.price.value > 0.0)
  }

  ghost predicate OrdersSound(m: Market)
  {
    forall i :: 0 <= i < |m.orders| ==>
      OrderSound(m.orders[i]) && (m.orders[i].CashBuy() ==> m.orders[i].req.user in m.wallets)
  }

  ghost predicate LedgersSound(m: Market)
  {
    && (forall k :: k in m.holdings ==> m.holdings[k].quantity >= 0)
    && (forall k :: k in m.positions && m.positions[k].netqty == 0 ==> m.positions[k].netavgprc == 0.0)
    && (forall u :: u in m.wallets ==> m.wallets[u] >= 0.0)
  }

  ghost predicate Sound(m: Market) { OrdersSound(m) && LedgersSound(m) }

  lemma PlaceKeepsSound(m: Market, r: Request)
    requires Sound(m)
    ensures Sound(PlaceStep(m, r))
  {
    hide Value;
  }

  lemma CancelKeepsSound(m: Market, user: int, id: int)
    requires Sound(m)
    ensures Sound(CancelStep(m, user, id))
  {
    hide Value;
    if Touchable(m, user, id) {
      var o := m.orders[id];
      if o.req.price.Some? && o.req.price.value > 0.0 { ValueSign(o.req.quantity, o.req.price.value); }
    }
  }

  lemma AmendKeepsSound(m: Market, user: int, id: int, price: Option<real>, quantity: Option<int>,
      trigger: Option<real>)
    requires Sound(m)
    ensures Sound(AmendStep(m, user, id, price, quantity, trigger))
  {
    hide Value;
  }

  lemma TriggerKeepsSound(m: Market, symbol: string, ltp: real)
    requires Sound(m)
    ensures Sound(TriggerStep(m, symbol, ltp))
  {}

  lemma SideKeepsLedgers(m: Market, user: int, side: Side, r: Request, qty: nat, price: real)
    requires LedgersSound(m)
    ensures var s := SettleSide(m, user, side, r, qty, price); s.Some? ==> LedgersSound(s.value)
  {
    hide Blend, Value;
  }

  lemma OneKeepsLedgers(m: Market, id: int, left: nat, t: Trade)
    requires LedgersSound(m) && SettleOne(m, id, left, t).Some?
    ensures LedgersSound(SettleOne(m, id, left, t).value)
  {
    hide SettleSide, Value;
    var other := Other(id, t);
    var marked := m.orders[other := Reported(m.orders[other], t.left)];
    var m1 := m.(tape := m.tape + [t], orders := marked[id := Reported(marked[id], left)]);
    SideTouchesLedgersOnly(m1, t.buyUser, Buy, m1.orders[t.buyOrder].req, t.quantity, t.price);
    SideKeepsLedgers(m1, t.buyUser, Buy, m1.orders[t.buyOrder].req, t.quantity, t.price);
    var m2 := SettleSide(m1, t.buyUser, Buy, m1.orders[t.buyOrder].req, t.quantity, t.price).value;
    SideKeepsLedgers(m2, t.sellUser, Sell, m1.orders[t.sellOrder].req, t.quantity, t.price);
    SideTouchesLedgersOnly(m2, t.sellUser, Sell, m1.orders[t.sellOrder].req, t.quantity, t.price);
    ValueSign(t.quantity, t.price);
  }

  lemma {:induction false} SettlementKeepsLedgers(m: Market, id: int, qty: nat, ts: seq<Trade>, n: nat)
    requires n <= |ts| && LedgersSound(m) && SettleAll(m, id, qty, ts, n).Some?
    ensures LedgersSound(SettleAll(m, id, qty, ts, n).value)
  {
    hide SettleOne, LedgersSound;
    if n > 0 {
      SettlementKeepsLedgers(m, id, qty, ts, n - 1);
      OneKeepsLedgers(SettleAll(m, id, qty, ts, n - 1).value, id, qty - Volume(ts[..n]), ts[n - 1]);
    }
  }

  // A settled row is either untouched or reported as filled.
  lemma SettledRow(m: Market, m': Market, id: int, qty: nat, ts: seq<Trade>, n: nat, x: nat)
    requires 0 <= id < |m.orders| && n <= |ts| && Settled(m, m', id, qty, ts, n) && x < |m.orders|
    ensures m'.orders[x].req == m.orders[x].req
    ensures m'.orders[x] == m.orders[x] || m'.orders[x] == Reported(m.orders[x], m'.orders[x].remaining)
  {}

  lemma SettlementKeepsOrders(m: Market, m': Market, id: int, qty: nat, ts: seq<Trade>, n: nat)
    requires 0 <= id < |m.orders| && n <= |ts| && Settled(m, m', id, qty, ts, n) && OrdersSound(m)
    ensures OrdersSound(m')
  {
    hide Settled;
    assert |m'.orders| == |m.orders| && m'.wallets.Keys == m.wallets.Keys by { SameTables(m, m', id, qty, ts, n); }
    forall x | 0 <= x < |m'.orders|
      ensures OrderSound(m'.orders[x]) && (m'.orders[x].CashBuy() ==> m'.orders[x].req.user in m'.wallets)
    {
      SettledRow(m, m', id, qty, ts, n, x);
    }
  }

  lemma SameTables(m: Market, m': Market, id: int, qty: nat, ts: seq<Trade>, n: nat)
    requires 0 <= id < |m.orders| && n <= |ts| && Settled(m, m', id, qty, ts, n)
    ensures |m'.orders| == |m.orders| && m'.wallets.Keys == m.wallets.Keys
  {}

  lemma MatchKeepsSound(m: Market, id: int, qty: int)
    requires Sound(m)
    ensures Sound(MatchStep(m, id, qty))
  {
    hide Proposed, SettleAll, LedgersSound, OrdersSound, IsUnpriced, BookRows;
    if 0 <= id < |m.orders| && qty > 0 && m.orders[id].book != PendingTrigger {
      SettledKeepsSound(m, id, qty);
      FailedKeepsSound(m, id);
    }
  }

  lemma SettledKeepsSound(m: Market, id: int, qty: nat)
    requires Sound(m) && 0 <= id < |m.orders|
    ensures var ts := Proposed(m, id, qty);
            var s := SettleAll(m, id, qty, ts, |ts|);
            s.Some? ==> Sound(s.value)
  {
    hide Proposed, SettleAll, LedgersSound, OrdersSound, Settled;
    var ts := Proposed(m, id, qty);
    ProposedAreSane(m, id, qty);
    if SettleAll(m, id, qty, ts, |ts|).Some? {
      SettlementTouches(m, id, qty, ts, |ts|);
      SettlementKeepsOrders(m, SettleAll(m, id, qty, ts, |ts|).value, id, qty, ts, |ts|);
      SettlementKeepsLedgers(m, id, qty, ts, |ts|);
    }
  }

  lemma FailedKeepsSound(m: Market, id: int)
    requires Sound(m) && 0 <= id < |m.orders| && m.orders[id].book != PendingTrigger
    ensures Sound(m.(orders := m.orders[id := m.orders[id].(status := Failed)]))
  {}

  lemma ApplyKeepsSound(m: Market, s: Step)
    requires Sound(m)
    ensures Sound(Apply(m, s))
  {
    hide PlaceStep, CancelStep, AmendStep, MatchStep, TriggerStep, Sound;
    match s
    case Place(r) => PlaceKeepsSound(m, r);
    case Cancel(user, id) => CancelKeepsSound(m, user, id);
    case Amend(user, id, price, quantity, trigger) => AmendKeepsSound(m, user, id, price, quantity, trigger);
    case Match(id, qty) => MatchKeepsSound(m, id, qty);
    case Trigger(symbol, ltp) => TriggerKeepsSound(m, symbol, ltp);
  }

  // No wallet is ever overdrawn, no holding goes short, and an order still
  // marked pending has no fill, over any run.
  lemma {:induction false} RunKeepsSound(m: Market, steps: seq<Step>)
    requires Sound(m)
    ensures Sound(Run(m, steps))
  {
    hide Apply, Sound;
    if |steps| > 0 {
      RunKeepsSound(m, steps[..|steps| - 1]);
      ApplyKeepsSound(Run(m, steps[..|steps| - 1]), steps[|steps| - 1]);
    }
  }

  // ----- Cash plus reservations -------------------------------------------------------

  ghost function Balance(user: int, balance: real): real { balance }

  // Cash set aside for what an open BUY may still have to pay.
  ghost function Reserved(o: Order): real
  {
    if o.CashBuy() && o.req.price.Some? then Value(o.OpenQty(), o.req.price.value) else 0.0
  }

  ghost function Money(m: Market): real { MapSum(m.wallets, Balance) + SeqSum(m.orders, Reserved) }

  // What one trade of incoming order `id` adds to the money: the price
  // improvement an incoming BUY is not given back, or a sale nobody paid for.
  ghost function Drift(orders: seq<Order>, id: int, t: Trade): real
  {
    if !(0 <= t.buyOrder < |orders|) then 0.0
    else if !orders[t.buyOrder].CashBuy() then Value(t.quantity, t.price)
    else if t.buyOrder == id && orders[id].req.price.Some? then Value(t.quantity, t.price - orders[id].req.price.value)
    else 0.0
  }

  ghost function Drifts(orders: seq<Order>, id: int, ts: seq<Trade>, n: nat): real
    requires n <= |ts|
  {
    if n == 0 then 0.0 else Drifts(orders, id, ts, n - 1) + Drift(orders, id, ts[n - 1])
  }

  // What running the transaction for `qty` units re-opens beyond what the book
  // still held for the order.
  ghost function Reopened(o: Order, qty: int): real
  {
    if o.CashBuy() && o.req.price.Some? then Value(qty - o.OpenQty(), o.req.price.value) else 0.0
  }

  lemma {:induction false} SettlementMoney(m: Market, id: int, qty: nat, ts: seq<Trade>, n: nat)
    requires 0 <= id < |m.orders| && n <= |ts| && GoodTrades(m, id, ts) && m.orders[id].req.price.Some?
    requires SettleAll(m, id, qty, ts, n).Some?
    ensures Money(SettleAll(m, id, qty, ts, n).value)
         == Money(m) + Drifts(m.orders, id, ts, n) + if n == 0 then 0.0 else Reopened(m.orders[id], qty)
  {
    hide SettleOne, GoodTrades, Reopened, Drift, Money, Settled, Volume;
    if n > 0 {
      SettlementMoney(m, id, qty, ts, n - 1);
      SettlementTouches(m, id, qty, ts, n - 1);
      TradeMoney(m, SettleAll(m, id, qty, ts, n - 1).value, id, qty, ts, n);
    }
  }

  lemma TradeMoney(m: Market, before: Market, id: int, qty: nat, ts: seq<Trade>, n: nat)
    requires 0 <= id < |m.orders| && 0 < n <= |ts| && GoodTrades(m, id, ts) && m.orders[id].req.price.Some?
    requires Settled(m, before, id, qty, ts, n - 1) && Volume(ts[..n]) <= qty
    requires SettleOne(before, id, qty - Volume(ts[..n]), ts[n - 1]).Some?
    ensures Money(SettleOne(before, id, qty - Volume(ts[..n]), ts[n - 1]).value)
         == Money(before) + Drift(m.orders, id, ts[n - 1]) + if n == 1 then Reopened(m.orders[id], qty) else 0.0
  {
    hide SettleOne, Selectable, Value, Reserved, Drift, Reopened, Settled, GoodTrades, Sane, Volume;
    var t, left := ts[n - 1], qty - Volume(ts[..n]);
    var other := Other(id, t);
    BeforeTrade(m, before, id, qty, ts, n);
    SaneRow(m.orders, id, t);
    VolumePush(ts, n);
    if n == 1 { assert ts[..0] == []; EmptyVolume(); }
    OneTouchesTwoRows(before, id, left, t);
    MapSumPut(before.wallets, Balance, t.sellUser, before.wallets[t.sellUser] + Value(t.quantity, t.price));
    var mid := before.orders[other := Reported(m.orders[other], t.left)];
    SeqSumPut(before.orders, Reserved, other, Reported(m.orders[other], t.left));
    SeqSumPut(mid, Reserved, id, Reported(before.orders[id], left));
    RowsMoney(m.orders, before.orders[id], id, qty, left, t, n == 1);
  }

  lemma EmptyVolume()
    ensures Volume([]) == 0
  {}

  // The two rows of a trade and the seller's credit, in one equation.
  lemma RowsMoney(orders: seq<Order>, mine: Order, id: int, qty: nat, left: nat, t: Trade, first: bool)
    requires 0 <= id < |orders| && Sane(orders, id, t) && orders[id].req.price.Some?
    requires mine == if first then orders[id] else Reported(orders[id], left + t.quantity)
    requires first ==> left + t.quantity == qty
    ensures var theirs := orders[Other(id, t)];
            (Reserved(Reported(theirs, t.left)) - Reserved(theirs) + Reserved(Reported(mine, left)) - Reserved(mine)
              + Value(t.quantity, t.price)
            == Drift(orders, id, t) + if first then Reopened(orders[id], qty) else 0.0)
  {
    hide Value;
    var theirs := orders[Other(id, t)];
    ValueSum(t.left, t.quantity, t.price);
    var limit := orders[id].req.price.value;
    ValueSum(left, t.quantity, limit);
    ValueSum(qty - mine.OpenQty(), mine.OpenQty(), limit);
    ValueDiff(t.quantity, t.price, limit);
  }

  // The money a matching transaction makes (positive) or loses (negative).
  ghost function MatchGain(m: Market, id: int, qty: int): real
  {
    if !(0 <= id < |m.orders|) || qty <= 0 || MatchStep(m, id, qty).tape == m.tape then 0.0
    else Drifts(m.orders, id, Proposed(m, id, qty), |Proposed(m, id, qty)|) + Reopened(m.orders[id], qty)
  }

  lemma MatchMoney(m: Market, id: int, qty: int)
    ensures Money(MatchStep(m, id, qty)) == Money(m) + MatchGain(m, id, qty)
  {
    hide Proposed, SettleAll, Drifts, Reopened, IsUnpriced, BookRows, Reserved;
    if 0 <= id < |m.orders| && qty > 0 && m.orders[id].book != PendingTrigger {
      FailedMoney(m, id);
      SettledMoney(m, id, qty);
    }
  }

  lemma FailedMoney(m: Market, id: int)
    requires 0 <= id < |m.orders|
    ensures var failed := m.(orders := m.orders[id := m.orders[id].(status := Failed)]);
            Money(failed) == Money(m) && failed.tape == m.tape
  {
    hide Value;
    SeqSumPut(m.orders, Reserved, id, m.orders[id].(status := Failed));
  }

  lemma SettledMoney(m: Market, id: int, qty: nat)
    requires 0 <= id < |m.orders|
    ensures var ts := Proposed(m, id, qty);
            var s := SettleAll(m, id, qty, ts, |ts|);
            s.Some? ==>
              && (s.value.tape == m.tape <==> ts == [])
              && Money(s.value) == Money(m) + if ts == [] then 0.0
                else Drifts(m.orders, id, ts, |ts|) + Reopened(m.orders[id], qty)
  {
    hide Proposed, Drifts, Reopened, Money, Settled, GoodTrades;
    var ts := Proposed(m, id, qty);
    assert GoodTrades(m, id, ts) by { ProposedAreGood(m, id, qty); }
    if ts != [] && SettleAll(m, id, qty, ts, |ts|).Some? {
      assert m.orders[id].req.price.Some? by { ProposedAreSane(m, id, qty); }
      SettlementMoney(m, id, qty, ts, |ts|);
      SettlementTouches(m, id, qty, ts, |ts|);
      SettledTape(m, SettleAll(m, id, qty, ts, |ts|).value, id, qty, ts);
    }
  }

  lemma ProposedAreGood(m: Market, id: int, qty: nat)
    requires 0 <= id < |m.orders|
    ensures GoodTrades(m, id, Proposed(m, id, qty))
  {
    hide Proposed, Sane;
    ProposedAreSane(m, id, qty);
  }

  lemma SettledTape(m: Market, m': Market, id: int, qty: nat, ts: seq<Trade>)
    requires 0 <= id < |m.orders| && Settled(m, m', id, qty, ts, |ts|)
    ensures m'.tape == m.tape + ts
  {
    assert ts[..|ts|] == ts;
  }

  lemma NothingToSettle(m: Market, id: int, qty: nat, ts: seq<Trade>)
    requires |ts| == 0
    ensures SettleAll(m, id, qty, ts, |ts|) == Some(m)
  {}

  lemma CreditMoney(m: Market, user: int, amount: real)
    requires user in m.wallets
    ensures Money(Credit(m, user, amount)) == Money(m) + amount
  {
    MapSumPut(m.wallets, Balance, user, m.wallets[user] + amount);
  }

  lemma PlaceMoney(m: Market, r: Request)
    ensures Money(PlaceStep(m, r)) == Money(m)
  {
    hide Value;
    var o := Order(r, if r.quantity > 0 then r.quantity else 0, if r.kind.Dormant() then PendingTrigger else Pending,
                   if r.kind.Dormant() then PendingTrigger else Pending);
    SeqSumPush(m.orders, Reserved, o);
    if r.price.Some? && CanDebit(m, r.user, Value(r.quantity, r.price.value)) {
      CreditMoney(m, r.user, -Value(r.quantity, r.price.value));
    }
  }

  lemma CancelMoney(m: Market, user: int, id: int)
    requires Sound(m) && (Touchable(m, user, id) ==> m.orders[id].req.kind != Stop)
    ensures Money(CancelStep(m, user, id)) == Money(m)
  {
    hide Value;
    if Touchable(m, user, id) {
      var o := m.orders[id];
      var o' := o.(status := Cancelled, book := if o.Open() then Cancelled else o.book);
      SeqSumPut(m.orders, Reserved, id, o');
      if o.CashBuy() {
        assert user in m.wallets;
        ValueSum(0, 0, o.req.price.value);
        CreditMoney(m.(orders := m.orders[id := o']), user, Value(o.req.quantity, o.req.price.value));
      }
    }
  }

  lemma AmendMoney(m: Market, user: int, id: int, price: Option<real>, quantity: Option<int>, trigger: Option<real>)
    requires Sound(m)
    ensures Money(AmendStep(m, user, id, price, quantity, trigger)) == Money(m)
  {
    hide Value;
    var m' := AmendStep(m, user, id, price, quantity, trigger);
    if m' != m {
      var o, o' := m.orders[id], m'.orders[id];
      SeqSumPut(m.orders, Reserved, id, o');
      if o.CashBuy() {
        assert user in m.wallets;
        CreditMoney(m, user, Reserved(o) - Reserved(o'));
      }
    }
  }

  lemma TriggerMoney(m: Market, symbol: string, ltp: real)
    requires Sound(m) && forall i :: 0 <= i < |m.orders| && Wakes(m.orders[i], symbol, ltp) ==>
      m.orders[i].req.kind != Stop
    ensures Money(TriggerStep(m, symbol, ltp)) == Money(m)
  {
    hide Value;
    SeqSumSame(m.orders, TriggerStep(m, symbol, ltp).orders, Reserved);
  }

  // ----- Over whole runs -----------------------------------------------------------------

  // No plain STOP orders and no futures.
  ghost predicate PlainOrders(m: Market)
  {
    forall i :: 0 <= i < |m.orders| ==> m.orders[i].req.kind != Stop && m.orders[i].req.contract != Futures
  }

  ghost predicate PlainStep(s: Step)
  {
    s.Place? ==> s.req.kind != Stop && s.req.contract != Futures
  }

  // The matching transaction runs for what the book still holds for the order.
  ghost predicate Fresh(m: Market, s: Step)
  {
    s.Match? && 0 <= s.id < |m.orders| ==> s.qty == m.orders[s.id].OpenQty()
  }

  ghost predicate FreshRun(m: Market, steps: seq<Step>)
  {
    forall k :: 0 <= k < |steps| ==> Fresh(Run(m, steps[..k]), steps[k])
  }

  // (limit - execution price) * quantity over the BUY fills of an incoming order.
  ghost function Saved(orders: seq<Order>, id: int, ts: seq<Trade>, n: nat): real
    requires n <= |ts|
  {
    if n == 0 || !(0 <= id < |orders|) || !orders[id].req.side.Buy? || orders[id].req.price.None? then 0.0
    else Saved(orders, id, ts, n - 1) + Value(ts[n - 1].quantity, orders[id].req.price.value - ts[n - 1].price)
  }

  // The price improvement a transaction withholds from its incoming BUY.
  ghost function Improvement(m: Market, s: Step): real
  {
    if s.Match? && 0 <= s.id < |m.orders| && s.qty > 0 && Apply(m, s).tape != m.tape then
      Saved(m.orders, s.id, Proposed(m, s.id, s.qty), |Proposed(m, s.id, s.qty)|)
    else 0.0
  }

  ghost function Improvements(m: Market, steps: seq<Step>): real
  {
    if |steps| == 0 then 0.0
    else
      var init := steps[..|steps| - 1];
      Improvements(m, init) + Improvement(Run(m, init), steps[|steps| - 1])
  }

  // What a transaction re-opens for its incoming BUY beyond what the book held.
  ghost function Reopening(m: Market, s: Step): real
  {
    if s.Match? && 0 <= s.id < |m.orders| && s.qty > 0 && Apply(m, s).tape != m.tape then
      Reopened(m.orders[s.id], s.qty)
    else 0.0
  }

  ghost function Reopenings(m: Market, steps: seq<Step>): real
  {
    if |steps| == 0 then 0.0
    else
      var init := steps[..|steps| - 1];
      Reopenings(m, init) + Reopening(Run(m, init), steps[|steps| - 1])
  }

  lemma ApplyMoney(m: Market, s: Step)
    requires Sound(m) && PlainOrders(m)
    ensures Money(Apply(m, s)) == Money(m) - Improvement(m, s) + Reopening(m, s)
    ensures Improvement(m, s) >= 0.0
  {
    hide Money, PlaceStep, CancelStep, AmendStep, MatchStep, TriggerStep, MatchGain, Sound,
      Saved, PlainOrders, Proposed, Reopened;
    match s
    case Place(r) => PlaceMoney(m, r);
    case Cancel(user, id) => PlainCancel(m, user, id);
    case Amend(user, id, price, quantity, trigger) => AmendMoney(m, user, id, price, quantity, trigger);
    case Match(id, qty) =>
      MatchMoney(m, id, qty);
      if 0 <= id < |m.orders| && qty > 0 && MatchStep(m, id, qty).tape != m.tape {
        PlainGain(m, id, qty);
      } else {
        NoGain(m, id, qty);
      }
    case Trigger(symbol, ltp) => PlainTrigger(m, symbol, ltp);
  }

  lemma NoGain(m: Market, id: int, qty: int)
    requires !(0 <= id < |m.orders|) || qty <= 0 || MatchStep(m, id, qty).tape == m.tape
    ensures MatchGain(m, id, qty) == 0.0
  {}

  lemma PlainCancel(m: Market, user: int, id: int)
    requires Sound(m) && PlainOrders(m)
    ensures Money(CancelStep(m, user, id)) == Money(m)
  {
    hide Money, CancelStep;
    CancelMoney(m, user, id);
  }

  lemma PlainTrigger(m: Market, symbol: string, ltp: real)
    requires Sound(m) && PlainOrders(m)
    ensures Money(TriggerStep(m, symbol, ltp)) == Money(m)
  {
    hide Money, TriggerStep;
    TriggerMoney(m, symbol, ltp);
  }

  lemma {:induction false} DriftsAreSavings(m: Market, id: int, ts: seq<Trade>, n: nat)
    requires PlainOrders(m) && 0 <= id < |m.orders| && m.orders[id].req.price.Some? && n <= |ts|
    requires GoodTrades(m, id, ts) && forall t :: t in ts && m.orders[id].req.side.Buy? ==>
      t.price <= m.orders[id].req.price.value
    ensures Drifts(m.orders, id, ts, n) == -Saved(m.orders, id, ts, n) <= 0.0
  {
    hide Value, Selectable;
    if n > 0 {
      DriftsAreSavings(m, id, ts, n - 1);
      var t, limit := ts[n - 1], m.orders[id].req.price.value;
      assert Sane(m.orders, id, t);
      ValueDiff(t.quantity, t.price, limit);
      ValueDiff(t.quantity, limit, t.price);
      if m.orders[id].req.side.Buy? {
        assert t in ts;
        ValueSign(t.quantity, limit - t.price);
      } else {
        assert m.orders[t.buyOrder].CashBuy() by { Opposite(m.orders, id, t); }
      }
    }
  }

  lemma Opposite(orders: seq<Order>, id: int, t: Trade)
    requires 0 <= id < |orders| && Sane(orders, id, t)
    ensures orders[t.buyOrder].req.side.Buy? && orders[t.sellOrder].req.side.Sell?
  {}

  lemma PlainGain(m: Market, id: int, qty: nat)
    requires PlainOrders(m) && 0 <= id < |m.orders| && qty > 0
    ensures MatchStep(m, id, qty).tape != m.tape ==>
      var saved := Saved(m.orders, id, Proposed(m, id, qty), |Proposed(m, id, qty)|);
      MatchGain(m, id, qty) == Reopened(m.orders[id], qty) - saved && saved >= 0.0
  {
    hide Proposed, MatchStep, SettleAll, Value, Drifts, Saved, PlainOrders, Reopened;
    if MatchStep(m, id, qty).tape != m.tape {
      var ts := Proposed(m, id, qty);
      ProposedAreSane(m, id, qty);
      if ts == [] { MatchWithoutTrades(m, id, qty); }
      DriftsAreSavings(m, id, ts, |ts|);
    }
  }

  lemma MatchWithoutTrades(m: Market, id: int, qty: int)
    requires 0 <= id < |m.orders| && qty > 0 && Proposed(m, id, qty) == []
    ensures MatchStep(m, id, qty).tape == m.tape
  {
    NothingToSettle(m, id, qty, []);
  }

  ghost predicate SameRequests(orders: seq<Order>, orders': seq<Order>)
  {
    |orders'| == |orders| && forall x :: 0 <= x < |orders| ==> orders'[x].req == orders[x].req
  }

  // Matching never rewrites what was asked for.
  lemma MatchKeepsRequests(m: Market, id: int, qty: int)
    ensures SameRequests(m.orders, MatchStep(m, id, qty).orders)
  {
    hide Proposed, SettleAll, IsUnpriced, BookRows;
    if 0 <= id < |m.orders| && qty > 0 && m.orders[id].book != PendingTrigger {
      SettledKeepsRequests(m, id, qty);
    }
  }

  lemma SettledKeepsRequests(m: Market, id: int, qty: nat)
    requires 0 <= id < |m.orders|
    ensures var ts := Proposed(m, id, qty);
            var s := SettleAll(m, id, qty, ts, |ts|);
            s.Some? ==> SameRequests(m.orders, s.value.orders)
  {
    hide Proposed, SettleAll, GoodTrades;
    var ts := Proposed(m, id, qty);
    ProposedAreGood(m, id, qty);
    if SettleAll(m, id, qty, ts, |ts|).Some? {
      SettlementTouches(m, id, qty, ts, |ts|);
    }
  }

  lemma PlainStays(m: Market, s: Step)
    requires PlainOrders(m) && PlainStep(s)
    ensures PlainOrders(Apply(m, s))
  {
    hide Value, MatchStep;
    if s.Match? {
      MatchKeepsRequests(m, s.id, s.qty);
    }
  }

  // Over every run of priced LIMIT, MARKET and STOPLIMIT orders, cash plus
  // reservations falls by exactly the price improvement withheld from incoming
  // BUY fills, and rises by exactly what stale quantities re-open.
  lemma {:induction false} MoneyExactly(m: Market, steps: seq<Step>)
    requires Sound(m) && PlainOrders(m)
    requires forall k :: 0 <= k < |steps| ==> PlainStep(steps[k])
    ensures Money(Run(m, steps)) == Money(m) - Improvements(m, steps) + Reopenings(m, steps)
    ensures Improvements(m, steps) >= 0.0
    ensures PlainOrders(Run(m, steps))
  {
    hide Money, Apply, Sound, PlainOrders, Improvement, Reopening;
    if |steps| > 0 {
      var init, last := steps[..|steps| - 1], steps[|steps| - 1];
      MoneyExactly(m, init);
      RunKeepsSound(m, init);
      ApplyMoney(Run(m, init), last);
      PlainStays(Run(m, init), last);
    }
  }

  lemma {:induction false} FreshReopensNothing(m: Market, steps: seq<Step>)
    requires FreshRun(m, steps)
    ensures Reopenings(m, steps) == 0.0
  {
    hide Apply, Fresh, Reopening;
    if |steps| > 0 {
      var init := steps[..|steps| - 1];
      assert forall k :: 0 <= k < |init| ==> init[..k] == steps[..k];
      FreshReopensNothing(m, init);
      assert Fresh(Run(m, steps[..|init|]), steps[|init|]);
      FreshReopens(Run(m, init), steps[|init|]);
    }
  }

  lemma FreshReopens(m: Market, s: Step)
    requires Fresh(m, s)
    ensures Reopening(m, s) == 0.0
  {
    hide Value, Apply;
    if s.Match? && 0 <= s.id < |m.orders| && m.orders[s.id].req.price.Some? {
      ValueSum(0, 0, m.orders[s.id].req.price.value);
    }
  }

  // So when every match runs for what the book still holds, it never rises.
  lemma {:induction false} MoneyNeverRises(m: Market, steps: seq<Step>)
    requires Sound(m) && PlainOrders(m)
    requires forall k :: 0 <= k < |steps| ==> PlainStep(steps[k])
    requires FreshRun(m, steps)
    ensures Money(Run(m, steps)) == Money(m) - Improvements(m, steps)
    ensures Improvements(m, steps) >= 0.0
    ensures PlainOrders(Run(m, steps))
  {
    MoneyExactly(m, steps);
    FreshReopensNothing(m, steps);
  }
}
