// What settlement leaves in the two ledgers: positions for F&O symbols, holdings
// for the rest.
module ExchangeLedgers {
  import opened Positions
  import opened Matching
  import opened Wrappers
  import opened Exchange
  import opened Settlement
  import opened ExchangeMoney

  // ----- Holdings -------------------------------------------------------------------------

  function HeldQty(m: Market, k: (int, string)): int { if k in m.holdings then m.holdings[k].quantity else 0 }

  function CostOf(m: Market, k: (int, string)): real
  {
    if k in m.holdings then Value(m.holdings[k].quantity, m.holdings[k].avgPrice) else 0.0
  }

  // Settling an equity fill moves only that user's holding of that symbol: a buy
  // adds its quantity and its own cost, a sale takes its quantity at the average
  // and leaves the average alone.  It raises exactly for a sale of more than is
  // held, and for a quantity or a price that is not positive.
  lemma HoldingsBookCost(m: Market, user: int, side: Side, r: Request, qty: nat, price: real)
    requires !r.fo && LedgersSound(m)
    ensures var s := SettleSide(m, user, side, r, qty, price);
            var k := (user, r.symbol);
      && (s.None? <==> qty == 0 || price <= 0.0 || (side.Sell? && qty > HeldQty(m, k)))
      && (s.Some? ==>
            && s.value.positions == m.positions
            && s.value.holdings.Keys == m.holdings.Keys + {k}
            && (forall j :: j in m.holdings && j != k ==> s.value.holdings[j] == m.holdings[j])
            && (side.Buy? ==> HeldQty(s.value, k) == HeldQty(m, k) + qty
                              && CostOf(s.value, k) == CostOf(m, k) + Value(qty, price))
            && (side.Sell? ==> HeldQty(s.value, k) == HeldQty(m, k) - qty
                               && s.value.holdings[k].avgPrice == m.holdings[k].avgPrice))
  {
    hide Blend, Value, Filled;
    var k := (user, r.symbol);
    if side.Buy? && qty > 0 && k in m.holdings {
      BlendValue(m.holdings[k].quantity, m.holdings[k].avgPrice, qty, price);
    }
  }

  // ----- When a settlement goes through ----------------------------------------------------

  // One trade settles exactly where it has a quantity and a price, the seller has
  // a wallet, and a seller of shares holds what is sold.
  lemma TradeSettlesExactly(m: Market, id: int, left: nat, t: Trade)
    requires LedgersSound(m) && 0 <= t.buyOrder < |m.orders| && 0 <= t.sellOrder < |m.orders|
    requires (id == t.buyOrder || id == t.sellOrder) && t.buyUser != t.sellUser && t.left >= 0
    ensures var r := m.orders[t.sellOrder].req;
      SettleOne(m, id, left, t).Some? <==>
        && t.quantity > 0 && t.price > 0.0 && t.sellUser in m.wallets
        && (!r.fo ==> HeldQty(m, (t.sellUser, r.symbol)) >= t.quantity)
  {
    hide Value, Blend, Filled, LedgersSound;
    var other := Other(id, t);
    var marked := m.orders[other := Reported(m.orders[other], t.left)];
    var m1 := m.(tape := m.tape + [t], orders := marked[id := Reported(marked[id], left)]);
    var (b, r) := (m1.orders[t.buyOrder].req, m1.orders[t.sellOrder].req);
    BuyingSideSettles(m1, t.buyUser, b, t.quantity, t.price);
    if t.quantity > 0 && t.price > 0.0 {
      var m2 := SettleSide(m1, t.buyUser, Buy, b, t.quantity, t.price).value;
      SideTouchesLedgersOnly(m1, t.buyUser, Buy, b, t.quantity, t.price);
      assert HeldQty(m2, (t.sellUser, r.symbol)) == HeldQty(m, (t.sellUser, r.symbol));
      if SettleSide(m2, t.sellUser, Sell, r, t.quantity, t.price).Some? {
        SideTouchesLedgersOnly(m2, t.sellUser, Sell, r, t.quantity, t.price);
      }
    }
  }

  lemma BuyingSideSettles(m: Market, user: int, r: Request, qty: nat, price: real)
    ensures var s := SettleSide(m, user, Buy, r, qty, price);
      && (s.Some? <==> qty > 0 && price > 0.0)
      && (s.Some? ==> s.value.wallets == m.wallets
                      && forall k: (int, string) :: k.0 != user ==> HeldQty(s.value, k) == HeldQty(m, k))
  {
    hide Value, Blend, Filled;
  }

  // A whole list of F&O trades within the quantity it is run for settles exactly
  // where every one of them has a price and a seller with a wallet.
  lemma {:induction false} SettlementSettlesExactly(m: Market, id: int, qty: nat, ts: seq<Trade>, n: nat)
    requires Sound(m) && 0 <= id < |m.orders| && n <= |ts| && GoodTrades(m, id, ts) && Volume(ts[..n]) <= qty
    requires forall j :: 0 <= j < n ==> Derivative(m.orders, ts[j])
    ensures SettleAll(m, id, qty, ts, n).Some?
      <==> forall j :: 0 <= j < n ==> ts[j].price > 0.0 && ts[j].sellUser in m.wallets
  {
    hide SettleOne, GoodTrades, LedgersSound, OrdersSound, Volume, Settled;
    if n > 0 {
      VolumePush(ts, n);
      SettlementSettlesExactly(m, id, qty, ts, n - 1);
      if SettleAll(m, id, qty, ts, n - 1).Some? {
        SettlementTouches(m, id, qty, ts, n - 1);
        SettlementKeepsLedgers(m, id, qty, ts, n - 1);
        NextSettles(m, SettleAll(m, id, qty, ts, n - 1).value, id, qty, ts, n);
      }
    }
  }

  ghost predicate Derivative(orders: seq<Order>, t: Trade)
  {
    && 0 <= t.buyOrder < |orders| && orders[t.buyOrder].req.fo
    && 0 <= t.sellOrder < |orders| && orders[t.sellOrder].req.fo
  }

  lemma NextSettles(m: Market, before: Market, id: int, qty: nat, ts: seq<Trade>, n: nat)
    requires 0 <= id < |m.orders| && 0 < n <= |ts| && GoodTrades(m, id, ts) && Settled(m, before, id, qty, ts, n - 1)
    requires LedgersSound(before) && Volume(ts[..n]) <= qty && Derivative(m.orders, ts[n - 1])
    ensures SettleOne(before, id, qty - Volume(ts[..n]), ts[n - 1]).Some?
      <==> ts[n - 1].price > 0.0 && ts[n - 1].sellUser in m.wallets
  {
    hide SettleOne, LedgersSound, Volume;
    var t := ts[n - 1];
    assert Sane(m.orders, id, t);
    TradeSettlesExactly(before, id, qty - Volume(ts[..n]), t);
  }

  // ----- Positions -------------------------------------------------------------------------

  function PositionOf(m: Market, k: (int, string)): Figures { if k in m.positions then m.positions[k] else FLAT }

  // An F&O order of this symbol.
  ghost predicate Trades(orders: seq<Order>, id: int, symbol: string)
  {
    0 <= id < |orders| && orders[id].req.fo && orders[id].req.symbol == symbol
  }

  // The user's fills in an F&O symbol, read off the tape.
  ghost function FillsOn(orders: seq<Order>, tape: seq<Trade>, k: (int, string)): seq<Fill>
  {
    if |tape| == 0 then []
    else FillsOn(orders, tape[..|tape| - 1], k) + Legs(orders, tape[|tape| - 1], k)
  }

  ghost function Legs(orders: seq<Order>, t: Trade, k: (int, string)): seq<Fill>
  {
    (if t.buyUser == k.0 && Trades(orders, t.buyOrder, k.1) then [Fill(Buy, t.quantity, t.price)] else [])
    + (if t.sellUser == k.0 && Trades(orders, t.sellOrder, k.1) then [Fill(Sell, t.quantity, t.price)] else [])
  }

  // The fills read off a tape depend only on what the orders asked for.
  ghost predicate SameRoutes(a: seq<Order>, b: seq<Order>)
  {
    |a| <= |b| && forall x :: 0 <= x < |a| ==> a[x].req.fo == b[x].req.fo && a[x].req.symbol == b[x].req.symbol
  }

  ghost predicate Known(orders: seq<Order>, tape: seq<Trade>)
  {
    forall i :: 0 <= i < |tape| ==> 0 <= tape[i].buyOrder < |orders| && 0 <= tape[i].sellOrder < |orders|
  }

  lemma {:induction false} SameFillsOn(a: seq<Order>, b: seq<Order>, tape: seq<Trade>, k: (int, string))
    requires SameRoutes(a, b) && Known(a, tape)
    ensures FillsOn(a, tape, k) == FillsOn(b, tape, k)
  {
    if |tape| > 0 { SameFillsOn(a, b, tape[..|tape| - 1], k); }
  }

  ghost predicate Tradable(t: Trade) { t.quantity > 0 && t.price > 0.0 }

  // Every position is the fold of the user's fills on the tape.
  ghost predicate FollowsTape(m: Market, k: (int, string))
  {
    && Known(m.orders, m.tape) && (forall i :: 0 <= i < |m.tape| ==> Tradable(m.tape[i]))
    && AllValid(FillsOn(m.orders, m.tape, k))
    && PositionOf(m, k) == Fold(FLAT, FillsOn(m.orders, m.tape, k))
  }

  lemma FillsOnPush(orders: seq<Order>, tape: seq<Trade>, t: Trade, k: (int, string))
    ensures FillsOn(orders, tape + [t], k) == FillsOn(orders, tape, k) + Legs(orders, t, k)
  {
    assert (tape + [t])[..|tape|] == tape;
  }

  lemma SidePositions(m: Market, user: int, side: Side, r: Request, qty: nat, price: real, k: (int, string))
    requires SettleSide(m, user, side, r, qty, price).Some?
    ensures Fill(side, qty, price).Valid()
    ensures var m' := SettleSide(m, user, side, r, qty, price).value;
      PositionOf(m', k) == if r.fo && k == (user, r.symbol) then Filled(PositionOf(m, k), Fill(side, qty, price))
                           else PositionOf(m, k)
  {
    hide Filled, Blend;
  }

  lemma FoldOne(p: Figures, fills: seq<Fill>, f: Fill)
    requires AllValid(fills) && f.Valid()
    ensures AllValid(fills + [f]) && Fold(p, fills + [f]) == Filled(Fold(p, fills), f)
  {
    hide Filled;
    assert (fills + [f])[..|fills|] == fills;
  }

  // One settled trade adds exactly its own fills.
  lemma OneFollowsTape(m: Market, id: int, left: nat, t: Trade, k: (int, string))
    requires FollowsTape(m, k) && SettleOne(m, id, left, t).Some?
    ensures FollowsTape(SettleOne(m, id, left, t).value, k)
  {
    hide SettleSide, Value, Fold, Reported, Filled, FillsOn, Legs;
    var m' := SettleOne(m, id, left, t).value;
    var other := Other(id, t);
    var marked := m.orders[other := Reported(m.orders[other], t.left)];
    var m1 := m.(tape := m.tape + [t], orders := marked[id := Reported(marked[id], left)]);
    assert SameRequests(m.orders, m1.orders) by { ReportKeepsRequest(m.orders, id, other, left, t.left); }
    SideTouchesLedgersOnly(m1, t.buyUser, Buy, m1.orders[t.buyOrder].req, t.quantity, t.price);
    var m2 := SettleSide(m1, t.buyUser, Buy, m1.orders[t.buyOrder].req, t.quantity, t.price).value;
    SideTouchesLedgersOnly(m2, t.sellUser, Sell, m1.orders[t.sellOrder].req, t.quantity, t.price);
    var m3 := SettleSide(m2, t.sellUser, Sell, m1.orders[t.sellOrder].req, t.quantity, t.price).value;
    SidePositions(m1, t.buyUser, Buy, m1.orders[t.buyOrder].req, t.quantity, t.price, k);
    SidePositions(m2, t.sellUser, Sell, m1.orders[t.sellOrder].req, t.quantity, t.price, k);
    SameFillsOn(m.orders, m1.orders, m.tape, k);
    FillsOnPush(m1.orders, m.tape, t, k);
    assert m'.positions == m3.positions && m'.orders == m1.orders && m'.tape == m.tape + [t];
    LegsFold(m1.orders, FillsOn(m.orders, m.tape, k), t, k);
  }

  lemma ReportKeepsRequest(orders: seq<Order>, id: int, other: int, left: nat, otherLeft: nat)
    requires 0 <= id < |orders| && 0 <= other < |orders|
    ensures var marked := orders[other := Reported(orders[other], otherLeft)];
      SameRequests(orders, marked[id := Reported(marked[id], left)])
  {}

  lemma LegsFold(orders: seq<Order>, fills: seq<Fill>, t: Trade, k: (int, string))
    requires AllValid(fills) && Tradable(t)
    ensures AllValid(fills + Legs(orders, t, k))
    ensures
      var bought := if t.buyUser == k.0 && Trades(orders, t.buyOrder, k.1)
                    then Filled(Fold(FLAT, fills), Fill(Buy, t.quantity, t.price)) else Fold(FLAT, fills);
      var sold := if t.sellUser == k.0 && Trades(orders, t.sellOrder, k.1)
                  then Filled(bought, Fill(Sell, t.quantity, t.price)) else bought;
      Fold(FLAT, fills + Legs(orders, t, k)) == sold
  {
    hide Fold, Filled;
    var buys := t.buyUser == k.0 && Trades(orders, t.buyOrder, k.1);
    var sells := t.sellUser == k.0 && Trades(orders, t.sellOrder, k.1);
    var buy, sell := Fill(Buy, t.quantity, t.price), Fill(Sell, t.quantity, t.price);
    var mid := if buys then fills + [buy] else fills;
    if buys { FoldOne(FLAT, fills, buy); }
    if sells { FoldOne(FLAT, mid, sell); }
    assert fills + Legs(orders, t, k) == if sells then mid + [sell] else mid;
  }

  lemma {:induction false} SettlementFollowsTape(m: Market, id: int, qty: nat, ts: seq<Trade>, n: nat, k: (int, string))
    requires n <= |ts| && FollowsTape(m, k) && SettleAll(m, id, qty, ts, n).Some?
    ensures FollowsTape(SettleAll(m, id, qty, ts, n).value, k)
  {
    hide SettleOne, FollowsTape;
    if n > 0 {
      SettlementFollowsTape(m, id, qty, ts, n - 1, k);
      OneFollowsTape(SettleAll(m, id, qty, ts, n - 1).value, id, qty - Volume(ts[..n]), ts[n - 1], k);
    }
  }

  lemma StillFollowsTape(m: Market, m': Market, k: (int, string))
    requires FollowsTape(m, k) && m'.tape == m.tape && m'.positions == m.positions && SameRoutes(m.orders, m'.orders)
    ensures FollowsTape(m', k)
  {
    hide Fold;
    SameFillsOn(m.orders, m'.orders, m.tape, k);
  }

  ghost predicate TradesNothing(m: Market, m': Market)
  {
    m'.tape == m.tape && m'.positions == m.positions && SameRoutes(m.orders, m'.orders)
  }

  lemma AmendTradesNothing(m: Market, user: int, id: int, price: Option<real>, quantity: Option<int>,
                           trigger: Option<real>)
    ensures TradesNothing(m, AmendStep(m, user, id, price, quantity, trigger))
  {
    hide Value;
  }

  lemma PlaceTradesNothing(m: Market, r: Request)
    ensures TradesNothing(m, PlaceStep(m, r))
  {
    hide Value;
  }

  lemma CancelTradesNothing(m: Market, user: int, id: int)
    ensures TradesNothing(m, CancelStep(m, user, id))
  {
    hide Value;
  }

  lemma TriggerTradesNothing(m: Market, symbol: string, ltp: real)
    ensures TradesNothing(m, TriggerStep(m, symbol, ltp))
  {}

  lemma MatchFollowsTape(m: Market, id: int, qty: int, k: (int, string))
    requires FollowsTape(m, k)
    ensures FollowsTape(MatchStep(m, id, qty), k)
  {
    hide FollowsTape, Proposed, SettleAll, IsUnpriced, BookRows;
    if 0 <= id < |m.orders| && qty > 0 && m.orders[id].book != PendingTrigger {
      var ts := Proposed(m, id, qty);
      if SettleAll(m, id, qty, ts, |ts|).Some? { SettlementFollowsTape(m, id, qty, ts, |ts|, k); }
      StillFollowsTape(m, m.(orders := m.orders[id := m.orders[id].(status := Failed)]), k);
    }
  }

  lemma StepFollowsTape(m: Market, s: Step, k: (int, string))
    requires FollowsTape(m, k)
    ensures FollowsTape(Apply(m, s), k)
  {
    hide FollowsTape, MatchStep, PlaceStep, CancelStep, AmendStep, TriggerStep;
    match s {
      case Place(r) => PlaceTradesNothing(m, r);
      case Cancel(user, id) => CancelTradesNothing(m, user, id);
      case Amend(user, id, price, quantity, trigger) => AmendTradesNothing(m, user, id, price, quantity, trigger);
      case Trigger(symbol, ltp) => TriggerTradesNothing(m, symbol, ltp);
      case Match(id, qty) => MatchFollowsTape(m, id, qty, k);
    }
    if !s.Match? { StillFollowsTape(m, Apply(m, s), k); }
  }

  // Over every run of orders, cancels, amends, matches and triggers, each user's
  // position in each F&O symbol is the fold of that user's fills on the tape, each
  // once, in order and at the price traded.
  lemma {:induction false} PositionsFollowTheTape(m: Market, steps: seq<Step>, k: (int, string))
    requires m.tape == [] && k !in m.positions
    ensures FollowsTape(Run(m, steps), k)
  {
    hide Apply;
    if |steps| > 0 {
      PositionsFollowTheTape(m, steps[..|steps| - 1], k);
      StepFollowsTape(Run(m, steps[..|steps| - 1]), steps[|steps| - 1], k);
    }
  }
}
