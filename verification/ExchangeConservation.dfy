// Conservation on the exchange: shares and contracts change hands but are never
// made, the F&O book is zero-sum, and an order is filled for what it asked for.
module ExchangeConservation {
  import opened Positions
  import opened Matching
  import opened Wrappers
  import opened Exchange
  import opened Settlement
  import opened ExchangeMoney
  import opened Sums

  // ----- Measures over the two settlement books -------------------------------------

  ghost function HeldIn(symbol: string): ((int, string), Holding) -> real
  {
    (k: (int, string), h: Holding) => if k.1 == symbol then h.quantity as real else 0.0
  }

  ghost function NetIn(symbol: string): ((int, string), Figures) -> real
  {
    (k: (int, string), p: Figures) => if k.1 == symbol then p.netqty as real else 0.0
  }

  ghost function WorthIn(symbol: string, mark: real): ((int, string), Figures) -> real
  {
    (k: (int, string), p: Figures) => if k.1 == symbol then TotalPnl(p, mark) else 0.0
  }

  // Units of `symbol` held over all users, and units of it open as positions.
  ghost function Held(m: Market, symbol: string): real { MapSum(m.holdings, HeldIn(symbol)) }

  ghost function Net(m: Market, symbol: string): real { MapSum(m.positions, NetIn(symbol)) }

  // Realised plus unrealised P&L over all users, at mark price `mark`.
  ghost function Worth(m: Market, symbol: string, mark: real): real { MapSum(m.positions, WorthIn(symbol, mark)) }

  // ----- One side of one fill ---------------------------------------------------------

  function Sign(side: Side): int { if side.Buy? then 1 else -1 }

  lemma SideConserves(m: Market, user: int, side: Side, r: Request, qty: nat, price: real, symbol: string, mark: real)
    requires LedgersSound(m) && SettleSide(m, user, side, r, qty, price).Some?
    ensures var m' := SettleSide(m, user, side, r, qty, price).value;
            var q := if r.symbol == symbol then Sign(side) * qty else 0;
            && Held(m', symbol) == Held(m, symbol) + (if r.fo then 0.0 else q as real)
            && Net(m', symbol) == Net(m, symbol) + (if r.fo then q as real else 0.0)
            && Worth(m', symbol, mark) == Worth(m, symbol, mark)
              + (if r.fo then Value(q, mark) - Value(q, price) else 0.0)
  {
    hide Blend, Value, Filled, TotalPnl;
    var k := (user, r.symbol);
    var m' := SettleSide(m, user, side, r, qty, price).value;
    ValueSum(0, 0, mark);
    ValueSum(0, 0, price);
    ValueSum(qty, 0, price);
    if r.fo {
      var p := if k in m.positions then m.positions[k] else FLAT;
      var f := Fill(side, qty, price);
      MapSumPut(m.positions, NetIn(symbol), k, Filled(p, f));
      MapSumPut(m.positions, WorthIn(symbol, mark), k, Filled(p, f));
      FilledTotals(p, f);
      TotalPnlStep(p, f, mark);
      FlatIsWorthless(mark);
    } else if k in m'.holdings {
      MapSumPut(m.holdings, HeldIn(symbol), k, m'.holdings[k]);
    }
  }

  lemma FlatIsWorthless(mark: real)
    ensures TotalPnl(FLAT, mark) == 0.0
  {}

  // ----- One trade ----------------------------------------------------------------------

  // Both sides name the same symbol, so a trade moves units from seller to
  // buyer; each book on its own is balanced exactly when both sides settle in it.
  lemma TradeConserves(m: Market, id: int, left: nat, t: Trade, symbol: string, mark: real)
    requires LedgersSound(m) && SettleOne(m, id, left, t).Some?
    requires 0 <= t.buyOrder < |m.orders| && 0 <= t.sellOrder < |m.orders|
    requires m.orders[t.buyOrder].req.symbol == m.orders[t.sellOrder].req.symbol
    ensures var m' := SettleOne(m, id, left, t).value;
            var buy, sell := m.orders[t.buyOrder].req, m.orders[t.sellOrder].req;
            var q := if buy.symbol == symbol then t.quantity else 0;
            && Held(m', symbol) + Net(m', symbol) == Held(m, symbol) + Net(m, symbol)
            && Net(m', symbol) == Net(m, symbol)
              + (if buy.fo then q as real else 0.0) - (if sell.fo then q as real else 0.0)
            && (buy.fo == sell.fo || buy.symbol != symbol ==> Worth(m', symbol, mark) == Worth(m, symbol, mark))
  {
    hide SettleSide, Value, LedgersSound;
    var other := Other(id, t);
    var marked := m.orders[other := Reported(m.orders[other], t.left)];
    var m1 := m.(tape := m.tape + [t], orders := marked[id := Reported(marked[id], left)]);
    var buy, sell := m1.orders[t.buyOrder].req, m1.orders[t.sellOrder].req;
    assert LedgersSound(m1) by { LedgersIgnoreBook(m, m1.orders, m1.tape); }
    SideConserves(m1, t.buyUser, Buy, buy, t.quantity, t.price, symbol, mark);
    SideKeepsLedgers(m1, t.buyUser, Buy, buy, t.quantity, t.price);
    var m2 := SettleSide(m1, t.buyUser, Buy, buy, t.quantity, t.price).value;
    SideConserves(m2, t.sellUser, Sell, sell, t.quantity, t.price, symbol, mark);
    ValueSum(t.quantity, 0, mark);
    ValueSum(t.quantity, 0, t.price);
    ValueSum(0, 0, mark);
    ValueSum(0, 0, t.price);
  }

  lemma LedgersIgnoreBook(m: Market, orders: seq<Order>, tape: seq<Trade>)
    requires LedgersSound(m)
    ensures LedgersSound(m.(orders := orders, tape := tape))
  {}

  // Every order of `symbol` is routed to the same book.
  ghost predicate OneRoute(orders: seq<Order>, symbol: string)
  {
    forall i, j | 0 <= i < |orders| && 0 <= j < |orders| && orders[i].req.symbol == orders[j].req.symbol == symbol ::
      orders[i].req.fo == orders[j].req.fo
  }

  lemma {:induction false} SettlementConserves(m: Market, id: int, qty: nat, ts: seq<Trade>,
      n: nat, symbol: string, mark: real)
    requires 0 <= id < |m.orders| && n <= |ts| && GoodTrades(m, id, ts) && LedgersSound(m)
    requires SettleAll(m, id, qty, ts, n).Some?
    ensures var m' := SettleAll(m, id, qty, ts, n).value;
            && Held(m', symbol) + Net(m', symbol) == Held(m, symbol) + Net(m, symbol)
            && (OneRoute(m.orders, symbol) ==>
                  Net(m', symbol) == Net(m, symbol) && Worth(m', symbol, mark) == Worth(m, symbol, mark))
  {
    hide SettleOne, GoodTrades, Settled, Sane, LedgersSound, Held, Net, Worth, OneRoute, Volume;
    if n > 0 {
      SettlementConserves(m, id, qty, ts, n - 1, symbol, mark);
      SettlementKeepsLedgers(m, id, qty, ts, n - 1);
      SettlementTouches(m, id, qty, ts, n - 1);
      var before := SettleAll(m, id, qty, ts, n - 1).value;
      PartiesOfTrade(m, before, id, qty, ts, n);
      TradeConserves(before, id, qty - Volume(ts[..n]), ts[n - 1], symbol, mark);
      RouteOfTrade(m.orders, symbol, ts[n - 1]);
    }
  }

  lemma PartiesOfTrade(m: Market, before: Market, id: int, qty: nat, ts: seq<Trade>, n: nat)
    requires 0 <= id < |m.orders| && 0 < n <= |ts| && GoodTrades(m, id, ts) && Settled(m, before, id, qty, ts, n - 1)
    ensures var t := ts[n - 1];
            && |before.orders| == |m.orders|
            && 0 <= t.buyOrder < |m.orders| && 0 <= t.sellOrder < |m.orders|
            && before.orders[t.buyOrder].req == m.orders[t.buyOrder].req
            && before.orders[t.sellOrder].req == m.orders[t.sellOrder].req
            && m.orders[t.buyOrder].req.symbol == m.orders[t.sellOrder].req.symbol
  {
    assert Sane(m.orders, id, ts[n - 1]);
  }

  lemma RouteOfTrade(orders: seq<Order>, symbol: string, t: Trade)
    requires 0 <= t.buyOrder < |orders| && 0 <= t.sellOrder < |orders|
    requires orders[t.buyOrder].req.symbol == orders[t.sellOrder].req.symbol
    ensures OneRoute(orders, symbol) && orders[t.buyOrder].req.symbol == symbol ==>
      orders[t.buyOrder].req.fo == orders[t.sellOrder].req.fo
  {}

  // ----- Over whole runs ---------------------------------------------------------------

  lemma MatchConserves(m: Market, id: int, qty: int, symbol: string, mark: real)
    requires LedgersSound(m)
    ensures var m' := MatchStep(m, id, qty);
            && Held(m', symbol) + Net(m', symbol) == Held(m, symbol) + Net(m, symbol)
            && (OneRoute(m.orders, symbol) ==>
                  Net(m', symbol) == Net(m, symbol) && Worth(m', symbol, mark) == Worth(m, symbol, mark))
  {
    hide Proposed, SettleAll, IsUnpriced, BookRows, LedgersSound, OneRoute, GoodTrades;
    if 0 <= id < |m.orders| && qty > 0 && m.orders[id].book != PendingTrigger {
      var ts := Proposed(m, id, qty);
      ProposedAreGood(m, id, qty);
      if SettleAll(m, id, qty, ts, |ts|).Some? {
        SettlementConserves(m, id, qty, ts, |ts|, symbol, mark);
      }
    }
  }

  lemma ApplyConserves(m: Market, s: Step, symbol: string, mark: real)
    requires LedgersSound(m)
    ensures var m' := Apply(m, s);
            && Held(m', symbol) + Net(m', symbol) == Held(m, symbol) + Net(m, symbol)
            && (OneRoute(m.orders, symbol) ==>
                  Net(m', symbol) == Net(m, symbol) && Worth(m', symbol, mark) == Worth(m, symbol, mark))
  {
    hide Value, MatchStep, LedgersSound, OneRoute;
    if s.Match? { MatchConserves(m, s.id, s.qty, symbol, mark); }
  }

  // Units held plus units open as positions, over all users, never change.
  lemma {:induction false} UnitsConserved(m: Market, steps: seq<Step>, symbol: string)
    requires Sound(m)
    ensures Held(Run(m, steps), symbol) + Net(Run(m, steps), symbol) == Held(m, symbol) + Net(m, symbol)
  {
    hide Apply, Sound, Held, Net;
    if |steps| > 0 {
      var init := steps[..|steps| - 1];
      UnitsConserved(m, init, symbol);
      RunKeepsSound(m, init);
      assert LedgersSound(Run(m, init)) by { SoundLedgers(Run(m, init)); }
      ApplyConserves(Run(m, init), steps[|steps| - 1], symbol, 0.0);
    }
  }

  lemma SoundLedgers(m: Market)
    requires Sound(m)
    ensures LedgersSound(m)
  {}

  // All orders of `symbol`, resting and still to be placed, settle as F&O.
  ghost predicate AllFo(m: Market, steps: seq<Step>, symbol: string)
  {
    && (forall i :: 0 <= i < |m.orders| && m.orders[i].req.symbol == symbol ==> m.orders[i].req.fo)
    && (forall k :: 0 <= k < |steps| && steps[k].Place? && steps[k].req.symbol == symbol ==> steps[k].req.fo)
  }

  lemma FoStays(m: Market, s: Step, symbol: string)
    requires AllFo(m, [s], symbol)
    ensures AllFo(Apply(m, s), [], symbol)
  {
    hide Value, MatchStep;
    assert [s][0] == s;
    if s.Match? { MatchKeepsRequests(m, s.id, s.qty); }
  }

  // The F&O book is zero-sum: starting flat, net quantities cancel over users,
  // and so does total P&L at every mark price.
  lemma {:induction false} BookIsZeroSum(m: Market, steps: seq<Step>, symbol: string, mark: real)
    requires Sound(m) && m.positions == map[] && AllFo(m, steps, symbol)
    ensures Net(Run(m, steps), symbol) == 0.0
    ensures Worth(Run(m, steps), symbol, mark) == 0.0
    ensures AllFo(Run(m, steps), [], symbol)
  {
    hide Apply, Sound;
    if |steps| > 0 {
      var init, last := steps[..|steps| - 1], steps[|steps| - 1];
      BookIsZeroSum(m, init, symbol, mark);
      RunKeepsSound(m, init);
      SoundLedgers(Run(m, init));
      ApplyConserves(Run(m, init), last, symbol, mark);
      FoStays(Run(m, init), last, symbol);
    }
  }

  // ----- Quantities --------------------------------------------------------------------

  // get_fill_stats_by_order_id: what the tape records as filled for an order.
  function Traded(tape: seq<Trade>, id: int): nat
  {
    if |tape| == 0 then 0
    else
      var t := tape[|tape| - 1];
      Traded(tape[..|tape| - 1], id) + if t.buyOrder == id || t.sellOrder == id then t.quantity else 0
  }

  // The tape names known orders only.
  ghost predicate TapeNames(m: Market)
  {
    forall k :: 0 <= k < |m.tape| ==> 0 <= m.tape[k].buyOrder < |m.orders| && 0 <= m.tape[k].sellOrder < |m.orders|
  }

  // Fills plus remainder beyond the quantity asked for.
  ghost function Excess(m: Market, i: nat): int
  {
    if i < |m.orders| then Traded(m.tape, i) + m.orders[i].remaining - m.orders[i].req.quantity else 0
  }

  ghost predicate Accounted(m: Market) { TapeNames(m) && forall i :: 0 <= i < |m.orders| ==> Excess(m, i) == 0 }

  lemma {:induction false} TradedJoin(tape: seq<Trade>, more: seq<Trade>, id: int)
    ensures Traded(tape + more, id) == Traded(tape, id) + Traded(more, id)
  {
    if |more| == 0 {
      assert tape + more == tape;
    } else {
      TradedJoin(tape, more[..|more| - 1], id);
      assert (tape + more)[..|tape + more| - 1] == tape + more[..|more| - 1];
    }
  }

  lemma {:induction false} UnknownNeverTraded(tape: seq<Trade>, n: nat, id: int)
    requires forall k :: 0 <= k < |tape| ==> tape[k].buyOrder < n && tape[k].sellOrder < n
    requires id >= n
    ensures Traded(tape, id) == 0
  {
    if |tape| > 0 { UnknownNeverTraded(tape[..|tape| - 1], n, id); }
  }

  lemma {:induction false} TradedByTransaction(m: Market, id: int, ts: seq<Trade>, n: nat, x: nat)
    requires 0 <= id < |m.orders| && GoodTrades(m, id, ts) && n <= |ts| && x < |m.orders|
    ensures x == id ==> Traded(ts[..n], x) == Volume(ts[..n])
    ensures x != id && (forall j :: 0 <= j < n ==> Other(id, ts[j]) != x) ==> Traded(ts[..n], x) == 0
    ensures forall j :: 0 <= j < n && Other(id, ts[j]) == x ==> Traded(ts[..n], x) == ts[j].quantity
  {
    hide Selectable;
    if n > 0 {
      TradedByTransaction(m, id, ts, n - 1, x);
      VolumePush(ts, n);
      assert Sane(m.orders, id, ts[n - 1]);
      assert ts[..n][..n - 1] == ts[..n - 1];
      forall j | 0 <= j < n && Other(id, ts[j]) == x ensures Traded(ts[..n], x) == ts[j].quantity {
        assert Sane(m.orders, id, ts[j]);
      }
    }
  }

  // What one step runs order `i` for beyond what it still lacks.
  ghost function Overran(m: Market, s: Step, i: nat): int
  {
    if i < |m.orders| && s.Match? && s.id == i && Apply(m, s).tape != m.tape then s.qty - m.orders[i].remaining else 0
  }

  ghost function Overruns(m: Market, steps: seq<Step>, i: nat): int
  {
    if |steps| == 0 then 0
    else
      var init := steps[..|steps| - 1];
      Overruns(m, init, i) + Overran(Run(m, init), steps[|steps| - 1], i)
  }

  lemma SettledAccounts(m: Market, m': Market, id: int, qty: nat, ts: seq<Trade>, x: nat)
    requires 0 <= id < |m.orders| && GoodTrades(m, id, ts) && Settled(m, m', id, qty, ts, |ts|) && x < |m.orders|
    ensures |m'.orders| == |m.orders|
    ensures Excess(m', x) == Excess(m, x) + if x == id && |ts| > 0 then qty - m.orders[id].remaining else 0
  {
    hide Volume, Selectable, Traded;
    assert ts[..|ts|] == ts;
    TradedJoin(m.tape, ts, x);
    if x == id {
      OwnFills(m, m', id, qty, ts);
    } else if j :| 0 <= j < |ts| && Other(id, ts[j]) == x {
      RestingFills(m, m', id, qty, ts, j);
    } else {
      TradedByTransaction(m, id, ts, |ts|, x);
    }
  }

  lemma OwnFills(m: Market, m': Market, id: int, qty: nat, ts: seq<Trade>)
    requires 0 <= id < |m.orders| && GoodTrades(m, id, ts) && Settled(m, m', id, qty, ts, |ts|)
    ensures Traded(ts, id) + m'.orders[id].remaining == if |ts| > 0 then qty else m.orders[id].remaining
  {
    hide Selectable, GoodTrades;
    assert ts[..|ts|] == ts;
    TradedByTransaction(m, id, ts, |ts|, id);
    NoTradesNoVolume(ts);
  }

  lemma RestingFills(m: Market, m': Market, id: int, qty: nat, ts: seq<Trade>, j: nat)
    requires 0 <= id < |m.orders| && GoodTrades(m, id, ts) && Settled(m, m', id, qty, ts, |ts|) && j < |ts|
    requires 0 <= Other(id, ts[j]) < |m.orders|
    ensures var x := Other(id, ts[j]);
      Traded(ts, x) + m'.orders[x].remaining == m.orders[x].remaining
  {
    hide Selectable, Traded, Volume;
    assert ts[..|ts|] == ts;
    assert Sane(m.orders, id, ts[j]);
    TradedByTransaction(m, id, ts, |ts|, Other(id, ts[j]));
  }

  lemma NoTradesNoVolume(ts: seq<Trade>)
    ensures |ts| == 0 ==> Volume(ts) == 0
  {}

  lemma MatchAccounts(m: Market, id: int, qty: int, x: nat)
    requires TapeNames(m)
    ensures TapeNames(MatchStep(m, id, qty)) && |MatchStep(m, id, qty).orders| == |m.orders|
    ensures Excess(MatchStep(m, id, qty), x) == Excess(m, x) + Overran(m, Match(id, qty), x)
  {
    hide Proposed, SettleAll, IsUnpriced, BookRows, Traded;
    if 0 <= id < |m.orders| && qty > 0 && m.orders[id].book != PendingTrigger {
      SettlementAccounts(m, id, qty, x);
    }
  }

  lemma SettlementAccounts(m: Market, id: int, qty: nat, x: nat)
    requires 0 <= id < |m.orders| && TapeNames(m)
    ensures var ts := Proposed(m, id, qty);
            var s := SettleAll(m, id, qty, ts, |ts|);
            s.Some? ==>
              && TapeNames(s.value) && |s.value.orders| == |m.orders|
              && Excess(s.value, x) == Excess(m, x)
                   + if x == id && s.value.tape != m.tape then qty - m.orders[id].remaining else 0
  {
    hide Proposed, SettleAll, GoodTrades, Settled, Excess;
    var ts := Proposed(m, id, qty);
    ProposedAreGood(m, id, qty);
    if SettleAll(m, id, qty, ts, |ts|).Some? {
      var m' := SettleAll(m, id, qty, ts, |ts|).value;
      SettlementTouches(m, id, qty, ts, |ts|);
      SameTables(m, m', id, qty, ts, |ts|);
      SettledTape(m, m', id, qty, ts);
      if x < |m.orders| { SettledAccounts(m, m', id, qty, ts, x); } else { NoSuchOrder(m, m', x); }
      forall k | 0 <= k < |m'.tape|
        ensures 0 <= m'.tape[k].buyOrder < |m'.orders| && 0 <= m'.tape[k].sellOrder < |m'.orders|
      {
        if k >= |m.tape| { TradeNamesOrders(m, id, ts, k - |m.tape|); }
      }
    }
  }

  lemma NoSuchOrder(m: Market, m': Market, x: nat)
    requires |m.orders| == |m'.orders| <= x
    ensures Excess(m, x) == Excess(m', x) == 0
  {}

  lemma TradeNamesOrders(m: Market, id: int, ts: seq<Trade>, k: nat)
    requires 0 <= id < |m.orders| && GoodTrades(m, id, ts) && k < |ts|
    ensures 0 <= ts[k].buyOrder < |m.orders| && 0 <= ts[k].sellOrder < |m.orders|
  {
    assert Sane(m.orders, id, ts[k]);
  }

  lemma ApplyAccounts(m: Market, s: Step, x: nat)
    requires TapeNames(m) && OrdersSound(m)
    ensures TapeNames(Apply(m, s)) && |Apply(m, s).orders| >= |m.orders|
    ensures Excess(Apply(m, s), x) == Excess(m, x) + Overran(m, s, x)
  {
    hide MatchStep, PlaceStep, CancelStep, AmendStep, TriggerStep, Excess, TapeNames, OrdersSound;
    match s
    case Place(r) => PlaceAccounts(m, r, x);
    case Match(id, qty) => MatchAccounts(m, id, qty, x);
    case Cancel(user, id) => CancelAccounts(m, user, id, x);
    case Amend(user, id, price, quantity, trigger) => AmendAccounts(m, user, id, price, quantity, trigger, x);
    case Trigger(symbol, ltp) => TriggerAccounts(m, symbol, ltp, x);
  }

  lemma PlaceAccounts(m: Market, r: Request, x: nat)
    requires TapeNames(m)
    ensures var m' := PlaceStep(m, r); TapeNames(m') && |m'.orders| >= |m.orders| && Excess(m', x) == Excess(m, x)
  {
    hide Value, Traded;
    UnknownNeverTraded(m.tape, |m.orders|, |m.orders|);
  }

  lemma CancelAccounts(m: Market, user: int, id: int, x: nat)
    requires TapeNames(m)
    ensures var m' := CancelStep(m, user, id);
      TapeNames(m') && |m'.orders| == |m.orders| && Excess(m', x) == Excess(m, x)
  {
    hide Value, Traded;
  }

  lemma AmendAccounts(m: Market, user: int, id: int, price: Option<real>, quantity: Option<int>, trigger: Option<real>,
      x: nat)
    requires TapeNames(m) && OrdersSound(m)
    ensures var m' := AmendStep(m, user, id, price, quantity, trigger);
      TapeNames(m') && |m'.orders| == |m.orders| && Excess(m', x) == Excess(m, x)
  {
    hide Value, Traded;
  }

  lemma TriggerAccounts(m: Market, symbol: string, ltp: real, x: nat)
    requires TapeNames(m)
    ensures var m' := TriggerStep(m, symbol, ltp);
      TapeNames(m') && |m'.orders| == |m.orders| && Excess(m', x) == Excess(m, x)
  {
    hide Traded;
  }

  // Over every run, an order's fills plus its remainder exceed the quantity
  // asked for by exactly what trading transactions ran it for beyond what it
  // still lacked.
  lemma {:induction false} FillsExactly(m: Market, steps: seq<Step>, x: nat)
    requires Sound(m) && TapeNames(m)
    ensures TapeNames(Run(m, steps)) && |Run(m, steps).orders| >= |m.orders|
    ensures Excess(Run(m, steps), x) == Excess(m, x) + Overruns(m, steps, x)
  {
    hide Apply, Sound, TapeNames, Excess, Overran;
    if |steps| > 0 {
      var init, last := steps[..|steps| - 1], steps[|steps| - 1];
      FillsExactly(m, init, x);
      RunKeepsSound(m, init);
      SoundOrders(Run(m, init));
      ApplyAccounts(Run(m, init), last, x);
    }
  }

  lemma FreshNeverOverran(m: Market, s: Step, x: nat)
    requires Fresh(m, s)
    ensures Overran(m, s, x) == 0
  {
    hide Proposed, SettleAll, IsUnpriced, BookRows;
  }

  lemma {:induction false} FreshNeverOverruns(m: Market, steps: seq<Step>, x: nat)
    requires FreshRun(m, steps)
    ensures Overruns(m, steps, x) == 0
  {
    hide Apply, Fresh, Overran;
    if |steps| > 0 {
      var init := steps[..|steps| - 1];
      assert forall k :: 0 <= k < |init| ==> init[..k] == steps[..k];
      FreshNeverOverruns(m, init, x);
      assert Fresh(Run(m, steps[..|init|]), steps[|init|]);
      FreshNeverOverran(Run(m, init), steps[|init|], x);
    }
  }

  // So when every match runs for what the book still holds, no order is ever
  // overfilled: fills plus remainder is the quantity asked for.
  lemma NoOverfill(m: Market, steps: seq<Step>)
    requires Sound(m) && Accounted(m) && FreshRun(m, steps)
    ensures Accounted(Run(m, steps))
  {
    hide Run, Sound, Excess, Overruns, FreshRun, TapeNames;
    FillsExactly(m, steps, 0);
    forall x | 0 <= x < |Run(m, steps).orders| ensures Excess(Run(m, steps), x) == 0 {
      FillsExactly(m, steps, x);
      FreshNeverOverruns(m, steps, x);
      if x >= |m.orders| { NoSuchOrder(m, m, x); }
    }
  }

  lemma SoundOrders(m: Market)
    requires Sound(m)
    ensures OrdersSound(m)
  {}
}
