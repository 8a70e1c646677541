// The order book as its users see it: what the requests, the trigger, the book
// query, the matching transaction and its settlement do, told by the prices,
// quantities and statuses of the rows themselves.
module OrderBook {
  import opened Positions
  import opened Matching
  import opened Wrappers
  import opened Exchange
  import opened Settlement
  import opened ExchangeMoney
  import opened Dormancy

  // ----- Placing and amending -----------------------------------------------------------

  // A request is placed exactly when its quantity and any price and trigger are
  // positive and, for a cash BUY, it has a price and the wallet covers the cost.
  // The order then rests whole, dormant if it is a STOP or a STOPLIMIT, and that
  // cost leaves the wallet; otherwise nothing changes.
  lemma PlacedExactly(m: Market, r: Request)
    ensures var m' := PlaceStep(m, r);
            var cash := r.side.Buy? && r.contract != Futures;
            var valid := r.quantity > 0 && (r.price.Some? ==> r.price.value > 0.0)
              && (r.trigger.Some? ==> r.trigger.value > 0.0);
            var covered := r.price.Some? && r.user in m.wallets
              && m.wallets[r.user] >= Value(r.quantity, r.price.value);
            var start := if r.kind == Stop || r.kind == StopLimit then PendingTrigger else Pending;
            if valid && (cash ==> covered) then
              && m'.orders == m.orders + [Order(r, r.quantity, start, start)]
              && m'.wallets == (if cash then m.wallets[r.user := m.wallets[r.user] - Value(r.quantity, r.price.value)]
                                else m.wallets)
            else m' == m
  {
    hide Value;
  }

  // A cancel takes effect exactly on the user's own order while it is pending,
  // and gives a cash BUY its whole cost back.
  lemma CancelledExactly(m: Market, user: int, id: int)
    requires Sound(m)
    ensures var m' := CancelStep(m, user, id);
            if 0 <= id < |m.orders| && m.orders[id].req.user == user
               && (m.orders[id].status == Pending || m.orders[id].status == PendingTrigger) then
              var o := m.orders[id];
              && m'.orders == m.orders[id := o.(status := Cancelled, book := Cancelled)]
              && m'.wallets == (if o.req.side.Buy? && o.req.contract != Futures && o.req.price.value > 0.0
                                then m.wallets[user := m.wallets[user] + Value(o.req.quantity, o.req.price.value)]
                                else m.wallets)
            else m' == m
  {
    hide Value;
  }

  // An amend takes effect exactly on the user's own order while it is pending, if
  // the engine holds no margin for it, every value named is positive, and, for a
  // cash BUY, the wallet covers what the new cost is above the old.  Then each
  // field it names has the value named and every other the value it had, a new
  // quantity rests whole, and the wallet has moved by that difference.
  lemma AmendedExactly(m: Market, user: int, id: int, price: Option<real>, quantity: Option<int>,
                       trigger: Option<real>)
    requires Sound(m) && 0 <= id < |m.orders| && (price.Some? || quantity.Some? || trigger.Some?)
    ensures var (m', o) := (AmendStep(m, user, id, price, quantity, trigger), m.orders[id]);
            var newPrice := if price.Some? then price else o.req.price;
            var newQuantity := if quantity.Some? then quantity.value else o.req.quantity;
            var newTrigger := if trigger.Some? then trigger else o.req.trigger;
            var cash := o.req.side.Buy? && o.req.contract != Futures;
            var rise := if cash then Value(newQuantity, newPrice.value) - Value(o.req.quantity, o.req.price.value)
                        else 0.0;
            var named := (price.Some? ==> price.value > 0.0) && (quantity.Some? ==> quantity.value > 0)
              && (trigger.Some? ==> trigger.value > 0.0);
            var margined := o.req.fo && o.req.contract != Equity && (o.req.contract == Futures || o.req.side.Sell?);
            if o.req.user == user && (o.status == Pending || o.status == PendingTrigger) && named && !margined
               && (cash && rise > 0.0 ==> rise <= m.wallets[user]) then
              && m'.orders == m.orders[id := o.(
                   req := o.req.(price := newPrice, quantity := newQuantity, trigger := newTrigger),
                   remaining := newQuantity)]
              && m'.wallets == (if cash then m.wallets[user := m.wallets[user] - rise] else m.wallets)
            else m' == m
  {
    hide Value;
  }

  // ----- The book query -----------------------------------------------------------------

  // The rows against a BUY: sells of other users in the symbol, awake and not
  // used up; cheapest first, unpriced last, oldest first at equal price.
  // Against a SELL, the buys, dearest first and unpriced first.
  lemma QueryIsBestPriceOldestFirst(taker: Request, orders: seq<Order>)
    ensures var ids := Query(taker, orders, |orders|);
      && (forall x: nat :: x in ids <==>
            && x < |orders| && orders[x].req.symbol == taker.symbol && orders[x].req.side != taker.side
            && orders[x].req.user != taker.user && orders[x].remaining > 0
            && (orders[x].book == Pending || orders[x].book == PartiallyExecuted))
      && (forall i, j :: 0 <= i < j < |ids| ==>
            var p, q := orders[ids[i]].req.price, orders[ids[j]].req.price;
            && (p == q ==> ids[i] < ids[j])
            && (p.Some? && q.Some? ==> if taker.side.Buy? then p.value <= q.value else p.value >= q.value)
            && (p.None? && q.Some? ==> taker.side.Sell?) && (p.Some? && q.None? ==> taker.side.Buy?))
  {
    hide Query;
    QueryMembers(taker, orders, |orders|);
    QueryIsPriceTime(taker, orders, |orders|);
    var ids := Query(taker, orders, |orders|);
    forall i, j | 0 <= i < j < |ids|
      ensures var p, q := orders[ids[i]].req.price, orders[ids[j]].req.price;
        && (p == q ==> ids[i] < ids[j])
        && (p.Some? && q.Some? ==> if taker.side.Buy? then p.value <= q.value else p.value >= q.value)
        && (p.None? && q.Some? ==> taker.side.Sell?) && (p.Some? && q.None? ==> taker.side.Buy?)
    {
      assert InOrder(taker, orders, ids[i], ids[j]);
    }
  }

  // ----- The matching transaction ---------------------------------------------------------

  // A transaction that does not fail and leaves some of its quantity unfilled
  // leaves nothing on the book that could have filled it: no order of another
  // user on the other side, awake and not used up, at a price within the limit.
  lemma BookIsNeverLeftCrossed(m: Market, id: int, qty: nat, ts: seq<Trade>, y: nat)
    requires 0 <= id < |m.orders| && y < |m.orders| && qty > 0 && m.orders[id].book != PendingTrigger
    requires MatchStep(m, id, qty).orders != m.orders[id := m.orders[id].(status := Failed)]
    requires MatchStep(m, id, qty).tape == m.tape + ts && Volume(ts) < qty
    ensures |MatchStep(m, id, qty).orders| == |m.orders|
    ensures var taker, row := m.orders[id].req, MatchStep(m, id, qty).orders[y];
      && row.req.symbol == taker.symbol && row.req.side != taker.side && row.req.user != taker.user
      && (row.book == Pending || row.book == PartiallyExecuted) && row.remaining > 0 ==>
        && taker.price.Some? && row.req.price.Some?
        && (if taker.side.Buy? then row.req.price.value > taker.price.value
            else row.req.price.value < taker.price.value)
  {
    hide MatchStep, Settled, GoodTrades, Proposed, Volume, IsUnpriced, BookRows, SettleAll;
    var m' := MatchStep(m, id, qty);
    Succeeded(m, id, qty);
    assert (m.tape + ts)[|m.tape|..] == (m.tape + Proposed(m, id, qty))[|m.tape|..];
    SettlementTouches(m, id, qty, ts, |ts|);
    SameTables(m, m', id, qty, ts, |ts|);
    SettledRow(m, m', id, qty, ts, |ts|, y);
    if m'.orders[y].remaining > 0 && Selectable(m.orders[id].req, m'.orders[y]) {
      assert y != id;
      WasSelectable(m, m', id, qty, ts, y);
      LeftRow(m, m', id, qty, y);
    }
  }

  // What a transaction that did not fail has settled.
  lemma Succeeded(m: Market, id: int, qty: nat)
    requires 0 <= id < |m.orders| && qty > 0 && m.orders[id].book != PendingTrigger
    requires MatchStep(m, id, qty).orders != m.orders[id := m.orders[id].(status := Failed)]
    ensures var ts, m' := Proposed(m, id, qty), MatchStep(m, id, qty);
      && SettleAll(m, id, qty, ts, |ts|) == Some(m') && GoodTrades(m, id, ts) && m'.tape == m.tape + ts
      && !IsUnpriced(Taker(m, id, qty), BookRows(m, id), |BookRows(m, id)|)
  {
    hide Proposed, SettleAll, IsUnpriced, BookRows, GoodTrades, Settled;
    var ts, m' := Proposed(m, id, qty), MatchStep(m, id, qty);
    ProposedAreGood(m, id, qty);
    SettlementTouches(m, id, qty, ts, |ts|);
    SettledTape(m, m', id, qty, ts);
  }

  // A row still selectable after the transaction was so before it.
  lemma WasSelectable(m: Market, m': Market, id: int, qty: nat, ts: seq<Trade>, y: nat)
    requires 0 <= id < |m.orders| && y < |m.orders| && y != id
    requires GoodTrades(m, id, ts) && Settled(m, m', id, qty, ts, |ts|) && Selectable(m.orders[id].req, m'.orders[y])
    ensures Selectable(m.orders[id].req, m.orders[y])
  {
    if j :| 0 <= j < |ts| && Other(id, ts[j]) == y { assert Sane(m.orders, id, ts[j]); }
  }

  lemma LeftRow(m: Market, m': Market, id: int, qty: nat, y: nat)
    requires 0 <= id < |m.orders| && y < |m.orders| && Selectable(m.orders[id].req, m.orders[y])
    requires var ts := Proposed(m, id, qty);
      Settled(m, m', id, qty, ts, |ts|) && Volume(ts) < qty && m'.orders[y].remaining > 0
    requires !IsUnpriced(Taker(m, id, qty), BookRows(m, id), |BookRows(m, id)|)
    ensures var taker, price := m.orders[id].req, m.orders[y].req.price;
      && taker.price.Some? && price.Some?
      && (if taker.side.Buy? then price.value > taker.price.value else price.value < taker.price.value)
  {
    hide Query, Volume, IsUnpriced, Taken, TradesOf;
    var inc, rows := Taker(m, id, qty), BookRows(m, id);
    var ids := Query(m.orders[id].req, m.orders, |m.orders|);
    QueryMembers(m.orders[id].req, m.orders, |m.orders|);
    var k :| 0 <= k < |ids| && ids[k] == y;
    if Taken(inc, rows, k) > 0 {
      TakenIsTraded(inc, rows, k, |rows|);
      var ts := Proposed(m, id, qty);
      var j :| 0 <= j < |ts| && ts[j] == TradeWith(inc, rows[k], Taken(inc, rows, k));
      assert Other(id, ts[j]) == y;
    }
    NothingCrossingIsLeft(inc, rows, k);
  }

  // ----- Status ------------------------------------------------------------------------------

  // EXECUTED in the book means nothing is left, and the two tables agree on an
  // order's status unless it is FAILED.
  ghost predicate StatusFits(o: Order)
  {
    (o.book == Executed <==> o.remaining == 0) && (o.status == Failed || o.status == o.book)
  }

  ghost predicate StatusesFit(m: Market) { forall x :: 0 <= x < |m.orders| ==> StatusFits(m.orders[x]) }

  lemma MatchKeepsStatuses(m: Market, id: int, qty: int)
    requires StatusesFit(m)
    ensures StatusesFit(MatchStep(m, id, qty))
  {
    hide Proposed, SettleAll, IsUnpriced, BookRows, GoodTrades, Settled;
    if 0 <= id < |m.orders| && qty > 0 && m.orders[id].book != PendingTrigger {
      var ts := Proposed(m, id, qty);
      ProposedAreGood(m, id, qty);
      if SettleAll(m, id, qty, ts, |ts|).Some? {
        var m' := SettleAll(m, id, qty, ts, |ts|).value;
        SettlementTouches(m, id, qty, ts, |ts|);
        SameTables(m, m', id, qty, ts, |ts|);
        forall x | 0 <= x < |m'.orders| ensures StatusFits(m'.orders[x]) { SettledRow(m, m', id, qty, ts, |ts|, x); }
      }
    }
  }

  lemma StepKeepsStatuses(m: Market, s: Step)
    requires Sound(m) && StatusesFit(m)
    ensures StatusesFit(Apply(m, s))
  {
    hide Value, MatchStep, AmendStep;
    match s {
      case Match(id, qty) => MatchKeepsStatuses(m, id, qty);
      case Amend(user, id, price, quantity, trigger) =>
        if 0 <= id < |m.orders| && (price.Some? || quantity.Some? || trigger.Some?) {
          AmendedExactly(m, user, id, price, quantity, trigger);
        } else {
          EmptyAmend(m, user, id, price, quantity, trigger);
        }
      case _ =>
    }
  }

  lemma EmptyAmend(m: Market, user: int, id: int, price: Option<real>, quantity: Option<int>, trigger: Option<real>)
    requires !(0 <= id < |m.orders|) || (price.None? && quantity.None? && trigger.None?)
    ensures AmendStep(m, user, id, price, quantity, trigger) == m
  {
    hide Value;
  }

  // Over every run: an order is EXECUTED exactly when nothing of it is left.
  lemma {:induction false} ExecutedIffNothingLeft(m: Market, steps: seq<Step>)
    requires Sound(m) && StatusesFit(m)
    ensures StatusesFit(Run(m, steps))
  {
    hide Apply, Sound, StatusesFit;
    if |steps| > 0 {
      ExecutedIffNothingLeft(m, steps[..|steps| - 1]);
      RunKeepsSound(m, steps[..|steps| - 1]);
      StepKeepsStatuses(Run(m, steps[..|steps| - 1]), steps[|steps| - 1]);
    }
  }
}
