// service/orderUpdateService.py: what the broker's order-update feed does to
// live F&O orders.  The feed may deliver an update more than once, late, or
// after the order has been cancelled.
module BrokerUpdates {
  import opened Positions
  import opened Wrappers
  import opened Text
  import Exchange
  import Live = PositionBook

  type Status = Exchange.Status

  datatype Order = Order(user: int, symbol: string, side: Side, quantity: int, price: Option<real>, futures: bool,
                         exchange: Option<string>, token: Option<string>, status: Status)
  {
    // The statuses a cancel may start from.
    predicate Pending() { status == Exchange.Pending || status == Exchange.PendingTrigger }
  }

  datatype Trade = Trade(order: int, qty: int, price: real)

  datatype Refund = Refund(order: int, amount: real)

  // How the transaction a delivery opens ends.  A failure rolls the database
  // back, fill id included; what settlement wrote to the position cache before
  // a later failure stays.
  datatype Delivery = Commits | FailsBefore | FailsAfter

  datatype Event =
    | Filling(order: int, flid: string, qty: int, price: real, delivery: Delivery)
    | Rejected(order: int)
    | Canceled(order: int)

  // `trades` is trade_history, `refunds` the standalone credits issued.
  datatype State = State(
    orders: map<int, Order>, flids: set<string>, trades: seq<Trade>, book: Live.Book, refunds: seq<Refund>)

  function FilledQty(trades: seq<Trade>, order: int): int
  {
    if |trades| == 0 then 0
    else
      var t := trades[|trades| - 1];
      FilledQty(trades[..|trades| - 1], order) + if t.order == order then t.qty else 0
  }

  predicate Wanted(e: Event) { e.Filling? && e.qty > 0 && e.price > 0.0 }

  // PositionService.apply_fill takes the order's fills.
  predicate Settleable(o: Order) { o.user > 0 && Strip(o.symbol) != "" }

  function KeyOf(o: Order): Live.Key { (o.user, Upper(Strip(o.symbol))) }

  // A valid fill of a known order that can be settled.
  predicate Proper(s: State, e: Event) { Wanted(e) && e.order in s.orders && Settleable(s.orders[e.order]) }

  predicate Claimed(s: State, e: Event)
    requires e.Filling?
  {
    e.flid != "" && e.flid in s.flids
  }

  predicate Committable(s: State, e: Event) { Proper(s, e) && e.delivery.Commits? }

  predicate Settles(s: State, e: Event) { Committable(s, e) && !Claimed(s, e) }

  // Settlement runs and is then rolled back.
  predicate FailsLate(s: State, e: Event) { Proper(s, e) && e.delivery.FailsAfter? && !Claimed(s, e) }

  function Claim(flids: set<string>, flid: string): set<string> { if flid == "" then flids else flids + {flid} }

  // The order's fill, as a fill of its position.
  function FillOf(o: Order, e: Event): Fill
    requires Wanted(e)
  {
    Fill(o.side, e.qty, e.price)
  }

  function SettledBook(s: State, e: Event): Live.Book
    requires Proper(s, e)
  {
    var o := s.orders[e.order];
    Live.FillStep(s.book, KeyOf(o), FillOf(o, e), o.exchange, o.token)
  }

  function SettleStep(s: State, e: Event): State
    requires Settles(s, e)
  {
    var o := s.orders[e.order];
    var trades := s.trades + [Trade(e.order, e.qty, e.price)];
    var status := if FilledQty(trades, e.order) >= o.quantity then Exchange.Executed else Exchange.PartiallyExecuted;
    State(s.orders[e.order := o.(status := status)], Claim(s.flids, e.flid), trades, SettledBook(s, e), s.refunds)
  }

  // The table row is rolled back, the cache is not.
  function LateBook(s: State, e: Event): Live.Book
    requires Proper(s, e)
  {
    SettledBook(s, e).(rows := s.book.rows)
  }

  // What a cancelled order is owed: a cash BUY, and only if it was paid for.
  function Owed(o: Order): Option<real>
  {
    if o.side.Buy? && !o.futures && o.price.Some? && o.price.value > 0.0 && o.quantity > 0
    then Some(Value(o.quantity, o.price.value)) else None
  }

  function CancelStep(s: State, id: int): State
  {
    if id !in s.orders || !s.orders[id].Pending() then s
    else
      var o := s.orders[id];
      s.(orders := s.orders[id := o.(status := Exchange.Cancelled)],
         refunds := if Owed(o).Some? then s.refunds + [Refund(id, Owed(o).value)] else s.refunds)
  }

  function Apply(s: State, e: Event): State
  {
    match e
    case Filling(_, _, _, _, _) =>
      if Settles(s, e) then SettleStep(s, e) else if FailsLate(s, e) then s.(book := LateBook(s, e)) else s
    case Rejected(id) => CancelStep(s, id)
    case Canceled(id) => CancelStep(s, id)
  }

  function Run(s: State, events: seq<Event>): State
  {
    if |events| == 0 then s else Apply(Run(s, events[..|events| - 1]), events[|events| - 1])
  }

  lemma RunOne(s: State, events: seq<Event>, e: Event)
    ensures Run(s, events + [e]) == Apply(Run(s, events), e)
  {
    assert (events + [e])[..|events|] == events;
  }

  lemma RunLast(s: State, events: seq<Event>)
    ensures Run(s, events) == if |events| == 0 then s else Apply(Run(s, events[..|events| - 1]), events[|events| - 1])
  {}

  // ----- Redelivery -----------------------------------------------------------------------------

  // The same broker fill as an earlier valid delivery.
  predicate Repeats(events: seq<Event>, e: Event)
  {
    Wanted(e) && e.flid != "" && exists j :: 0 <= j < |events| && Wanted(events[j]) && events[j].flid == e.flid
  }

  function DropRepeats(events: seq<Event>): seq<Event>
  {
    if |events| == 0 then []
    else
      var init, e := events[..|events| - 1], events[|events| - 1];
      if Repeats(init, e) then DropRepeats(init) else DropRepeats(init) + [e]
  }

  // A failed settlement that leaves its mark on the position cache.
  predicate Marks(s: State, e: Event) { FailsLate(s, e) && LateBook(s, e) != s.book }

  // Every repeat found the fill already settled, or failed without a mark.
  ghost predicate RepeatsAreInert(s: State, events: seq<Event>)
  {
    forall i :: 0 <= i < |events| && Repeats(events[..i], events[i]) ==>
      !Settles(Run(s, events[..i]), events[i]) && !Marks(Run(s, events[..i]), events[i])
  }

  lemma {:induction false} OrdersStay(s: State, events: seq<Event>)
    ensures Run(s, events).orders.Keys == s.orders.Keys
    ensures forall o :: o in s.orders ==>
      Run(s, events).orders[o] == s.orders[o].(status := Run(s, events).orders[o].status)
  {
    hide Apply;
    if |events| > 0 {
      OrdersStay(s, events[..|events| - 1]);
      OrderStays(Run(s, events[..|events| - 1]), events[|events| - 1]);
    }
  }

  lemma OrderStays(s: State, e: Event)
    ensures Apply(s, e).orders.Keys == s.orders.Keys
    ensures forall o :: o in s.orders ==> Apply(s, e).orders[o] == s.orders[o].(status := Apply(s, e).orders[o].status)
  {
    hide FilledQty, Live.FillStep, Strip, Upper;
  }

  // The ids claimed are those there at the start and those of the deliveries
  // that could commit.
  lemma {:induction false} ClaimedFlids(s: State, events: seq<Event>, x: string)
    requires x != ""
    ensures x in Run(s, events).flids <==>
      x in s.flids || exists i :: 0 <= i < |events| && Committable(s, events[i]) && events[i].flid == x
  {
    hide FilledQty, Live.FillStep, Strip, Upper;
    if |events| > 0 {
      var init, e := events[..|events| - 1], events[|events| - 1];
      ClaimedFlids(s, init, x);
      OrdersStay(s, init);
      assert Committable(Run(s, init), e) == Committable(s, e);
      assert forall i :: 0 <= i < |init| ==> init[i] == events[i];
    }
  }

  lemma RepeatIsFill(events: seq<Event>, e: Event)
    ensures Repeats(events, e) ==> e.Filling? && e.flid != ""
  {}

  // What a fill changes, if anything.
  lemma FillChangesIff(s: State, e: Event)
    requires e.Filling?
    ensures Apply(s, e) != s <==> Settles(s, e) || Marks(s, e)
  {
    hide FilledQty, Live.FillStep;
    if Settles(s, e) { assert |Apply(s, e).trades| == |s.trades| + 1; }
  }

  // Processing the deliveries is, at every point of the feed, processing them
  // with repeated fill ids dropped, exactly when no repeat makes up for a
  // delivery that failed and none fails once more after settlement.
  lemma {:induction false} RedeliveryIsHarmlessIff(s: State, events: seq<Event>)
    ensures (forall n :: 0 <= n <= |events| ==> Run(s, DropRepeats(events[..n])) == Run(s, events[..n]))
      <==> RepeatsAreInert(s, events)
  {
    hide Run, DropRepeats, Settles, Marks, Repeats, Apply;
    if RepeatsAreInert(s, events) {
      forall n | 0 <= n <= |events| ensures Run(s, DropRepeats(events[..n])) == Run(s, events[..n]) {
        InertPrefix(s, events, n);
        DroppingIsHarmless(s, events[..n]);
      }
    } else {
      var i: nat :| i < |events| && Repeats(events[..i], events[i])
        && (Settles(Run(s, events[..i]), events[i]) || Marks(Run(s, events[..i]), events[i]));
      RepeatIsFill(events[..i], events[i]);
      FillChangesIff(Run(s, events[..i]), events[i]);
      OneMoreEvent(s, events, i);
    }
  }

  lemma InertPrefix(s: State, events: seq<Event>, n: nat)
    requires RepeatsAreInert(s, events) && n <= |events|
    ensures RepeatsAreInert(s, events[..n])
  {
    hide Run, Settles, Marks, Repeats;
    forall i | 0 <= i < n && Repeats(events[..n][..i], events[..n][i])
      ensures !Settles(Run(s, events[..n][..i]), events[..n][i]) && !Marks(Run(s, events[..n][..i]), events[..n][i])
    {
      assert events[..n][..i] == events[..i] && events[..n][i] == events[i];
    }
  }

  lemma OneMoreEvent(s: State, events: seq<Event>, i: nat)
    requires i < |events| && Repeats(events[..i], events[i])
    ensures Run(s, events[..i + 1]) == Apply(Run(s, events[..i]), events[i])
    ensures DropRepeats(events[..i + 1]) == DropRepeats(events[..i])
  {
    assert events[..i + 1][..i] == events[..i];
  }

  lemma {:induction false} DroppingIsHarmless(s: State, events: seq<Event>)
    requires RepeatsAreInert(s, events)
    ensures Run(s, DropRepeats(events)) == Run(s, events)
  {
    hide Apply, Settles, Marks, Repeats;
    if |events| > 0 {
      var init, e := events[..|events| - 1], events[|events| - 1];
      InertPrefix(s, events, |init|);
      DroppingIsHarmless(s, init);
      assert events[..|init|] == init && events[|init|] == e;
      if Repeats(init, e) {
        RepeatIsFill(init, e);
        FillChangesIff(Run(s, init), e);
      } else {
        RunOne(s, DropRepeats(init), e);
      }
    }
  }

  // DropRepeats keeps, of the deliveries of one fill id, the first.
  lemma {:induction false} KeptIsFirst(events: seq<Event>, k: nat)
    requires k < |DropRepeats(events)|
    ensures exists j :: 0 <= j < |events| && events[j] == DropRepeats(events)[k] && !Repeats(events[..j], events[j])
  {
    var init, e := events[..|events| - 1], events[|events| - 1];
    if k < |DropRepeats(init)| {
      KeptIsFirst(init, k);
      var j :| 0 <= j < |init| && init[j] == DropRepeats(init)[k] && !Repeats(init[..j], init[j]);
      assert init[..j] == events[..j] && init[j] == events[j];
    } else {
      assert events[|events| - 1] == DropRepeats(events)[k];
      assert events[..|events| - 1] == init;
    }
  }

  // A repeat that settles claims an id that the run without repeats leaves
  // unclaimed.
  lemma {:induction false} SettlingRepeatShows(s: State, events: seq<Event>, i: nat)
    requires i < |events| && Repeats(events[..i], events[i]) && Settles(Run(s, events[..i]), events[i])
    ensures events[i].flid in Run(s, events).flids && events[i].flid !in Run(s, DropRepeats(events)).flids
  {
    hide Run, DropRepeats, Strip, Upper;
    var x := events[i].flid;
    ClaimedFlids(s, events[..i], x);
    OrdersStay(s, events[..i]);
    ClaimedFlids(s, events, x);
    assert Committable(s, events[i]);
    var kept := DropRepeats(events);
    ClaimedFlids(s, kept, x);
    if m: nat :| m < |kept| && Committable(s, kept[m]) && kept[m].flid == x {
      KeptIsFirst(events, m);
      assert false;
    }
  }

  // Where no repeat marks the cache, it is enough to look at the end: the two
  // runs end alike exactly when no repeat settles.
  lemma {:induction false} EndsAlikeIff(s: State, events: seq<Event>)
    requires forall i :: 0 <= i < |events| && Repeats(events[..i], events[i]) ==> !Marks(Run(s, events[..i]), events[i])
    ensures Run(s, DropRepeats(events)) == Run(s, events) <==>
      forall i :: 0 <= i < |events| && Repeats(events[..i], events[i]) ==> !Settles(Run(s, events[..i]), events[i])
  {
    hide Run, DropRepeats, Settles, Marks, Repeats;
    if i: nat :| i < |events| && Repeats(events[..i], events[i]) && Settles(Run(s, events[..i]), events[i]) {
      SettlingRepeatShows(s, events, i);
    } else {
      DroppingIsHarmless(s, events);
    }
  }

  // In particular whenever every settlement commits.
  lemma SettledOnce(s: State, events: seq<Event>)
    requires forall i :: 0 <= i < |events| && Wanted(events[i]) ==> Committable(s, events[i])
    ensures Run(s, DropRepeats(events)) == Run(s, events)
  {
    hide Run, DropRepeats, Live.FillStep, Strip, Upper;
    forall i | 0 <= i < |events| && Repeats(events[..i], events[i])
      ensures !Settles(Run(s, events[..i]), events[i]) && !Marks(Run(s, events[..i]), events[i])
    {
      var j :| 0 <= j < i && Wanted(events[..i][j]) && events[..i][j].flid == events[i].flid;
      assert Committable(s, events[..i][j]);
      ClaimedFlids(s, events[..i], events[i].flid);
    }
    DroppingIsHarmless(s, events);
  }

  // A fill that fails after settlement takes effect on the view of its position
  // and on nothing else, unless the database row it rolls back to shows what
  // the cache showed.
  predicate Disturbs(s: State, e: Event)
  {
    FailsLate(s, e) &&
      var k := KeyOf(s.orders[e.order]);
      var after := Filled(Live.View(s.book, k), FillOf(s.orders[e.order], e));
      after.netqty != 0
      || (k in s.book.cache && s.book.cache[k].fig != if k in s.book.rows then s.book.rows[k].fig else FLAT)
  }

  lemma LateFillDisturbsIff(s: State, e: Event)
    requires FailsLate(s, e)
    ensures var k := KeyOf(s.orders[e.order]);
      && (Live.View(Apply(s, e).book, k) != Live.View(s.book, k) <==> Disturbs(s, e))
      && (forall other :: other != k ==> Live.View(Apply(s, e).book, other) == Live.View(s.book, other))
      && Apply(s, e).(book := s.book) == s
  {
    hide Filled, Value, Blend, Strip, Upper, Live.WatchKey;
    var o := s.orders[e.order];
    FilledTotals(Live.View(s.book, KeyOf(o)), FillOf(o, e));
  }

  // Delivered twice, and failing after settlement both times, one fill is taken
  // twice.
  lemma FailingTwiceFillsTwice()
    ensures
      var s := State(map[1 := Order(1, "X", Buy, 1, Some(10.0), false, None, None, Exchange.Pending)],
        {}, [], Live.EMPTY, []);
      var fill := Filling(1, "F1", 1, 10.0, FailsAfter);
      var s' := Run(s, [fill, fill]);
      && Live.View(s'.book, (1, "X")).netqty == 2 && s'.trades == [] && s'.flids == {}
  {
    hide Value, Blend;
    var o := Order(1, "X", Buy, 1, Some(10.0), false, None, None, Exchange.Pending);
    var s := State(map[1 := o], {}, [], Live.EMPTY, []);
    var fill := Filling(1, "F1", 1, 10.0, FailsAfter);
    assert Strip("X") == "X" && Upper("X") == "X";
    assert [fill, fill][..1] == [fill] && [fill][..0] == [];
    assert Run(s, []) == s;
    assert Run(s, [fill]) == Apply(s, fill);
    assert Run(s, [fill, fill]) == Apply(Apply(s, fill), fill);
    FilledTotals(FLAT, FillOf(o, fill));
    FilledTotals(Live.View(Apply(s, fill).book, (1, "X")), FillOf(o, fill));
  }

  // ----- Status and refunds -----------------------------------------------------------------------

  ghost predicate HasTrade(trades: seq<Trade>, o: int) { exists i :: 0 <= i < |trades| && trades[i].order == o }

  function RefundCount(refunds: seq<Refund>, o: int): nat
  {
    if |refunds| == 0 then 0
    else RefundCount(refunds[..|refunds| - 1], o) + if refunds[|refunds| - 1].order == o then 1 else 0
  }

  // Every refund gives back the whole cost of a BUY that was paid for in cash.
  ghost predicate RefundsAreExact(s: State)
  {
    forall i :: 0 <= i < |s.refunds| ==>
      && s.refunds[i].order in s.orders
      && var o := s.orders[s.refunds[i].order];
         o.side.Buy? && !o.futures && o.price.Some? && s.refunds[i].amount == Value(o.quantity, o.price.value)
  }

  // A filled order's status says whether its fills reach the quantity; an order
  // is refunded at most once, with what it was placed for, and a refunded one is
  // no longer pending.
  ghost predicate Consistent(s: State)
  {
    && RefundsAreExact(s)
    && forall o :: o in s.orders ==>
      && (HasTrade(s.trades, o) ==>
            s.orders[o].status ==
              if FilledQty(s.trades, o) >= s.orders[o].quantity then Exchange.Executed else Exchange.PartiallyExecuted)
      && RefundCount(s.refunds, o) <= 1
      && (RefundCount(s.refunds, o) == 1 ==> !s.orders[o].Pending())
  }

  lemma AddTrade(trades: seq<Trade>, t: Trade, o: int)
    ensures HasTrade(trades + [t], o) <==> HasTrade(trades, o) || t.order == o
    ensures FilledQty(trades + [t], o) == FilledQty(trades, o) + if t.order == o then t.qty else 0
  {
    assert (trades + [t])[..|trades|] == trades;
    assert (trades + [t])[|trades|] == t;
    if HasTrade(trades, o) {
      var i :| 0 <= i < |trades| && trades[i].order == o;
      assert (trades + [t])[i].order == o;
    }
  }

  lemma AddRefund(refunds: seq<Refund>, r: Refund, o: int)
    ensures RefundCount(refunds + [r], o) == RefundCount(refunds, o) + if r.order == o then 1 else 0
  {
    assert (refunds + [r])[..|refunds|] == refunds;
  }

  lemma ApplyKeepsConsistent(s: State, e: Event)
    requires Consistent(s)
    ensures Consistent(Apply(s, e))
  {
    hide Live.FillStep, Strip, Upper, HasTrade, FilledQty, RefundCount;
    var s' := Apply(s, e);
    if e.Filling? {
      if Settles(s, e) { forall o { AddTrade(s.trades, Trade(e.order, e.qty, e.price), o); } }
    } else if s' != s && Owed(s.orders[e.order]).Some? {
      forall o { AddRefund(s.refunds, Refund(e.order, Owed(s.orders[e.order]).value), o); }
    }
  }

  // A fill settles exactly when its quantity and price are positive, its order is
  // known and names a user and a symbol, its fill id has not been claimed, and
  // its transaction commits.  Then it is one trade on the tape, its id is claimed,
  // and the order is EXECUTED once its trades reach its quantity.
  lemma FillSettlesExactly(s: State, e: Event)
    requires e.Filling?
    ensures var s' := Apply(s, e);
            var proper := e.qty > 0 && e.price > 0.0 && e.order in s.orders && s.orders[e.order].user > 0
              && (exists i :: 0 <= i < |s.orders[e.order].symbol| && !Blank(s.orders[e.order].symbol[i]));
            if proper && e.delivery == Commits && (e.flid == "" || e.flid !in s.flids) then
              var o := s.orders[e.order];
              var reached := FilledQty(s.trades, e.order) + e.qty >= o.quantity;
              && s'.trades == s.trades + [Trade(e.order, e.qty, e.price)]
              && s'.flids == (if e.flid == "" then s.flids else s.flids + {e.flid}) && s'.refunds == s.refunds
              && s'.orders == s.orders[e.order :=
                   o.(status := if reached then Exchange.Executed else Exchange.PartiallyExecuted)]
            else s'.trades == s.trades && s'.flids == s.flids && s'.orders == s.orders && s'.refunds == s.refunds
  {
    hide Live.FillStep, FilledQty, Strip, Upper;
    if e.order in s.orders { var i, j := StripKeepsTheCore(s.orders[e.order].symbol); }
    AddTrade(s.trades, Trade(e.order, e.qty, e.price), e.order);
  }

  // A rejection or a cancellation of a pending order cancels it and gives a cash
  // BUY its whole cost back; on any other order it does nothing.
  lemma RejectionRefundsInFull(s: State, e: Event)
    requires !e.Filling? && e.order in s.orders
    ensures var (o, s') := (s.orders[e.order], Apply(s, e));
            var paid := o.side.Buy? && !o.futures && o.quantity > 0 && o.price.Some? && o.price.value > 0.0;
            if o.status == Exchange.Pending || o.status == Exchange.PendingTrigger then
              && s'.orders == s.orders[e.order := o.(status := Exchange.Cancelled)]
              && s'.refunds
                   == (if paid then s.refunds + [Refund(e.order, Value(o.quantity, o.price.value))] else s.refunds)
              && s'.trades == s.trades && s'.book == s.book && s'.flids == s.flids
            else s' == s
  {
    hide Value;
  }

  // After any deliveries: a filled order is EXECUTED exactly when its settled
  // fills reach its quantity, and no order is refunded twice.
  lemma {:induction false} AlwaysConsistent(s: State, events: seq<Event>)
    requires Consistent(s)
    ensures Consistent(Run(s, events))
  {
    hide Consistent, Apply;
    if |events| > 0 {
      AlwaysConsistent(s, events[..|events| - 1]);
      ApplyKeepsConsistent(Run(s, events[..|events| - 1]), events[|events| - 1]);
    }
  }

  // Once a fill has settled, nothing the feed delivers refunds the order.
  lemma {:induction false} NoRefundAfterFill(s: State, events: seq<Event>, o: int)
    requires Consistent(s) && o in s.orders && HasTrade(s.trades, o)
    ensures RefundCount(Run(s, events).refunds, o) == RefundCount(s.refunds, o)
    ensures HasTrade(Run(s, events).trades, o)
  {
    hide Consistent, Apply, HasTrade, RefundCount;
    if |events| > 0 {
      NoRefundAfterFill(s, events[..|events| - 1], o);
      AlwaysConsistent(s, events[..|events| - 1]);
      OrdersStay(s, events[..|events| - 1]);
      NoRefundStep(Run(s, events[..|events| - 1]), events[|events| - 1], o);
    }
  }

  lemma NoRefundStep(s: State, e: Event, o: int)
    requires Consistent(s) && o in s.orders && HasTrade(s.trades, o)
    ensures RefundCount(Apply(s, e).refunds, o) == RefundCount(s.refunds, o) && HasTrade(Apply(s, e).trades, o)
  {
    hide Live.FillStep, Strip, Upper, HasTrade, FilledQty, RefundCount;
    if e.Filling? {
      if Settles(s, e) { AddTrade(s.trades, Trade(e.order, e.qty, e.price), o); }
    } else if Apply(s, e) != s && Owed(s.orders[e.order]).Some? {
      AddRefund(s.refunds, Refund(e.order, Owed(s.orders[e.order]).value), o);
    }
  }

  // The other order is not excluded: a fill delivered after the cancellation
  // still settles, so an order can be both refunded in full and filled.  That
  // happens exactly when a fill settles on an order already refunded.
  lemma LateFillStillSettles(s: State, e: Event)
    requires Consistent(s) && e.order in s.orders && Settles(s, e) && RefundCount(s.refunds, e.order) == 1
    ensures var s' := Apply(s, e); HasTrade(s'.trades, e.order) && RefundCount(s'.refunds, e.order) == 1
  {
    hide Live.FillStep, Strip, Upper, HasTrade, FilledQty, RefundCount;
    AddTrade(s.trades, Trade(e.order, e.qty, e.price), e.order);
  }

  // It is reachable from a pending paid BUY.
  lemma CancelThenFill()
    ensures
      var o := Order(1, "X", Buy, 1, Some(10.0), false, None, None, Exchange.Pending);
      var s := State(map[1 := o], {}, [], Live.EMPTY, []);
      var s' := Run(s, [Canceled(1), Filling(1, "F1", 1, 10.0, Commits)]);
      && Consistent(s) && s'.refunds == [Refund(1, 10.0)] && s'.trades == [Trade(1, 1, 10.0)]
      && 1 in s'.orders && s'.orders[1].status == Exchange.Executed
  {
    hide Live.FillStep;
    var o := Order(1, "X", Buy, 1, Some(10.0), false, None, None, Exchange.Pending);
    var s := State(map[1 := o], {}, [], Live.EMPTY, []);
    var cancel, fill := Canceled(1), Filling(1, "F1", 1, 10.0, Commits);
    assert Strip("X") == "X";
    assert [cancel, fill][..1] == [cancel] && [cancel][..0] == [];
    assert Run(s, []) == s;
    assert Run(s, [cancel]) == Apply(s, cancel);
    assert Run(s, [cancel, fill]) == Apply(Apply(s, cancel), fill);
    assert FilledQty([Trade(1, 1, 10.0)], 1) == FilledQty([], 1) + 1;
  }

  lemma {:induction false} BothRefundedAndFilledIff(s: State, events: seq<Event>, o: int)
    requires Consistent(s) && o in s.orders && !HasTrade(s.trades, o) && RefundCount(s.refunds, o) == 0
    ensures HasTrade(Run(s, events).trades, o) && RefundCount(Run(s, events).refunds, o) == 1 <==>
      exists k :: 0 <= k < |events| && LateFill(Run(s, events[..k]), events[k], o)
  {
    hide Consistent, Apply, HasTrade, RefundCount, LateFill;
    if |events| > 0 {
      var init, e := events[..|events| - 1], events[|events| - 1];
      BothRefundedAndFilledIff(s, init, o);
      AlwaysConsistent(s, init);
      OrdersStay(s, init);
      BothStep(Run(s, init), e, o);
      assert forall k :: 0 <= k < |init| ==> init[..k] == events[..k] && init[k] == events[k];
      assert events[..|init|] == init;
    }
  }

  ghost predicate LateFill(s: State, e: Event, o: int)
  {
    Settles(s, e) && e.order == o && RefundCount(s.refunds, o) == 1
  }

  lemma BothStep(s: State, e: Event, o: int)
    requires Consistent(s) && o in s.orders
    ensures var s' := Apply(s, e);
      HasTrade(s'.trades, o) && RefundCount(s'.refunds, o) == 1 <==>
        (HasTrade(s.trades, o) && RefundCount(s.refunds, o) == 1) || LateFill(s, e, o)
  {
    hide Live.FillStep, Strip, Upper, HasTrade, FilledQty, RefundCount;
    if e.Filling? {
      if Settles(s, e) { AddTrade(s.trades, Trade(e.order, e.qty, e.price), o); }
    } else if Apply(s, e) != s && Owed(s.orders[e.order]).Some? {
      AddRefund(s.refunds, Refund(e.order, Owed(s.orders[e.order]).value), o);
    }
  }

  // ----- Positions ----------------------------------------------------------------------------------

  predicate Priced(s: State, trades: seq<Trade>)
  {
    forall i :: 0 <= i < |trades| ==> trades[i].order in s.orders && trades[i].qty > 0 && trades[i].price > 0.0
  }

  // The settled fills of one user's symbol, in order.
  function FillsOf(s: State, trades: seq<Trade>, k: Live.Key): (fills: seq<Fill>)
    requires Priced(s, trades)
    ensures AllValid(fills)
  {
    if |trades| == 0 then []
    else
      var t := trades[|trades| - 1];
      var o := s.orders[t.order];
      var before := FillsOf(s, trades[..|trades| - 1], k);
      if KeyOf(o) == k then before + [Fill(o.side, t.qty, t.price)] else before
  }

  ghost predicate PositionsAreFolds(s: State)
  {
    Priced(s, s.trades) && forall k :: Live.View(s.book, k) == Fold(FLAT, FillsOf(s, s.trades, k))
  }

  // Status changes do not touch what fills refer to.
  lemma {:induction false} SameFills(s: State, s': State, trades: seq<Trade>, k: Live.Key)
    requires Priced(s, trades)
    requires forall o :: o in s.orders ==> o in s'.orders && s'.orders[o] == s.orders[o].(status := s'.orders[o].status)
    ensures Priced(s', trades) && FillsOf(s', trades, k) == FillsOf(s, trades, k)
  {
    hide Strip, Upper;
    if |trades| > 0 { SameFills(s, s', trades[..|trades| - 1], k); }
  }

  lemma SettleKeepsFolds(s: State, e: Event)
    requires PositionsAreFolds(s) && Settles(s, e)
    ensures PositionsAreFolds(SettleStep(s, e))
  {
    hide Filled, FilledQty, Strip, Upper, Value, Live.WatchKey;
    var s' := SettleStep(s, e);
    var t := Trade(e.order, e.qty, e.price);
    var o := s.orders[e.order];
    assert s'.trades[..|s.trades|] == s.trades;
    forall k ensures Priced(s', s'.trades) && Live.View(s'.book, k) == Fold(FLAT, FillsOf(s', s'.trades, k)) {
      SameFills(s, s', s.trades, k);
      var before := FillsOf(s, s.trades, k);
      var f := Fill(o.side, t.qty, t.price);
      assert (before + [f])[..|before|] == before;
    }
  }

  // Each position shown is the fold of exactly the fills that settled, each
  // once and in order, at every point of the feed, exactly when no fill that
  // fails after settlement disturbs one.
  lemma {:induction false} PositionsFollowFillsIff(s: State, events: seq<Event>)
    requires PositionsAreFolds(s)
    ensures (forall n :: 0 <= n <= |events| ==> PositionsAreFolds(Run(s, events[..n])))
      <==> forall j :: 0 <= j < |events| ==> !Disturbs(Run(s, events[..j]), events[j])
  {
    hide PositionsAreFolds, Disturbs, Apply, Run;
    RunLast(s, events);
    if |events| == 0 {
      assert events[..0] == [];
    } else {
      var init, e := events[..|events| - 1], events[|events| - 1];
      PositionsFollowFillsIff(s, init);
      assert forall n :: 0 <= n <= |init| ==> init[..n] == events[..n];
      assert forall j :: 0 <= j < |init| ==> init[j] == events[j];
      assert events[..|events|] == events && init[..|init|] == init;
      if PositionsAreFolds(Run(s, init)) { FoldsStep(Run(s, init), e); }
    }
  }

  lemma FoldsStep(s: State, e: Event)
    requires PositionsAreFolds(s)
    ensures PositionsAreFolds(Apply(s, e)) <==> !Disturbs(s, e)
  {
    hide Fold, SettleStep, LateBook, FilledQty, Strip, Upper;
    if e.Filling? {
      if Settles(s, e) {
        SettleKeepsFolds(s, e);
      } else if FailsLate(s, e) {
        LateFillDisturbsIff(s, e);
        forall k { SameFills(s, Apply(s, e), s.trades, k); }
      }
    } else {
      forall k { SameFills(s, Apply(s, e), s.trades, k); }
    }
  }

  // ----- The handlers -----------------------------------------------------------------------------------

  class OrderUpdateService {
    var orders: map<int, Order>
    var flids: set<string>
    var trades: seq<Trade>
    var refunds: seq<Refund>
    const positions: Live.PositionStore

    constructor (orders: map<int, Order>, positions: Live.PositionStore)
      ensures this.positions == positions
      ensures Now() == State(orders, {}, [], positions.State(), [])
    {
      this.orders, this.positions := orders, positions;
      flids, trades, refunds := {}, [], [];
    }

    ghost function Now(): State
      reads this, positions
    {
      State(orders, flids, trades, positions.State(), refunds)
    }

    // getFillStats: the quantity of every trade_history row of the order.
    method FilledSoFar(order: int) returns (qty: int)
      ensures qty == FilledQty(trades, order)
    {
      qty := 0;
      var i := 0;
      while i < |trades|
        invariant 0 <= i <= |trades|
        invariant qty == FilledQty(trades[..i], order)
      {
        assert trades[..i + 1][..i] == trades[..i];
        if trades[i].order == order { qty := qty + trades[i].qty; }
        i := i + 1;
      }
      assert trades[..i] == trades;
    }

    // `delivery` says where the transaction fails, if it does.
    method HandleFill(order: int, flid: string, qty: int, price: real, delivery: Delivery)
      modifies this, positions
      ensures Now() == Apply(old(Now()), Filling(order, flid, qty, price, delivery))
    {
      hide Filled, FilledQty, Live.FillStep, Strip, Upper;
      if order !in orders { return; }
      if qty <= 0 || price <= 0.0 { return; }
      var row := orders[order];
      var savedFlids, savedTrades, savedRows := flids, trades, positions.rows;
      if flid != "" {
        if flid in flids { return; }
        flids := flids + {flid};
      }
      trades := trades + [Trade(order, qty, price)];
      var ok := false;
      if !delivery.FailsBefore? {
        ok := positions.ApplyFill(row.user, row.symbol, Fill(row.side, qty, price), row.exchange, row.token);
      }
      if !ok || delivery.FailsAfter? {
        flids, trades, positions.rows := savedFlids, savedTrades, savedRows;
        return;
      }
      var filled := FilledSoFar(order);
      var status := if filled >= row.quantity then Exchange.Executed else Exchange.PartiallyExecuted;
      orders := orders[order := row.(status := status)];
    }

    // Both a rejection and a cancellation end here.
    method HandleRejectedOrCanceled(order: int)
      modifies this
      ensures Now() == Apply(old(Now()), Rejected(order)) && Now() == Apply(old(Now()), Canceled(order))
    {
      hide Value;
      if order !in orders { return; }
      var row := orders[order];
      if !row.Pending() { return; }
      orders := orders[order := row.(status := Exchange.Cancelled)];
      if row.side.Buy? && row.price.Some? && row.price.value > 0.0 && row.quantity > 0 && !row.futures {
        refunds := refunds + [Refund(order, Value(row.quantity, row.price.value))];
      }
    }
  }
}
