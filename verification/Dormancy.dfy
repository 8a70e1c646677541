// Dormant STOP and STOPLIMIT orders over runs of transactions: when they wake,
// how often, and what never touches them.
module Dormancy {
  import opened Positions
  import opened Matching
  import opened Wrappers
  import opened Exchange
  import opened Settlement
  import opened ExchangeMoney

  predicate IsDormant(o: Order) { o.book == PendingTrigger }

  function Dormant(orders: seq<Order>): nat
  {
    if |orders| == 0 then 0
    else Dormant(orders[..|orders| - 1]) + if IsDormant(orders[|orders| - 1]) then 1 else 0
  }

  lemma {:induction false} DormantPointwise(a: seq<Order>, b: seq<Order>)
    requires |a| == |b| && forall i :: 0 <= i < |a| && IsDormant(b[i]) ==> IsDormant(a[i])
    ensures Dormant(b) <= Dormant(a)
    ensures (forall i :: 0 <= i < |a| ==> (IsDormant(a[i]) <==> IsDormant(b[i]))) ==> Dormant(b) == Dormant(a)
  {
    if |a| > 0 { DormantPointwise(a[..|a| - 1], b[..|b| - 1]); }
  }

  lemma {:induction false} DormantPut(orders: seq<Order>, i: nat, o: Order)
    requires i < |orders|
    ensures Dormant(orders[i := o])
      == Dormant(orders) - (if IsDormant(orders[i]) then 1 else 0) + (if IsDormant(o) then 1 else 0)
  {
    var n := |orders| - 1;
    if i == n {
      assert orders[i := o][..n] == orders[..n];
    } else {
      assert orders[i := o][..n] == orders[..n][i := o];
      DormantPut(orders[..n], i, o);
    }
  }

  // The matching transaction neither trades with, reports on, nor wakes a
  // dormant order.
  lemma MatchLeavesDormant(m: Market, id: int, qty: int, x: nat)
    requires x < |m.orders|
    ensures var m' := MatchStep(m, id, qty);
            && |m'.orders| == |m.orders|
            && (IsDormant(m.orders[x]) ==> m'.orders[x] == m.orders[x])
            && (IsDormant(m'.orders[x]) ==> IsDormant(m.orders[x]))
  {
    hide Proposed, SettleAll, IsUnpriced, BookRows;
    if 0 <= id < |m.orders| && qty > 0 && m.orders[id].book != PendingTrigger {
      SettlementLeavesDormant(m, id, qty, x);
    }
  }

  lemma SettlementLeavesDormant(m: Market, id: int, qty: nat, x: nat)
    requires 0 <= id < |m.orders| && x < |m.orders| && m.orders[id].book != PendingTrigger
    ensures var ts := Proposed(m, id, qty);
            var s := SettleAll(m, id, qty, ts, |ts|);
            s.Some? ==>
              && |s.value.orders| == |m.orders|
              && (IsDormant(m.orders[x]) ==> s.value.orders[x] == m.orders[x])
              && (IsDormant(s.value.orders[x]) ==> IsDormant(m.orders[x]))
  {
    hide Proposed, SettleAll, GoodTrades, Settled;
    var ts := Proposed(m, id, qty);
    ProposedAreGood(m, id, qty);
    if SettleAll(m, id, qty, ts, |ts|).Some? {
      var m' := SettleAll(m, id, qty, ts, |ts|).value;
      SettlementTouches(m, id, qty, ts, |ts|);
      SameTables(m, m', id, qty, ts, |ts|);
      SettledRow(m, m', id, qty, ts, |ts|, x);
      if IsDormant(m.orders[x]) { DormantUntouched(m, m', id, qty, ts, x); }
    }
  }

  lemma DormantUntouched(m: Market, m': Market, id: int, qty: nat, ts: seq<Trade>, x: nat)
    requires 0 <= id < |m.orders| && x < |m.orders| && m.orders[id].book != PendingTrigger
    requires GoodTrades(m, id, ts) && Settled(m, m', id, qty, ts, |ts|) && IsDormant(m.orders[x])
    ensures m'.orders[x] == m.orders[x]
  {
    forall j | 0 <= j < |ts| ensures Other(id, ts[j]) != x {
      assert Sane(m.orders, id, ts[j]);
    }
  }

  // The price has come to the order's trigger: from below for a BUY, from above
  // for a SELL.
  ghost predicate HasReached(r: Request, symbol: string, ltp: real)
  {
    r.symbol == symbol && r.trigger.Some? && if r.side.Buy? then ltp >= r.trigger.value else ltp <= r.trigger.value
  }

  // An order leaves its dormant state only by being cancelled or by a price
  // meeting its own condition, and never returns to it.
  lemma WakesOnlyOnItsCondition(m: Market, s: Step, x: nat)
    requires x < |m.orders|
    ensures var m' := Apply(m, s);
            && x < |m'.orders|
            && (IsDormant(m'.orders[x]) ==> IsDormant(m.orders[x]))
            && (IsDormant(m.orders[x]) && !IsDormant(m'.orders[x]) ==>
                  || (s == Cancel(m.orders[x].req.user, x) && m'.orders[x].status == Cancelled)
                  || (s.Trigger? && Wakes(m.orders[x], s.symbol, s.ltp) && HasReached(m.orders[x].req, s.symbol, s.ltp)
                      && m'.orders[x].req.price == WakePrice(m.orders[x].req, s.ltp)
                      && m'.orders[x].remaining == m.orders[x].remaining))
  {
    hide Value, MatchStep;
    if s.Match? { MatchLeavesDormant(m, s.id, s.qty, x); }
  }

  // A last price wakes exactly the dormant orders whose trigger it has
  // reached.  A STOP, and any order without a limit, then stands at that price,
  // others at their limit; no other row changes.
  lemma WakesExactlyAtItsTrigger(m: Market, symbol: string, ltp: real, x: nat)
    requires x < |m.orders|
    ensures var m' := Apply(m, Trigger(symbol, ltp));
            && |m'.orders| == |m.orders|
            && var o, o' := m.orders[x], m'.orders[x];
               var stands := if o.req.kind == Stop || o.req.price.None? then Some(ltp) else o.req.price;
               o' == if IsDormant(o) && HasReached(o.req, symbol, ltp)
                     then o.(req := o.req.(price := stands), book := Pending, status := Pending) else o
  {}

  // What ends the dormancy of an order at these terms: its cancel, or a price
  // that has reached its trigger.
  ghost predicate Ends(o: Order, x: nat, s: Step)
  {
    || s == Cancel(o.req.user, x)
    || (s.Trigger? && HasReached(o.req, s.symbol, s.ltp))
  }

  // Over runs: a dormant order nobody amends stays exactly as it is until the
  // first such event, and no longer.
  lemma {:induction false} DormantUntilReached(m: Market, steps: seq<Step>, x: nat)
    requires x < |m.orders| && IsDormant(m.orders[x]) && m.orders[x].status == PendingTrigger
    requires forall s :: s in steps && s.Amend? ==> s.id != x
    ensures var m' := Run(m, steps);
      && x < |m'.orders|
      && (IsDormant(m'.orders[x]) <==> forall s :: s in steps ==> !Ends(m.orders[x], x, s))
      && (IsDormant(m'.orders[x]) ==> m'.orders[x] == m.orders[x])
  {
    hide Apply, IsDormant;
    if |steps| > 0 {
      var init, last := steps[..|steps| - 1], steps[|steps| - 1];
      assert steps == init + [last];
      DormantUntilReached(m, init, x);
      var before := Run(m, init);
      WakesOnlyOnItsCondition(before, last, x);
      if IsDormant(before.orders[x]) { StaysOrEnds(before, last, x); }
    }
  }

  lemma StaysOrEnds(m: Market, s: Step, x: nat)
    requires x < |m.orders| && IsDormant(m.orders[x]) && m.orders[x].status == PendingTrigger
    requires s.Amend? ==> s.id != x
    ensures var m' := Apply(m, s);
      x < |m'.orders|
      && if Ends(m.orders[x], x, s) then !IsDormant(m'.orders[x]) else m'.orders[x] == m.orders[x]
  {
    hide Value, MatchStep;
    if s.Match? { MatchLeavesDormant(m, s.id, s.qty, x); }
    if s.Trigger? { WakesExactlyAtItsTrigger(m, s.symbol, s.ltp, x); }
  }

  lemma {:induction false} RunExtends(m: Market, a: seq<Step>, b: seq<Step>)
    ensures Run(m, a + b) == Run(Run(m, a), b)
  {
    if |b| == 0 {
      assert a + b == a;
    } else {
      RunExtends(m, a, b[..|b| - 1]);
      assert (a + b)[..|a + b| - 1] == a + b[..|b| - 1];
    }
  }

  lemma {:induction false} AwakeStaysAwake(m: Market, steps: seq<Step>, x: nat)
    requires x < |m.orders| && !IsDormant(m.orders[x])
    ensures x < |Run(m, steps).orders| && !IsDormant(Run(m, steps).orders[x])
  {
    hide Apply;
    if |steps| > 0 {
      AwakeStaysAwake(m, steps[..|steps| - 1], x);
      WakesOnlyOnItsCondition(Run(m, steps[..|steps| - 1]), steps[|steps| - 1], x);
    }
  }

  // Does step `k` of the run wake order `x`?
  ghost predicate WokenAt(m: Market, steps: seq<Step>, k: nat, x: nat)
    requires k < |steps|
  {
    var before := Run(m, steps[..k]);
    x < |before.orders| && steps[k].Trigger? && Wakes(before.orders[x], steps[k].symbol, steps[k].ltp)
  }

  // Each dormant order is triggered at most once over any run.
  lemma TriggersAtMostOnce(m: Market, steps: seq<Step>, i: nat, j: nat, x: nat)
    requires i < j < |steps| && WokenAt(m, steps, i, x)
    ensures !WokenAt(m, steps, j, x)
  {
    var after := Run(m, steps[..i + 1]);
    assert steps[..i + 1][..i] == steps[..i];
    assert steps[..i + 1] + steps[i + 1..j] == steps[..j];
    RunExtends(m, steps[..i + 1], steps[i + 1..j]);
    AwakeStaysAwake(after, steps[i + 1..j], x);
  }
}
