// service/executionEngine.py and service/stopOrderTriggerService.py as they run:
// an execution trades, every traded price may wake dormant orders, and each
// woken order is executed in turn.  A whole cascade is shown to be a run of
// committed transactions, each of a known quantity, and the money and fill laws
// of runs are drawn for it.
module ExecutionEngine {
  import opened Positions
  import opened Matching
  import opened Wrappers
  import opened Exchange
  import opened Settlement
  import opened ExchangeMoney
  import opened ExchangeConservation
  import opened Dormancy

  // ----- Facts about traces -----------------------------------------------------------

  function Executions(steps: seq<Step>): nat
  {
    if |steps| == 0 then 0 else Executions(steps[..|steps| - 1]) + if steps[|steps| - 1].Match? then 1 else 0
  }

  lemma {:induction false} ExecutionsJoin(a: seq<Step>, b: seq<Step>)
    ensures Executions(a + b) == Executions(a) + Executions(b)
  {
    if |b| == 0 {
      assert a + b == a;
    } else {
      ExecutionsJoin(a, b[..|b| - 1]);
      assert (a + b)[..|a + b| - 1] == a + b[..|b| - 1];
    }
  }

  // Step `k` executes an order that step `j` woke, for the quantity it rested
  // with when it woke.
  ghost predicate WokenBy(m: Market, steps: seq<Step>, j: nat, k: nat)
    requires j < |steps| && k < |steps| && steps[k].Match?
  {
    && steps[k].id >= 0 && WokenAt(m, steps, j, steps[k].id)
    && steps[k].qty == Run(m, steps[..j]).orders[steps[k].id].remaining
  }

  ghost predicate ExecutesWoken(m: Market, steps: seq<Step>)
  {
    forall k :: 0 <= k < |steps| && steps[k].Match? ==> exists j :: 0 <= j < k && WokenBy(m, steps, j, k)
  }

  lemma ExecutesWokenJoin(m: Market, a: seq<Step>, b: seq<Step>)
    requires ExecutesWoken(m, a) && ExecutesWoken(Run(m, a), b)
    ensures ExecutesWoken(m, a + b)
  {
    hide WokenBy, Run;
    var ab := a + b;
    forall k | 0 <= k < |ab| && ab[k].Match? ensures exists j :: 0 <= j < k && WokenBy(m, ab, j, k) {
      if k < |a| {
        var j :| 0 <= j < k && WokenBy(m, a, j, k);
        WokenByPrefix(m, a, b, j, k);
        assert WokenBy(m, ab, j, k);
      } else {
        var j :| 0 <= j < k - |a| && WokenBy(Run(m, a), b, j, k - |a|);
        WokenBySuffix(m, a, b, j, k - |a|);
        assert WokenBy(m, ab, |a| + j, k);
      }
    }
  }

  lemma WokenByPrefix(m: Market, a: seq<Step>, b: seq<Step>, j: nat, k: nat)
    requires j < |a| && k < |a| && a[k].Match? && WokenBy(m, a, j, k)
    ensures WokenBy(m, a + b, j, k)
  {
    hide Wakes, Apply;
    assert (a + b)[..j] == a[..j];
  }

  lemma WokenBySuffix(m: Market, a: seq<Step>, b: seq<Step>, j: nat, k: nat)
    requires j < |b| && k < |b| && b[k].Match? && WokenBy(Run(m, a), b, j, k)
    ensures WokenBy(m, a + b, |a| + j, |a| + k)
  {
    hide Wakes, Apply;
    assert (a + b)[..|a| + j] == a + b[..j];
    RunExtends(m, a, b[..j]);
  }

  lemma ExecutesWokenPush(m: Market, steps: seq<Step>, id: nat, qty: int)
    requires ExecutesWoken(m, steps) && |steps| > 0 && WokenAt(m, steps, 0, id)
    requires qty == m.orders[id].remaining
    ensures ExecutesWoken(m, steps + [Match(id, qty)])
  {
    hide Wakes, Apply;
    var all := steps + [Match(id, qty)];
    assert steps[..0] == [] && all[..0] == [];
    forall k | 0 <= k < |all| && all[k].Match? ensures exists j :: 0 <= j < k && WokenBy(m, all, j, k) {
      if k < |steps| {
        var j :| 0 <= j < k && WokenBy(m, steps, j, k);
        WokenByPrefix(m, steps, [Match(id, qty)], j, k);
        assert WokenBy(m, all, j, k);
      } else {
        assert WokenBy(m, all, 0, k);
      }
    }
  }

  // ----- When a cascade runs every order for what it still lacks -----------------------------

  // A cascade is nothing but matching transactions and wake-ups.
  ghost predicate Cascade(steps: seq<Step>) { forall k :: 0 <= k < |steps| ==> steps[k].Match? || steps[k].Trigger? }

  // No price wakes two orders at once.
  ghost predicate LoneWakes(m: Market, steps: seq<Step>)
  {
    forall k :: 0 <= k < |steps| && steps[k].Trigger? ==>
      var before := Run(m, steps[..k]);
      Dormant(before.orders) - Dormant(Apply(before, steps[k]).orders) <= 1
  }

  ghost predicate FreshIfLone(m: Market, steps: seq<Step>) { LoneWakes(m, steps) ==> FreshRun(m, steps) }

  lemma LoneParts(m: Market, a: seq<Step>, b: seq<Step>)
    requires LoneWakes(m, a + b)
    ensures LoneWakes(m, a) && LoneWakes(Run(m, a), b)
  {
    hide Run, Apply, Dormant;
    var ab := a + b;
    forall k | 0 <= k < |a| && a[k].Trigger?
      ensures Dormant(Run(m, a[..k]).orders) - Dormant(Apply(Run(m, a[..k]), a[k]).orders) <= 1
    {
      assert ab[k] == a[k] && ab[..k] == a[..k];
    }
    forall k | 0 <= k < |b| && b[k].Trigger?
      ensures var before := Run(Run(m, a), b[..k]); Dormant(before.orders) - Dormant(Apply(before, b[k]).orders) <= 1
    {
      assert ab[|a| + k] == b[k] && ab[..|a| + k] == a + b[..k];
      RunExtends(m, a, b[..k]);
    }
  }

  lemma FreshAt(m: Market, steps: seq<Step>, k: nat)
    requires FreshRun(m, steps) && k < |steps|
    ensures Fresh(Run(m, steps[..k]), steps[k])
  {
    hide Run, Fresh;
  }

  lemma FreshJoin(m: Market, a: seq<Step>, b: seq<Step>)
    requires FreshRun(m, a) && FreshRun(Run(m, a), b)
    ensures FreshRun(m, a + b)
  {
    hide Run, Fresh;
    var ab := a + b;
    forall k | 0 <= k < |ab| ensures Fresh(Run(m, ab[..k]), ab[k]) { FreshPart(m, a, b, k); }
  }

  lemma FreshPart(m: Market, a: seq<Step>, b: seq<Step>, k: nat)
    requires FreshRun(m, a) && FreshRun(Run(m, a), b) && k < |a + b|
    ensures Fresh(Run(m, (a + b)[..k]), (a + b)[k])
  {
    hide Run, Fresh, FreshRun;
    if k < |a| {
      assert (a + b)[..k] == a[..k];
      FreshAt(m, a, k);
    } else {
      assert (a + b)[..k] == a + b[..k - |a|];
      RunExtends(m, a, b[..k - |a|]);
      FreshAt(Run(m, a), b, k - |a|);
    }
  }

  lemma FreshIfLoneJoin(m: Market, a: seq<Step>, b: seq<Step>)
    requires FreshIfLone(m, a) && FreshIfLone(Run(m, a), b)
    ensures FreshIfLone(m, a + b)
  {
    hide Run, FreshRun, LoneWakes;
    if LoneWakes(m, a + b) {
      LoneParts(m, a, b);
      FreshJoin(m, a, b);
    }
  }

  lemma NothingIsFresh(m: Market)
    ensures FreshIfLone(m, []) && Run(m, []) == m
  {}

  lemma OneStepIsFresh(m: Market, s: Step)
    requires Fresh(m, s)
    ensures FreshIfLone(m, [s])
  {
    assert [s][..0] == [];
  }

  lemma TriggerIsFresh(m: Market, symbol: string, ltp: real)
    ensures FreshIfLone(m, [Trigger(symbol, ltp)])
  {
    OneStepIsFresh(m, Trigger(symbol, ltp));
  }

  // A price that wakes two orders: the premise fails.
  lemma CrowdIsNotLone(m: Market, symbol: string, ltp: real, more: seq<Step>)
    requires Dormant(m.orders) - Dormant(TriggerStep(m, symbol, ltp).orders) > 1
    ensures FreshIfLone(m, [Trigger(symbol, ltp)] + more)
  {
    hide TriggerStep;
    var steps := [Trigger(symbol, ltp)] + more;
    assert steps[0].Trigger? && steps[..0] == [];
    assert Run(m, steps[..0]) == m;
  }

  // A price that wakes one order, executed for the quantity it woke with.
  lemma LoneOrderIsFresh(m: Market, symbol: string, ltp: real, id: nat)
    requires id < |m.orders| && Wakes(m.orders[id], symbol, ltp)
    ensures FreshIfLone(m, [Trigger(symbol, ltp)] + [Match(id, m.orders[id].remaining)])
  {
    hide WakePrice;
    var wake := Trigger(symbol, ltp);
    var after := TriggerStep(m, symbol, ltp);
    assert Fresh(after, Match(id, m.orders[id].remaining));
    assert [wake][..0] == [];
    assert Run(m, [wake]) == after;
    OneStepIsFresh(after, Match(id, m.orders[id].remaining));
    TriggerIsFresh(m, symbol, ltp);
    FreshIfLoneJoin(m, [wake], [Match(id, m.orders[id].remaining)]);
  }

  // What an order and all it sets off do to the money, and to fills: placing
  // it first, then the cascade.
  lemma OrderKeepsMoney(m: Market, r: Request, trace: seq<Step>)
    requires Sound(m) && PlainOrders(m) && r.kind != Stop && r.contract != Futures && Cascade(trace)
    ensures var placed := PlaceStep(m, r);
      && Money(Run(placed, trace)) == Money(m) - Improvements(placed, trace) + Reopenings(placed, trace)
      && Improvements(placed, trace) >= 0.0
      && (FreshRun(placed, trace) ==> Reopenings(placed, trace) == 0.0)
  {
    hide Money, Run, PlaceStep, Sound, PlainOrders, FreshRun;
    assert Apply(m, Place(r)) == PlaceStep(m, r);
    PlaceMoney(m, r);
    PlaceKeepsSound(m, r);
    PlainStays(m, Place(r));
    MoneyExactly(PlaceStep(m, r), trace);
    if FreshRun(PlaceStep(m, r), trace) { FreshReopensNothing(PlaceStep(m, r), trace); }
  }

  lemma OrderNeverOverfills(m: Market, r: Request, trace: seq<Step>)
    requires Sound(m) && Accounted(m) && FreshRun(PlaceStep(m, r), trace)
    ensures Accounted(Run(PlaceStep(m, r), trace))
  {
    hide Run, Sound, Accounted, FreshRun;
    NothingIsFresh(m);
    assert [Place(r)][..0] == [];
    assert FreshRun(m, [Place(r)]) by { OneStepIsFresh(m, Place(r)); PlacingWakesNothing(m, r); }
    NoOverfill(m, [Place(r)]);
    RunPlace(m, r);
    PlaceKeepsSound(m, r);
    NoOverfill(PlaceStep(m, r), trace);
  }

  // The laws of runs, for one order from placing to the end of its cascade:
  // cash plus reservations changes by what BUYs are not given back and what
  // stale quantities re-open; if no price wakes two orders at once it never
  // rises, and nothing is overfilled.
  ghost predicate LawsHold(m: Market, r: Request, trace: seq<Step>, after: Market)
  {
    var placed := PlaceStep(m, r);
    && (Sound(m) && PlainOrders(m) && r.kind != Stop && r.contract != Futures ==>
          && Money(after) == Money(m) - Improvements(placed, trace) + Reopenings(placed, trace)
          && (LoneWakes(placed, trace) ==> Money(after) == Money(m) - Improvements(placed, trace) <= Money(m)))
    && (Sound(m) && Accounted(m) && LoneWakes(placed, trace) ==> Accounted(after))
  }

  lemma OrderKeepsTheLaws(m: Market, r: Request, trace: seq<Step>)
    requires Cascade(trace) && FreshIfLone(PlaceStep(m, r), trace)
    ensures LawsHold(m, r, trace, Run(PlaceStep(m, r), trace))
  {
    hide Money, Run, PlaceStep, Sound, PlainOrders, FreshRun, LoneWakes, Accounted, Cascade;
    if Sound(m) && PlainOrders(m) && r.kind != Stop && r.contract != Futures { OrderKeepsMoney(m, r, trace); }
    if Sound(m) && Accounted(m) && LoneWakes(PlaceStep(m, r), trace) { OrderNeverOverfills(m, r, trace); }
  }

  lemma PlacingWakesNothing(m: Market, r: Request)
    ensures LoneWakes(m, [Place(r)])
  {}

  lemma RunPlace(m: Market, r: Request)
    ensures Run(m, [Place(r)]) == PlaceStep(m, r)
  {
    assert [Place(r)][..0] == [];
    assert Run(m, []) == m;
  }

  // Dormancy only ever shrinks.
  ghost predicate OnlyWoke(a: seq<Order>, b: seq<Order>)
  {
    |a| == |b| && forall x :: 0 <= x < |a| && IsDormant(b[x]) ==> IsDormant(a[x])
  }

  // ----- What a trace explains ---------------------------------------------------------------

  // `trace` is what turned `m` into `after`: matching transactions and
  // wake-ups, each transaction for an order some price woke, for the quantity
  // read then; at most one execution per order that stopped being dormant, with
  // `spare` of them not executed; and every quantity is what the book still
  // held if no price woke two orders at once.
  ghost predicate Explains(m: Market, trace: seq<Step>, after: Market, spare: int)
  {
    && after == Run(m, trace) && OnlyWoke(m.orders, after.orders)
    && Executions(trace) + spare <= Dormant(m.orders) - Dormant(after.orders)
    && ExecutesWoken(m, trace) && Cascade(trace) && FreshIfLone(m, trace)
  }

  lemma ExplainsNothing(m: Market)
    ensures Explains(m, [], m, 0)
  {
    NothingIsFresh(m);
  }

  lemma ExplainsJoin(m: Market, a: seq<Step>, mid: Market, i: int, b: seq<Step>, after: Market, j: int)
    requires Explains(m, a, mid, i) && Explains(mid, b, after, j)
    ensures Explains(m, a + b, after, i + j)
  {
    hide Run, Dormant, ExecutesWoken, FreshIfLone;
    RunExtends(m, a, b);
    ExecutionsJoin(a, b);
    ExecutesWokenJoin(m, a, b);
    FreshIfLoneJoin(m, a, b);
  }

  lemma ExplainsWake(m: Market, symbol: string, ltp: real)
    ensures var after := TriggerStep(m, symbol, ltp);
      Explains(m, [Trigger(symbol, ltp)], after, Dormant(m.orders) - Dormant(after.orders))
  {
    hide Run, ExecutesWoken, FreshIfLone;
    FirstStep(m, symbol, ltp);
    TriggerIsFresh(m, symbol, ltp);
    TriggerOnlyWakes(m, symbol, ltp);
  }

  lemma TriggerOnlyWakes(m: Market, symbol: string, ltp: real)
    ensures OnlyWoke(m.orders, TriggerStep(m, symbol, ltp).orders)
  {}

  // One woken order is executed.  `more` is what was done between its waking
  // and its execution.
  lemma ExplainsExecution(m: Market, symbol: string, ltp: real, more: seq<Step>, before: Market, spare: int, id: nat)
    requires Explains(m, [Trigger(symbol, ltp)] + more, before, spare)
    requires id < |m.orders| && Wakes(m.orders[id], symbol, ltp)
    requires more != [] ==> Dormant(m.orders) - Dormant(TriggerStep(m, symbol, ltp).orders) > 1
    ensures var qty := m.orders[id].remaining;
      Explains(m, [Trigger(symbol, ltp)] + more + [Match(id, qty)], MatchStep(before, id, qty), spare - 1)
  {
    hide MatchStep, Wakes, ExecutesWoken, FreshIfLone;
    var wake, qty := [Trigger(symbol, ltp)], m.orders[id].remaining;
    var trace := wake + more;
    var after := MatchStep(before, id, qty);
    assert WokenAt(m, trace, 0, id) by { assert trace[..0] == []; }
    ExecutesWokenPush(m, trace, id, qty);
    if more == [] {
      LoneOrderIsFresh(m, symbol, ltp, id);
      assert trace == wake;
    } else {
      CrowdIsNotLone(m, symbol, ltp, more + [Match(id, qty)]);
      assert wake + (more + [Match(id, qty)]) == trace + [Match(id, qty)];
    }
    RunPush(m, trace, id, qty);
    ExecutionsJoin(trace, [Match(id, qty)]);
    MatchOnlyWakes(before, id, qty);
    DormantPointwise(before.orders, after.orders);
    assert (trace + [Match(id, qty)])[..|trace|] == trace;
    assert Executions([Match(id, qty)]) == 1 by { assert [Match(id, qty)][..0] == []; }
  }

  // ----- Settlement failures --------------------------------------------------------------

  lemma {:induction false} FailureStays(m: Market, id: int, qty: nat, ts: seq<Trade>, i: nat, n: nat)
    requires i <= n <= |ts| && SettleAll(m, id, qty, ts, i).None?
    ensures SettleAll(m, id, qty, ts, n).None?
    decreases n - i
  {
    hide SettleOne;
    if i < n { FailureStays(m, id, qty, ts, i, n - 1); }
  }

  lemma {:induction false} VolumeGrows(ts: seq<Trade>, n: nat)
    requires n <= |ts|
    ensures Volume(ts[..n]) <= Volume(ts)
    decreases |ts| - n
  {
    if n == |ts| {
      assert ts[..n] == ts;
    } else {
      VolumeGrows(ts, n + 1);
      VolumePush(ts, n + 1);
    }
  }

  function Prices(ts: seq<Trade>): seq<real>
  {
    seq(|ts|, i requires 0 <= i < |ts| => ts[i].price)
  }

  class Engine {
    var orders: seq<Order>
    var wallets: map<int, real>
    var positions: map<(int, string), Figures>
    var holdings: map<(int, string), Holding>
    var tape: seq<Trade>

    // find_tsym_aliases: every spelling of the same contract.
    const aliases: string -> seq<string>

    constructor (wallets: map<int, real>, holdings: map<(int, string), Holding>, aliases: string -> seq<string>)
      ensures State() == Market([], wallets, map[], holdings, [])
    {
      orders, tape, positions := [], [], map[];
      this.wallets, this.holdings, this.aliases := wallets, holdings, aliases;
    }

    ghost function State(): Market
      reads this
    {
      Market(orders, wallets, positions, holdings, tape)
    }

    // TradeSettlementService.settle_fill; `ok` is false where it raises.
    method SettleFill(user: int, side: Side, r: Request, qty: nat, price: real) returns (ok: bool)
      modifies this`positions, this`holdings
      ensures var s := SettleSide(old(State()), user, side, r, qty, price);
              ok == s.Some? && (ok ==> State() == s.value)
    {
      var k := (user, r.symbol);
      if qty == 0 || price <= 0.0 {
        return false;
      }
      if r.fo {
        var p := ServiceFigures(if k in positions then positions[k] else FLAT, Fill(side, qty, price));
        positions := positions[k := p];
      } else if side == Buy {
        if k !in holdings {
          holdings := holdings[k := Holding(qty, price)];
        } else if holdings[k].quantity >= 0 {
          var h := holdings[k];
          holdings := holdings[k := Holding(h.quantity + qty, Blend(h.quantity, h.avgPrice, qty, price))];
        }
      } else {
        if k !in holdings || qty > holdings[k].quantity {
          return false;
        }
        holdings := holdings[k := holdings[k].(quantity := holdings[k].quantity - qty)];
      }
      return true;
    }

    // One matched trade: tape, both book rows, both settlements, seller's cash.
    method SettleTrade(id: nat, left: nat, t: Trade) returns (ok: bool)
      requires id < |orders| && 0 <= t.buyOrder < |orders| && 0 <= t.sellOrder < |orders| && t.left >= 0
      modifies this
      ensures var s := SettleOne(old(State()), id, left, t);
              ok == s.Some? && (ok ==> State() == s.value)
    {
      hide SettleSide, Value;
      tape := tape + [t];
      var other := Other(id, t);
      orders := orders[other := Reported(orders[other], t.left)];
      orders := orders[id := Reported(orders[id], left)];
      ok := SettleFill(t.buyUser, Buy, orders[t.buyOrder].req, t.quantity, t.price);
      if !ok {
        return;
      }
      ghost var m2 := State();
      ok := SettleFill(t.sellUser, Sell, orders[t.sellOrder].req, t.quantity, t.price);
      if !ok {
        return;
      }
      if t.sellUser !in wallets {
        return false;
      }
      wallets := wallets[t.sellUser := wallets[t.sellUser] + Value(t.quantity, t.price)];
    }

    // MatchingEngine.execute: the book query, then the greedy loop over its rows.
    method FindMatches(id: nat, qty: nat) returns (r: Outcome)
      requires id < |orders|
      ensures r == BadPrice <==> IsUnpriced(Taker(State(), id, qty), BookRows(State(), id), |BookRows(State(), id)|)
      ensures r.Trades? ==> r.trades == Proposed(State(), id, qty)
    {
      var taker := orders[id].req;
      var found := RowsFor(orders, Query(taker, orders, |orders|));
      var rows := new Resting[|found|](i requires 0 <= i < |found| => found[i]);
      assert rows[..] == found;
      r := MatchingOrder(Incoming(id, taker.user, taker.side, taker.price, qty), rows);
    }

    // conn.rollback(), then update_order_status_single("FAILED").
    method RollBack(saved: Market, id: nat)
      requires id < |saved.orders|
      modifies this
      ensures State() == saved.(orders := saved.orders[id := saved.orders[id].(status := Failed)])
    {
      orders, wallets, positions, holdings, tape :=
        saved.orders, saved.wallets, saved.positions, saved.holdings, saved.tape;
      orders := orders[id := orders[id].(status := Failed)];
    }

    // _execute_matching with _process_trades' loop: one transaction, rolled
    // back and reported as FAILED if anything in it raises.
    method RunTransaction(id: nat, qty: nat) returns (prices: seq<real>)
      requires id < |orders| && qty > 0 && orders[id].book != PendingTrigger
      modifies this
      ensures State() == MatchStep(old(State()), id, qty)
      ensures prices == [] || prices == Prices(Proposed(old(State()), id, qty))
    {
      hide SettleOne, Proposed, IsUnpriced, BookRows, Volume, SettleAll;
      var saved := Market(orders, wallets, positions, holdings, tape);
      var found := FindMatches(id, qty);
      if found == BadPrice {
        RollBack(saved, id);
        return [];
      }
      var trades := found.trades;
      var totalMatched := 0;
      NoTradesSettled(saved, id, qty, trades);
      for n := 0 to |trades|
        invariant totalMatched == Volume(trades[..n])
        invariant |orders| == |saved.orders|
        invariant SettleAll(saved, id, qty, trades, n) == Some(State())
      {
        NextTrade(saved, id, qty, n);
        ghost var before := State();
        totalMatched := totalMatched + trades[n].quantity;
        SettleOneKeepsSize(before, id, qty - totalMatched, trades[n]);
        SettleAllNext(saved, id, qty, trades, n);
        var ok := SettleTrade(id, qty - totalMatched, trades[n]);
        if !ok {
          FailureStays(saved, id, qty, trades, n + 1, |trades|);
          RollBack(saved, id);
          return [];
        }
      }
      return Prices(trades);
    }

    // ExecutionEngine.execute_order, once the order is in the book and awake:
    // the transaction, then a trigger check for every traded price under every
    // spelling of the contract.  `rest` is what the cascade did after it.
    method ExecuteOrder(id: nat, qty: nat) returns (ghost rest: seq<Step>)
      requires id < |orders| && qty > 0 && orders[id].book != PendingTrigger
      modifies this
      ensures Explains(MatchStep(old(State()), id, qty), rest, State(), 0)
      ensures OnlyWoke(old(orders), orders)
      decreases Dormant(orders), 1
    {
      hide MatchStep, Explains;
      ghost var m := State();
      var symbol := orders[id].req.symbol;
      var prices := RunTransaction(id, qty);
      ghost var m1 := State();
      MatchOnlyWakes(m, id, qty);
      DormantPointwise(m.orders, orders);
      rest := [];
      ExplainsNothing(m1);
      var symbols := aliases(symbol);
      if symbols == [] {
        symbols := [symbol];
      }
      for i := 0 to |prices|
        invariant Explains(m1, rest, State(), 0) && OnlyWoke(m1.orders, orders)
      {
        for j := 0 to |symbols|
          invariant Explains(m1, rest, State(), 0) && OnlyWoke(m1.orders, orders)
        {
          DormantPointwise(m1.orders, orders);
          ghost var mid := State();
          var more := CheckAndTrigger(symbols[j], prices[i]);
          ExplainsJoin(m1, rest, mid, 0, more, State(), 0);
          rest := rest + more;
        }
      }
    }

    // StopOrderTriggerService.check_and_trigger: wakes every dormant order of
    // the symbol whose condition `ltp` meets, then executes them one by one for
    // the quantities read when they woke.
    method CheckAndTrigger(symbol: string, ltp: real) returns (ghost trace: seq<Step>)
      modifies this
      ensures Explains(old(State()), trace, State(), 0)
      ensures OnlyWoke(old(orders), orders)
      decreases Dormant(orders), 0
    {
      hide MatchStep, Explains, WakePrice, OnlyWoke;
      ghost var m := State();
      trace := [];
      ExplainsNothing(m);
      ExplainsOnlyWoke(m, [], m, 0);
      if symbol == "" {
        return;
      }
      var triggered := WakeRows(symbol, ltp);
      ghost var wake, more := [Trigger(symbol, ltp)], [];
      ExplainsWake(m, symbol, ltp);
      assert wake + more == wake;
      for n := 0 to |triggered|
        invariant Explains(m, wake + more, State(), |triggered| - n)
        invariant n == 0 ==> more == []
        invariant forall i :: 0 <= i < |triggered| ==> triggered[i].0 < |orders| && !IsDormant(orders[triggered[i].0])
      {
        var (id, quantity, price) := triggered[n];
        ghost var before := State();
        ExplainsLess(m, wake + more, before, |triggered| - n);
        if quantity > 0 && price > 0.0 {  // OrderCreate's own validation
          ExplainsExecution(m, symbol, ltp, more, before, |triggered| - n, id);
          ExplainsOnlyWoke(m, wake + more, before, |triggered| - n);
          ShrinksDormant(m, wake, before, |triggered| - n, more);
          ghost var rest := ExecuteOrder(id, quantity);
          ExplainsJoin(m, wake + more + [Match(id, quantity)], MatchStep(before, id, quantity), |triggered| - n - 1,
                       rest, State(), 0);
          StillAwake(before.orders, orders);
          assert wake + more + [Match(id, quantity)] + rest == wake + (more + [Match(id, quantity)] + rest);
          more := more + [Match(id, quantity)] + rest;
        }
      }
      trace := wake + more;
      ExplainsOnlyWoke(m, trace, State(), 0);
    }

    // The locked pass over the dormant rows of a symbol.
    method WakeRows(symbol: string, ltp: real) returns (triggered: seq<(nat, nat, real)>)
      modifies this`orders
      ensures State() == TriggerStep(old(State()), symbol, ltp)
      ensures OnlyWoke(old(orders), orders)
      ensures |triggered| == old(Dormant(orders)) - Dormant(orders)
      ensures forall i :: 0 <= i < |triggered| ==>
        var (id, quantity, price) := triggered[i];
        && id < |orders| && Wakes(old(orders)[id], symbol, ltp) && orders[id] == Woken(old(orders)[id], symbol, ltp)
        && quantity == old(orders)[id].remaining && WakePrice(old(orders)[id].req, ltp) == Some(price)
      ensures forall x :: 0 <= x < |orders| && IsDormant(old(orders)[x]) ==>
        (IsDormant(orders[x]) <==> !HasReached(old(orders)[x].req, symbol, ltp))
    {
      triggered := [];
      ghost var was := orders;
      for i := 0 to |orders|
        invariant |orders| == |was|
        invariant forall x :: 0 <= x < i ==> orders[x] == Woken(was[x], symbol, ltp)
        invariant forall x :: i <= x < |was| ==> orders[x] == was[x]
        invariant |triggered| == Dormant(was) - Dormant(orders)
        invariant forall k :: 0 <= k < |triggered| ==>
          var (id, quantity, price) := triggered[k];
          && id < i && Wakes(was[id], symbol, ltp)
          && quantity == was[id].remaining && WakePrice(was[id].req, ltp) == Some(price)
      {
        if Wakes(orders[i], symbol, ltp) {
          var price := WakePrice(orders[i].req, ltp).value;
          triggered := triggered + [(i, orders[i].remaining, price)];
          DormantPut(orders, i, Woken(orders[i], symbol, ltp));
          orders := orders[i := Woken(orders[i], symbol, ltp)];
        }
      }
      assert orders == TriggerStep(old(State()), symbol, ltp).orders;
      forall x | 0 <= x < |orders| && IsDormant(was[x])
        ensures IsDormant(orders[x]) <==> !HasReached(was[x].req, symbol, ltp)
      {
        WakesExactlyAtItsTrigger(old(State()), symbol, ltp, x);
      }
      forall k | 0 <= k < |triggered| ensures orders[triggered[k].0] == Woken(was[triggered[k].0], symbol, ltp) {
        var id := triggered[k].0;
        assert orders[id] == Woken(was[id], symbol, ltp);
      }
    }

    // _create_order_row_with_checks: the debit and the order's two rows.
    method PlaceOrder(r: Request) returns (placed: bool)
      modifies this
      ensures State() == PlaceStep(old(State()), r)
      ensures placed <==> State() != old(State())
      ensures placed ==>
        && r.Valid() && |orders| == old(|orders|) + 1
        && var start := if r.kind.Dormant() then PendingTrigger else Pending;
           orders[old(|orders|)] == Order(r, r.quantity, start, start)
    {
      hide Value;
      if !r.Valid() {
        return false;
      }
      var start := if r.kind.Dormant() then PendingTrigger else Pending;
      var o := Order(r, r.quantity, start, start);
      if o.CashBuy() {
        if r.price.None? {
          return false;
        }
        var required := Value(r.quantity, r.price.value);
        if r.user !in wallets || wallets[r.user] < required {
          return false;
        }
        wallets := wallets[r.user := wallets[r.user] - required];
      }
      orders := orders + [o];
      assert |orders| != old(|orders|);
      return true;
    }

    // POST /orders: place it, and unless it starts dormant, execute it.
    method CreateOrder(r: Request) returns (placed: bool, ghost trace: seq<Step>)
      modifies this
      ensures State() == Run(PlaceStep(old(State()), r), trace)
      ensures placed <==> PlaceStep(old(State()), r) != old(State())
      ensures !placed ==> trace == []
      ensures Executions(trace) <= 1 + Dormant(PlaceStep(old(State()), r).orders) - Dormant(orders)
      ensures Cascade(trace) && FreshIfLone(PlaceStep(old(State()), r), trace)
      ensures LawsHold(old(State()), r, trace, State())
    {
      hide MatchStep, PlaceStep, FreshIfLone, LawsHold, Explains, Run;
      ghost var m := State();
      trace := [];
      NothingIsFresh(PlaceStep(m, r));
      OrderKeepsTheLaws(m, r, []);
      var id := |orders|;
      placed := PlaceOrder(r);
      ghost var m1 := State();
      if placed && !r.kind.Dormant() {
        ghost var rest := ExecuteOrder(id, r.quantity);
        OneExecution(m1, id, r.quantity, rest, State());
        trace := [Match(id, r.quantity)] + rest;
        OrderKeepsTheLaws(m, r, trace);
      }
    }
  }

  lemma OneExecution(m: Market, id: nat, qty: nat, rest: seq<Step>, after: Market)
    requires Fresh(m, Match(id, qty)) && Explains(MatchStep(m, id, qty), rest, after, 0)
    ensures var trace := [Match(id, qty)] + rest;
      && after == Run(m, trace) && Cascade(trace) && FreshIfLone(m, trace)
      && Executions(trace) <= 1 + Dormant(m.orders) - Dormant(after.orders)
  {
    hide MatchStep, FreshIfLone, ExecutesWoken;
    var one := [Match(id, qty)];
    assert one[..0] == [];
    assert Run(m, one) == MatchStep(m, id, qty) by { assert Run(m, []) == m; }
    RunExtends(m, one, rest);
    ExecutionsJoin(one, rest);
    assert Executions(one) == 1;
    OneStepIsFresh(m, Match(id, qty));
    FreshIfLoneJoin(m, one, rest);
    MatchOnlyWakes(m, id, qty);
    DormantPointwise(m.orders, MatchStep(m, id, qty).orders);
  }

  lemma ExplainsOnlyWoke(m: Market, trace: seq<Step>, after: Market, spare: int)
    requires Explains(m, trace, after, spare)
    ensures OnlyWoke(m.orders, after.orders)
  {}

  lemma ExplainsLess(m: Market, trace: seq<Step>, after: Market, spare: int)
    requires Explains(m, trace, after, spare)
    ensures Explains(m, trace, after, spare - 1)
  {}

  // The measure of the mutual recursion: something woke.
  lemma ShrinksDormant(m: Market, wake: seq<Step>, before: Market, spare: int, more: seq<Step>)
    requires Explains(m, wake + more, before, spare) && spare > 0
    ensures Dormant(before.orders) < Dormant(m.orders)
  {}

  lemma StillAwake(before: seq<Order>, after: seq<Order>)
    requires OnlyWoke(before, after)
    ensures |after| == |before| && forall x :: 0 <= x < |before| && !IsDormant(before[x]) ==> !IsDormant(after[x])
  {}

  lemma NoTradesSettled(m: Market, id: int, qty: nat, ts: seq<Trade>)
    ensures Volume(ts[..0]) == 0 && SettleAll(m, id, qty, ts, 0) == Some(m)
  {}

  lemma SettleAllNext(m: Market, id: int, qty: nat, ts: seq<Trade>, n: nat)
    requires n < |ts| && SettleAll(m, id, qty, ts, n).Some? && Volume(ts[..n + 1]) <= qty
    ensures SettleAll(m, id, qty, ts, n + 1)
      == SettleOne(SettleAll(m, id, qty, ts, n).value, id, qty - Volume(ts[..n + 1]), ts[n])
  {
    hide SettleOne;
  }

  // The n-th proposed trade names known orders and fits what is left.
  lemma NextTrade(m: Market, id: int, qty: nat, n: nat)
    requires 0 <= id < |m.orders| && n < |Proposed(m, id, qty)|
    ensures var ts := Proposed(m, id, qty);
      && 0 <= ts[n].buyOrder < |m.orders| && 0 <= ts[n].sellOrder < |m.orders| && ts[n].left >= 0
      && Volume(ts[..n + 1]) == Volume(ts[..n]) + ts[n].quantity && Volume(ts[..n + 1]) <= qty
  {
    hide Proposed;
    var ts := Proposed(m, id, qty);
    ProposedAreSane(m, id, qty);
    VolumePush(ts, n + 1);
    VolumeGrows(ts, n + 1);
    NamesOrders(m.orders, id, ts[n]);
  }

  lemma NamesOrders(orders: seq<Order>, id: int, t: Trade)
    requires 0 <= id < |orders| && Sane(orders, id, t)
    ensures 0 <= t.buyOrder < |orders| && 0 <= t.sellOrder < |orders| && t.left >= 0
  {}

  lemma SettleOneKeepsSize(m: Market, id: int, left: nat, t: Trade)
    ensures SettleOne(m, id, left, t).Some? ==> |SettleOne(m, id, left, t).value.orders| == |m.orders|
  {
    hide Value, Reported;
    if SettleOne(m, id, left, t).Some? { OneTouchesTwoRows(m, id, left, t); }
  }

  lemma MatchOnlyWakes(m: Market, id: int, qty: int)
    ensures OnlyWoke(m.orders, MatchStep(m, id, qty).orders)
  {
    hide MatchStep;
    if |m.orders| > 0 { MatchLeavesDormant(m, id, qty, 0); } else { NoOrdersNoMatch(m, id, qty); }
    forall x | 0 <= x < |m.orders| && IsDormant(MatchStep(m, id, qty).orders[x]) ensures IsDormant(m.orders[x]) {
      MatchLeavesDormant(m, id, qty, x);
    }
  }

  lemma NoOrdersNoMatch(m: Market, id: int, qty: int)
    requires |m.orders| == 0
    ensures MatchStep(m, id, qty) == m
  {}

  lemma RunPush(m: Market, steps: seq<Step>, id: int, qty: int)
    ensures Run(m, steps + [Match(id, qty)]) == MatchStep(Run(m, steps), id, qty)
  {
    hide MatchStep;
    assert (steps + [Match(id, qty)])[..|steps|] == steps;
  }

  lemma FirstStep(m: Market, symbol: string, ltp: real)
    ensures Run(m, [Trigger(symbol, ltp)]) == TriggerStep(m, symbol, ltp)
    ensures Executions([Trigger(symbol, ltp)]) == 0 && ExecutesWoken(m, [Trigger(symbol, ltp)])
  {
    hide TriggerStep;
    assert [Trigger(symbol, ltp)][..0] == [];
  }
}
