// The greedy fill loop of service/matchingEngine/matchingEngineService/
// matching_engine_service.py: an incoming order against the resting rows the
// book query returned, in the order it returned them.
module Matching {
  import opened Positions
  import opened Wrappers

  datatype Resting = Resting(orderId: int, userId: int, side: Side, price: Option<real>, remaining: int)

  datatype Incoming = Incoming(orderId: int, userId: int, side: Side, price: Option<real>, quantity: nat)

  datatype Trade = Trade(buyOrder: int, sellOrder: int, buyUser: int, sellUser: int,
                         quantity: nat, price: real, left: int)

  // `BadPrice`: an order without a price was compared, which raises.
  datatype Outcome = Trades(trades: seq<Trade>) | BadPrice

  // MatchingEngineService.price_match.
  predicate PriceMatch(inc: Incoming, row: Resting)
    requires inc.price.Some? && row.price.Some?
  {
    match (inc.side, row.side)
    case (Buy, Sell) => inc.price.value >= row.price.value
    case (Sell, Buy) => inc.price.value <= row.price.value
    case _ => false
  }

  // ----- Specification: who could trade, and how much each row gets ----------

  predicate Eligible(inc: Incoming, row: Resting)
  {
    && inc.price.Some? && row.price.Some? && PriceMatch(inc, row)
    && row.userId != inc.userId && row.remaining > 0
  }

  function Capacity(inc: Incoming, row: Resting): nat
  {
    if Eligible(inc, row) then row.remaining else 0
  }

  // What the first `n` rows could supply.
  function Supply(inc: Incoming, rows: seq<Resting>, n: nat): nat
    requires n <= |rows|
  {
    if n == 0 then 0 else Supply(inc, rows, n - 1) + Capacity(inc, rows[n - 1])
  }

  // Row `i` gets the part of the order the rows before it cannot supply.
  function Taken(inc: Incoming, rows: seq<Resting>, i: nat): nat
    requires i < |rows|
  {
    Min(inc.quantity, Supply(inc, rows, i + 1)) - Min(inc.quantity, Supply(inc, rows, i))
  }

  function TradeWith(inc: Incoming, row: Resting, q: nat): Trade
    requires row.price.Some?
  {
    if inc.side.Buy? then Trade(inc.orderId, row.orderId, inc.userId, row.userId, q, row.price.value, row.remaining - q)
    else Trade(row.orderId, inc.orderId, row.userId, inc.userId, q, row.price.value, row.remaining - q)
  }

  function TradesOf(inc: Incoming, rows: seq<Resting>, n: nat): seq<Trade>
    requires n <= |rows|
  {
    if n == 0 then []
    else if Taken(inc, rows, n - 1) == 0 then TradesOf(inc, rows, n - 1)
    else TradesOf(inc, rows, n - 1) + [TradeWith(inc, rows[n - 1], Taken(inc, rows, n - 1))]
  }

  function After(inc: Incoming, row: Resting, q: nat): Resting
  {
    row.(remaining := row.remaining - q)
  }

  // A price is missing on a row the loop gets to, or on the order itself.
  ghost predicate Unpriced(inc: Incoming, rows: seq<Resting>)
  {
    exists i :: 0 <= i < |rows| && Supply(inc, rows, i) < inc.quantity && (inc.price.None? || rows[i].price.None?)
  }

  // ----- MatchingEngineService.matchingOrder ----------------------------------

  method MatchingOrder(inc: Incoming, rows: array<Resting>) returns (r: Outcome)
    modifies rows
    ensures r == BadPrice <==> Unpriced(inc, old(rows[..]))
    ensures r.Trades? ==> r.trades == TradesOf(inc, old(rows[..]), rows.Length)
    ensures r.Trades? ==> forall i :: 0 <= i < rows.Length ==>
      rows[i] == After(inc, old(rows[i]), Taken(inc, old(rows[..]), i))
    ensures r.Trades? && Volume(r.trades) < inc.quantity ==>
      forall i | 0 <= i < rows.Length && rows[i].userId != inc.userId && rows[i].side != inc.side ::
        rows[i].remaining > 0 ==>
          && inc.price.Some? && rows[i].price.Some?
          && (if inc.side.Buy? then rows[i].price.value > inc.price.value else rows[i].price.value < inc.price.value)
  {
    hide Taken, TradesOf, Supply, Volume, PriceMatch;
    ghost var was := rows[..];
    var trades := [];
    var incomingQty := inc.quantity;
    var i := 0;
    NothingYet(inc, was);
    while i < rows.Length
      invariant 0 <= i <= rows.Length
      invariant incomingQty == inc.quantity - Min(inc.quantity, Supply(inc, was, i))
      invariant trades == TradesOf(inc, was, i)
      invariant forall j :: 0 <= j < i ==> rows[j] == After(inc, was[j], Taken(inc, was, j))
      invariant forall j :: i <= j < rows.Length ==> rows[j] == was[j]
      invariant forall j :: 0 <= j < i && Supply(inc, was, j) < inc.quantity ==> inc.price.Some? && was[j].price.Some?
    {
      if incomingQty == 0 {
        NothingLeft(inc, was, i);
        break;
      }
      NextRow(inc, was, i);
      var row := rows[i];
      if inc.price.None? || row.price.None? {
        return BadPrice;
      }
      i := i + 1;
      if !PriceMatch(inc, row) || row.userId == inc.userId || row.remaining <= 0 {
        continue;
      }
      var tradeQty := Min(incomingQty, row.remaining);
      trades := trades + [TradeWith(inc, row, tradeQty)];
      incomingQty := incomingQty - tradeQty;
      rows[i - 1] := row.(remaining := row.remaining - tradeQty);
    }
    forall k | 0 <= k < rows.Length && Volume(trades) < inc.quantity
      && rows[k].userId != inc.userId && rows[k].side != inc.side && rows[k].remaining > 0
      ensures inc.price.Some? && was[k].price.Some?
      ensures if inc.side.Buy? then was[k].price.value > inc.price.value else was[k].price.value < inc.price.value
    {
      NothingCrossingIsLeft(inc, was, k);
    }
    return Trades(trades);
  }

  lemma NothingYet(inc: Incoming, rows: seq<Resting>)
    ensures Supply(inc, rows, 0) == 0 && TradesOf(inc, rows, 0) == []
  {}

  // One turn of the loop, in terms of the specification.
  lemma NextRow(inc: Incoming, rows: seq<Resting>, i: nat)
    requires i < |rows| && Supply(inc, rows, i) < inc.quantity
    ensures var left := inc.quantity - Supply(inc, rows, i);
            var q := Min(left, Capacity(inc, rows[i]));
            && Taken(inc, rows, i) == q
            && Min(inc.quantity, Supply(inc, rows, i + 1)) == Supply(inc, rows, i) + q
            && TradesOf(inc, rows, i + 1) == TradesOf(inc, rows, i) + if q == 0 then []
              else [TradeWith(inc, rows[i], q)]
  {}

  lemma SupplyGrows(inc: Incoming, rows: seq<Resting>, i: nat, n: nat)
    requires i <= n <= |rows|
    ensures Supply(inc, rows, i) <= Supply(inc, rows, n)
    decreases n - i
  {
    if i < n { SupplyGrows(inc, rows, i, n - 1); }
  }

  lemma NothingLeft(inc: Incoming, rows: seq<Resting>, i: nat)
    requires i <= |rows| && inc.quantity <= Supply(inc, rows, i)
    ensures forall j :: i <= j < |rows| ==> Taken(inc, rows, j) == 0 && inc.quantity <= Supply(inc, rows, j)
    ensures TradesOf(inc, rows, |rows|) == TradesOf(inc, rows, i)
  {
    forall j | i <= j < |rows| ensures Taken(inc, rows, j) == 0 && inc.quantity <= Supply(inc, rows, j) {
      SupplyGrows(inc, rows, i, j);
    }
    NoMoreTrades(inc, rows, i, |rows|);
  }

  lemma NoMoreTrades(inc: Incoming, rows: seq<Resting>, i: nat, n: nat)
    requires i <= n <= |rows|
    requires forall j :: i <= j < n ==> Taken(inc, rows, j) == 0
    ensures TradesOf(inc, rows, n) == TradesOf(inc, rows, i)
    decreases n - i
  {
    if i < n { NoMoreTrades(inc, rows, i, n - 1); }
  }

  // ----- Maximal ----------------------------------------------------------------

  function Volume(trades: seq<Trade>): nat
  {
    if |trades| == 0 then 0 else Volume(trades[..|trades| - 1]) + trades[|trades| - 1].quantity
  }

  // All that can be filled is filled: the whole order, or everything on offer.
  lemma {:induction false} FillsAllItCan(inc: Incoming, rows: seq<Resting>, n: nat)
    requires n <= |rows|
    ensures Volume(TradesOf(inc, rows, n)) == Min(inc.quantity, Supply(inc, rows, n))
  {
    if n > 0 {
      FillsAllItCan(inc, rows, n - 1);
      var q := Taken(inc, rows, n - 1);
      if q > 0 {
        var t := TradesOf(inc, rows, n - 1);
        assert (t + [TradeWith(inc, rows[n - 1], q)])[..|t|] == t;
      }
    }
  }

  // So the book is never left crossed: what an order leaves unfilled finds no
  // row of another user on the other side at a price within its limit.
  lemma NothingCrossingIsLeft(inc: Incoming, rows: seq<Resting>, i: nat)
    requires i < |rows| && Volume(TradesOf(inc, rows, |rows|)) < inc.quantity && !Unpriced(inc, rows)
    requires rows[i].userId != inc.userId && rows[i].side != inc.side
    requires rows[i].remaining - Taken(inc, rows, i) > 0
    ensures inc.price.Some? && rows[i].price.Some?
    ensures if inc.side.Buy? then rows[i].price.value > inc.price.value else rows[i].price.value < inc.price.value
  {
    FillsAllItCan(inc, rows, |rows|);
    SupplyGrows(inc, rows, i, |rows|);
    SupplyGrows(inc, rows, i + 1, |rows|);
    assert Taken(inc, rows, i) == Capacity(inc, rows[i]);
  }

  // Every trade is with another user, at the resting price, within both
  // limits, for no more than the row holds.
  lemma {:induction false} TradesRespectBothSides(inc: Incoming, rows: seq<Resting>, n: nat, t: Trade)
    requires n <= |rows| && t in TradesOf(inc, rows, n)
    ensures inc.price.Some? && t.buyUser != t.sellUser && t.quantity > 0 && t.left >= 0
    ensures if inc.side.Buy? then t.buyOrder == inc.orderId && t.buyUser == inc.userId && t.price <= inc.price.value
            else t.sellOrder == inc.orderId && t.sellUser == inc.userId && t.price >= inc.price.value
    ensures exists i :: 0 <= i < n && Eligible(inc, rows[i]) && Taken(inc, rows, i) == t.quantity
                        && t == TradeWith(inc, rows[i], t.quantity)
  {
    var q := Taken(inc, rows, n - 1);
    if q > 0 && t == TradeWith(inc, rows[n - 1], q) {
      assert Eligible(inc, rows[n - 1]);
    } else {
      TradesRespectBothSides(inc, rows, n - 1, t);
    }
  }

  lemma {:induction false} TakenIsTraded(inc: Incoming, rows: seq<Resting>, i: nat, n: nat)
    requires i < n <= |rows| && Taken(inc, rows, i) > 0
    ensures rows[i].price.Some? && TradeWith(inc, rows[i], Taken(inc, rows, i)) in TradesOf(inc, rows, n)
  {
    if i < n - 1 { TakenIsTraded(inc, rows, i, n - 1); }
  }

  // Book priority: a row trades only once every row before it is used up.
  lemma EarlierRowsFirst(inc: Incoming, rows: seq<Resting>, i: nat, j: nat)
    requires i < j < |rows| && Taken(inc, rows, j) > 0
    ensures Taken(inc, rows, i) == Capacity(inc, rows[i])
  {
    SupplyGrows(inc, rows, i + 1, j);
  }

  // ----- Optimal ----------------------------------------------------------------

  // What a unit at the row's price costs the incoming side.
  function UnitCost(inc: Incoming, row: Resting): real
  {
    if row.price.None? then 0.0 else if inc.side.Buy? then row.price.value else -row.price.value
  }

  // The rows are in the order of the book query: best price first.
  ghost predicate BestFirst(inc: Incoming, rows: seq<Resting>)
  {
    forall i, j :: 0 <= i < j < |rows| && Eligible(inc, rows[i]) && Eligible(inc, rows[j]) ==>
      UnitCost(inc, rows[i]) <= UnitCost(inc, rows[j])
  }

  ghost predicate Feasible(inc: Incoming, rows: seq<Resting>, a: seq<nat>)
  {
    |a| == |rows| && forall i :: 0 <= i < |a| ==> a[i] <= Capacity(inc, rows[i])
  }

  ghost function Greedy(inc: Incoming, rows: seq<Resting>): (g: seq<nat>)
    ensures |g| == |rows|
  {
    seq(|rows|, i requires 0 <= i < |rows| => Taken(inc, rows, i))
  }

  ghost function Total(a: seq<nat>, n: nat): nat
    requires n <= |a|
  {
    if n == 0 then 0 else Total(a, n - 1) + a[n - 1]
  }

  ghost function Cost(inc: Incoming, rows: seq<Resting>, a: seq<nat>, n: nat): real
    requires n <= |a| == |rows|
  {
    if n == 0 then 0.0 else Cost(inc, rows, a, n - 1) + Value(a[n - 1], UnitCost(inc, rows[n - 1]))
  }

  lemma {:induction false} GreedyTotal(inc: Incoming, rows: seq<Resting>, n: nat)
    requires n <= |rows|
    ensures Total(Greedy(inc, rows), n) == Min(inc.quantity, Supply(inc, rows, n))
  {
    if n > 0 { GreedyTotal(inc, rows, n - 1); }
  }

  // `price` separates what the greedy loop takes from what it leaves.
  ghost predicate Separates(inc: Incoming, rows: seq<Resting>, price: real, a: seq<nat>, g: seq<nat>, i: nat)
    requires i < |rows| == |a| == |g|
  {
    || a[i] == g[i]
    || (a[i] < g[i] && UnitCost(inc, rows[i]) <= price)
    || (a[i] > g[i] && UnitCost(inc, rows[i]) >= price)
  }

  lemma {:induction false} SeparatedCost(inc: Incoming, rows: seq<Resting>, price: real,
      a: seq<nat>, g: seq<nat>, n: nat)
    requires n <= |rows| == |a| == |g|
    requires forall i :: 0 <= i < n ==> Separates(inc, rows, price, a, g, i)
    ensures Cost(inc, rows, a, n) - Value(Total(a, n), price) >= Cost(inc, rows, g, n) - Value(Total(g, n), price)
  {
    hide Value, UnitCost;
    ValueSum(0, 0, price);
    if n > 0 {
      SeparatedCost(inc, rows, price, a, g, n - 1);
      assert Separates(inc, rows, price, a, g, n - 1);
      ValueSum(Total(a, n - 1), a[n - 1], price);
      ValueSum(Total(g, n - 1), g[n - 1], price);
      OneRow(a[n - 1], g[n - 1], UnitCost(inc, rows[n - 1]), price);
    }
  }

  lemma OneRow(a: nat, g: nat, cost: real, price: real)
    requires a == g || (a < g && cost <= price) || (a > g && cost >= price)
    ensures Value(a, cost) - Value(a, price) >= Value(g, cost) - Value(g, price)
  {
    hide Value;
    var d := a - g;
    ValueSign(d, cost - price);
    ValueSum(g, d, cost);
    ValueSum(g, d, price);
    ValueDiff(d, cost, price);
  }

  lemma {:induction false} Squeezed(a: seq<nat>, b: seq<nat>, n: nat)
    requires n <= |a| == |b|
    requires forall i :: 0 <= i < n ==> a[i] <= b[i]
    ensures Total(a, n) <= Total(b, n)
    ensures Total(a, n) == Total(b, n) ==> forall i :: 0 <= i < n ==> a[i] == b[i]
  {
    if n > 0 { Squeezed(a, b, n - 1); }
  }

  lemma {:induction false} Pivot(inc: Incoming, rows: seq<Resting>, n: nat) returns (m: nat)
    requires n <= |rows| && 0 < inc.quantity <= Supply(inc, rows, n)
    ensures m < n && Supply(inc, rows, m) < inc.quantity <= Supply(inc, rows, m + 1)
  {
    if inc.quantity <= Supply(inc, rows, n - 1) {
      m := Pivot(inc, rows, n - 1);
    } else {
      m := n - 1;
    }
  }

  // No other way of filling the same quantity from these rows costs the
  // incoming buyer less, or brings the incoming seller more.
  lemma GreedyIsOptimal(inc: Incoming, rows: seq<Resting>, a: seq<nat>)
    requires BestFirst(inc, rows) && Feasible(inc, rows, a)
    requires Total(a, |a|) == Total(Greedy(inc, rows), |rows|)
    ensures Cost(inc, rows, Greedy(inc, rows), |rows|) <= Cost(inc, rows, a, |rows|)
  {
    var g := Greedy(inc, rows);
    var n := |rows|;
    GreedyTotal(inc, rows, n);
    if inc.quantity == 0 || inc.quantity > Supply(inc, rows, n) {
      forall i | 0 <= i < n
        ensures inc.quantity == 0 ==> g[i] == 0
        ensures inc.quantity > 0 ==> g[i] == Capacity(inc, rows[i])
      {
        SupplyGrows(inc, rows, i + 1, n);
      }
      if inc.quantity == 0 { Squeezed(g, a, n); } else { Squeezed(a, g, n); }
      assert a == g;
    } else {
      var m := Pivot(inc, rows, n);
      var price := UnitCost(inc, rows[m]);
      forall i | 0 <= i < n ensures Separates(inc, rows, price, a, g, i) {
        PivotSeparates(inc, rows, a, m, i);
      }
      SeparatedCost(inc, rows, price, a, g, n);
    }
  }

  lemma PivotSeparates(inc: Incoming, rows: seq<Resting>, a: seq<nat>, m: nat, i: nat)
    requires BestFirst(inc, rows) && Feasible(inc, rows, a)
    requires i < |rows| && m < |rows| && Supply(inc, rows, m) < inc.quantity <= Supply(inc, rows, m + 1)
    ensures Separates(inc, rows, UnitCost(inc, rows[m]), a, Greedy(inc, rows), i)
  {
    assert Eligible(inc, rows[m]);
    if i < m {
      SupplyGrows(inc, rows, i + 1, m);
      assert Taken(inc, rows, i) == Capacity(inc, rows[i]);
    } else if i > m {
      SupplyGrows(inc, rows, m + 1, i);
      assert Taken(inc, rows, i) == 0;
    }
  }
}
