// The arithmetic of one position: service/positionService.py (live book) and
// service/positionsService.py (row-per-product book) each compute it with their
// own branches; `Filled` is the common specification.
module Positions {

  datatype Side = Buy | Sell

  datatype Fill = Fill(side: Side, qty: int, price: real)
  {
    // Both services reject anything else before touching a position.
    predicate Valid() { qty > 0 && price > 0.0 }

    function Signed(): int { if side.Buy? then qty else -qty }

    // Cash the fill brings in (a buy pays out).
    function Cash(): real { Value(-Signed(), price) }
  }

  datatype Figures = Figures(
    netqty: int, netavgprc: real,
    buyqty: nat, sellqty: nat, buyavgprc: real, sellavgprc: real,
    realized: real)

  // A position is one user's holding of one contract.
  datatype PositionKey = PositionKey(user: int, tsym: string)

  const FLAT := Figures(0, 0.0, 0, 0, 0.0, 0.0, 0.0)

  function Abs(n: int): nat { if n < 0 then -n else n }

  function Min(a: int, b: int): int { if a < b then a else b }

  // `n` units at `x` each.
  function Value(n: int, x: real): real { n as real * x }

  lemma ValueSum(n: int, m: int, x: real)
    ensures Value(n + m, x) == Value(n, x) + Value(m, x)
    ensures Value(-n, x) == -Value(n, x)
    ensures Value(0, x) == 0.0
  {}

  lemma ValueDiff(n: int, x: real, y: real)
    ensures Value(n, x - y) == Value(n, x) - Value(n, y)
  {}

  lemma ValueSign(n: int, x: real)
    requires (n >= 0 && x >= 0.0) || (n <= 0 && x <= 0.0)
    ensures Value(n, x) >= 0.0
  {}

  // Weighted average price of `q0` units at `a0` and `q` units at `p`.
  function Blend(q0: nat, a0: real, q: nat, p: real): real
    requires q > 0
  {
    (Value(q0, a0) + Value(q, p)) / (q0 + q) as real
  }

  lemma BlendValue(q0: nat, a0: real, q: nat, p: real)
    requires q > 0
    ensures Value(q0 + q, Blend(q0, a0, q, p)) == Value(q0, a0) + Value(q, p)
  {
    var v := Value(q0, a0) + Value(q, p);
    var d := (q0 + q) as real;
    assert d * (v / d) == v;
  }

  // An average is pinned down by the value it stands for.
  lemma SameValue(n: int, x: real, y: real)
    requires n != 0 && Value(n, x) == Value(n, y)
    ensures x == y
  {}

  // How much of the fill works off an opposite position.
  function ClosingQty(netqty: int, f: Fill): nat
    requires f.Valid()
  {
    if (netqty < 0 && f.side.Buy?) || (netqty > 0 && f.side.Sell?) then Min(f.qty, Abs(netqty)) else 0
  }

  // What one fill makes of a position.
  function Filled(p: Figures, f: Fill): Figures
    requires f.Valid()
  {
    var net := p.netqty + f.Signed();
    var closing := ClosingQty(p.netqty, f);
    Figures(
      net,
      if net == 0 then 0.0
      else if closing == 0 then Blend(Abs(p.netqty), p.netavgprc, f.qty, f.price)
      else if closing < f.qty then f.price
      else p.netavgprc,
      if f.side.Buy? then p.buyqty + f.qty else p.buyqty,
      if f.side.Sell? then p.sellqty + f.qty else p.sellqty,
      if f.side.Buy? then Blend(p.buyqty, p.buyavgprc, f.qty, f.price) else p.buyavgprc,
      if f.side.Sell? then Blend(p.sellqty, p.sellavgprc, f.qty, f.price) else p.sellavgprc,
      if closing == 0 then p.realized
      else p.realized + Value(closing, if p.netqty > 0 then f.price - p.netavgprc else p.netavgprc - f.price))
  }

  predicate AllValid(fills: seq<Fill>) { forall i :: 0 <= i < |fills| ==> fills[i].Valid() }

  function Fold(p: Figures, fills: seq<Fill>): Figures
    requires AllValid(fills)
  {
    if |fills| == 0 then p else Filled(Fold(p, fills[..|fills| - 1]), fills[|fills| - 1])
  }

  // ----- The two implementations -------------------------------------------

  // PositionService.apply_fill, arithmetic part.
  method ServiceFigures(p: Figures, f: Fill) returns (r: Figures)
    requires f.Valid()
    ensures r == Filled(p, f)
  {
    hide Blend, Value;
    var netqty, netavgprc := p.netqty, p.netavgprc;
    var buyqty, buyavgprc := p.buyqty, p.buyavgprc;
    var sellqty, sellavgprc := p.sellqty, p.sellavgprc;
    var realized := p.realized;
    if f.side == Buy {
      buyavgprc := Blend(buyqty, buyavgprc, f.qty, f.price);
      buyqty := buyqty + f.qty;
      if netqty >= 0 {
        netavgprc := Blend(netqty, netavgprc, f.qty, f.price);
        netqty := netqty + f.qty;
      } else {
        var coverQty := Min(f.qty, -netqty);
        realized := realized + Value(coverQty, netavgprc - f.price);
        var remaining := f.qty - coverQty;
        netqty := netqty + f.qty;
        if netqty == 0 {
          netavgprc := 0.0;
        } else if remaining > 0 {
          netavgprc := f.price;
        }
      }
    } else {
      sellavgprc := Blend(sellqty, sellavgprc, f.qty, f.price);
      sellqty := sellqty + f.qty;
      if netqty <= 0 {
        netavgprc := Blend(-netqty, netavgprc, f.qty, f.price);
        netqty := netqty - f.qty;
      } else {
        var closeQty := Min(f.qty, netqty);
        realized := realized + Value(closeQty, f.price - netavgprc);
        var remaining := f.qty - closeQty;
        netqty := netqty - f.qty;
        if netqty == 0 {
          netavgprc := 0.0;
        } else if remaining > 0 {
          netavgprc := f.price;
        }
      }
    }
    r := Figures(netqty, netavgprc, buyqty, sellqty, buyavgprc, sellavgprc, realized);
  }

  // PositionsService.applyFill, arithmetic part: opens, adds, closes and flips
  // are told apart by comparing the signs of the position and of the fill.
  method RowFigures(p: Figures, f: Fill) returns (r: Figures)
    requires f.Valid()
    ensures r == Filled(p, f)
  {
    hide Blend, Value;
    var realized := p.realized;
    var signedQty := if f.side == Buy then f.qty else -f.qty;
    var newNetqty := p.netqty + signedQty;
    var netavgprc;
    if p.netqty == 0 || (p.netqty > 0) == (signedQty > 0) {
      netavgprc := Blend(Abs(p.netqty), p.netavgprc, f.qty, f.price);
    } else {
      var closingQty := Min(f.qty, Abs(p.netqty));
      if p.netqty > 0 {
        realized := realized + Value(closingQty, f.price - p.netavgprc);
      } else {
        realized := realized + Value(closingQty, p.netavgprc - f.price);
      }
      var remainingFillQty := f.qty - closingQty;
      if newNetqty == 0 {
        netavgprc := 0.0;
      } else if remainingFillQty > 0 {
        netavgprc := f.price;
      } else {
        netavgprc := p.netavgprc;
      }
    }
    var buyqty, buyavgprc, sellqty, sellavgprc := p.buyqty, p.buyavgprc, p.sellqty, p.sellavgprc;
    if f.side == Buy {
      buyqty := p.buyqty + f.qty;
      buyavgprc := Blend(p.buyqty, p.buyavgprc, f.qty, f.price);
    } else {
      sellqty := p.sellqty + f.qty;
      sellavgprc := Blend(p.sellqty, p.sellavgprc, f.qty, f.price);
    }
    r := Figures(newNetqty, netavgprc, buyqty, sellqty, buyavgprc, sellavgprc, realized);
  }

  // ----- What a fill books --------------------------------------------------

  // Profit is booked only on what is closed, against the average it was opened
  // at, and the average moves only with what is opened.  A fill on the
  // position's own side books nothing and adds its own cost ...
  lemma AddingBooksNothing(p: Figures, f: Fill)
    requires f.Valid() && (if f.side.Buy? then p.netqty >= 0 else p.netqty <= 0)
    ensures var r := Filled(p, f);
      && r.realized == p.realized
      && Value(r.netqty, r.netavgprc) == Value(p.netqty, p.netavgprc) + Value(f.Signed(), f.price)
  {
    hide Blend, Value;
    BlendValue(Abs(p.netqty), p.netavgprc, f.qty, f.price);
    ValueSum(p.netqty, 0, p.netavgprc);
    ValueSum(f.qty, 0, f.price);
    ValueSum(Filled(p, f).netqty, 0, Filled(p, f).netavgprc);
  }

  // ... one that works off part of the position books that part and leaves the
  // average alone; one that works off all of it books all of it, and what is
  // left over opens at the fill's own price.
  lemma OpposingBooksTheClosed(p: Figures, f: Fill)
    requires f.Valid() && (if f.side.Buy? then p.netqty < 0 else p.netqty > 0)
    ensures var r := Filled(p, f);
            var held := if p.netqty > 0 then p.netqty else -p.netqty;
            var perUnit := if p.netqty > 0 then f.price - p.netavgprc else p.netavgprc - f.price;
      && (f.qty < held ==> r.netavgprc == p.netavgprc && r.realized == p.realized + Value(f.qty, perUnit))
      && (f.qty >= held ==> r.realized == p.realized + Value(held, perUnit))
      && (f.qty == held ==> r.netqty == 0 && r.netavgprc == 0.0)
      && (f.qty > held ==> r.netavgprc == f.price)
  {
    hide Value;
  }

  // Over runs: fills all on one side of a flat position book no profit, and
  // what is open stands at exactly what was paid or received for it.
  lemma {:induction false} OneSideBooksNothing(fills: seq<Fill>, side: Side)
    requires AllValid(fills) && forall i :: 0 <= i < |fills| ==> fills[i].side == side
    ensures var p := Fold(FLAT, fills);
      && p.realized == 0.0 && Value(p.netqty, p.netavgprc) == -Cash(fills)
      && (if side.Buy? then p.netqty >= 0 else p.netqty <= 0)
  {
    hide Filled, Value;
    ValueSum(0, 0, 0.0);
    if |fills| > 0 {
      var init, last := fills[..|fills| - 1], fills[|fills| - 1];
      OneSideBooksNothing(init, side);
      AddingBooksNothing(Fold(FLAT, init), last);
      FilledTotals(Fold(FLAT, init), last);
      ValueSum(last.Signed(), 0, last.price);
    }
  }

  // ----- Cash identity ------------------------------------------------------

  ghost function Cash(fills: seq<Fill>): real
  {
    if |fills| == 0 then 0.0 else Cash(fills[..|fills| - 1]) + fills[|fills| - 1].Cash()
  }

  ghost function Bought(fills: seq<Fill>): nat
    requires AllValid(fills)
  {
    if |fills| == 0 then 0
    else Bought(fills[..|fills| - 1]) + if fills[|fills| - 1].side.Buy? then fills[|fills| - 1].qty else 0
  }

  ghost function Sold(fills: seq<Fill>): nat
    requires AllValid(fills)
  {
    if |fills| == 0 then 0
    else Sold(fills[..|fills| - 1]) + if fills[|fills| - 1].side.Sell? then fills[|fills| - 1].qty else 0
  }

  // What was paid for everything bought, and received for everything sold.
  ghost function PaidFor(fills: seq<Fill>, side: Side): real
  {
    if |fills| == 0 then 0.0
    else
      var last := fills[|fills| - 1];
      PaidFor(fills[..|fills| - 1], side) + if last.side == side then Value(last.qty, last.price) else 0.0
  }

  // The lifetime averages are those of all buys and of all sells.
  lemma {:induction false} LifetimeAverages(fills: seq<Fill>)
    requires AllValid(fills)
    ensures var p := Fold(FLAT, fills);
      && Value(p.buyqty, p.buyavgprc) == PaidFor(fills, Buy) && Value(p.sellqty, p.sellavgprc) == PaidFor(fills, Sell)
  {
    hide Blend, Value;
    ValueSum(0, 0, 0.0);
    if |fills| > 0 {
      var last := fills[|fills| - 1];
      var p := Fold(FLAT, fills[..|fills| - 1]);
      LifetimeAverages(fills[..|fills| - 1]);
      if last.side.Buy? {
        BlendValue(p.buyqty, p.buyavgprc, last.qty, last.price);
      } else {
        BlendValue(p.sellqty, p.sellavgprc, last.qty, last.price);
      }
    }
  }

  // The books balance: lifetime totals, realised P&L and the cost of what is
  // still open all account for the same net cash.
  ghost predicate Balanced(p: Figures, cash: real)
  {
    && p.netqty == p.buyqty - p.sellqty
    && Value(p.sellqty, p.sellavgprc) - Value(p.buyqty, p.buyavgprc) == cash
    && p.realized - Value(p.netqty, p.netavgprc) == cash
    && (p.netqty == 0 ==> p.netavgprc == 0.0)
    && (p.netqty != 0 ==> p.netavgprc > 0.0)
  }

  // Mark-to-market value of a position at price `lp`: realised plus unrealised
  // P&L, as apply_fill and apply_tick compute it.
  function TotalPnl(p: Figures, lp: real): real
  {
    p.realized + Value(p.netqty, lp - p.netavgprc)
  }

  // The open cost moves with the cash, less what the fill banks.
  lemma OpenCostStep(p: Figures, f: Fill)
    requires f.Valid()
    requires p.netqty == 0 ==> p.netavgprc == 0.0
    ensures var r := Filled(p, f);
            r.realized - Value(r.netqty, r.netavgprc) == p.realized - Value(p.netqty, p.netavgprc) + f.Cash()
  {
    hide Blend, Value;
    var c: int := ClosingQty(p.netqty, f);
    var r := Filled(p, f);
    if c == 0 {
      BlendValue(Abs(p.netqty), p.netavgprc, f.qty, f.price);
      ValueSum(p.netqty, 0, p.netavgprc);
      ValueSum(f.qty, 0, f.price);
      ValueSum(r.netqty, 0, r.netavgprc);
    } else {
      var s := if p.netqty > 0 then c else -c;  // the part of the position worked off
      ValueSum(p.netqty - s, s, p.netavgprc);
      ValueSum(s, -f.Signed() - s, f.price);
      ValueSum(c, 0, f.price);
      ValueSum(c, 0, p.netavgprc);
      ValueDiff(c, f.price, p.netavgprc);
      ValueDiff(c, p.netavgprc, f.price);
      ValueSum(r.netqty, 0, r.netavgprc);
      ValueSum(r.netqty, 0, f.price);
      ValueSum(0, 0, p.netavgprc);
      ValueSum(0, 0, f.price);
    }
  }

  lemma BalancedStep(p: Figures, f: Fill, cash: real)
    requires f.Valid() && Balanced(p, cash)
    ensures Balanced(Filled(p, f), cash + f.Cash())
  {
    hide Blend, Value;
    OpenCostStep(p, f);
    ValueSum(f.qty, 0, f.price);
    if f.side.Buy? {
      BlendValue(p.buyqty, p.buyavgprc, f.qty, f.price);
    } else {
      BlendValue(p.sellqty, p.sellavgprc, f.qty, f.price);
    }
    BlendPositive(Abs(p.netqty), p.netavgprc, f.qty, f.price);
  }

  lemma BlendPositive(q0: nat, a0: real, q: nat, p: real)
    requires q > 0 && p > 0.0 && a0 >= 0.0
    ensures Blend(q0, a0, q, p) > 0.0
  {
    assert Value(q, p) > 0.0;
    assert Value(q0, a0) >= 0.0;
  }

  // After any sequence of fills, through flips and reopenings.
  lemma {:induction false} CashIdentity(fills: seq<Fill>)
    requires AllValid(fills)
    ensures Balanced(Fold(FLAT, fills), Cash(fills))
    ensures Fold(FLAT, fills).buyqty == Bought(fills) && Fold(FLAT, fills).sellqty == Sold(fills)
  {
    hide Filled, Value, Balanced;
    if |fills| == 0 {
      FlatIsBalanced();
    } else {
      var init, last := fills[..|fills| - 1], fills[|fills| - 1];
      CashIdentity(init);
      BalancedStep(Fold(FLAT, init), last, Cash(init));
      FilledTotals(Fold(FLAT, init), last);
    }
  }

  lemma FlatIsBalanced()
    ensures Balanced(FLAT, 0.0)
  {}

  lemma FilledTotals(p: Figures, f: Fill)
    requires f.Valid()
    ensures Filled(p, f).buyqty == p.buyqty + if f.side.Buy? then f.qty else 0
    ensures Filled(p, f).sellqty == p.sellqty + if f.side.Sell? then f.qty else 0
    ensures Filled(p, f).netqty == p.netqty + f.Signed()
  {
    hide Blend, Value;
  }

  // Total P&L at any price is the cash taken in so far plus the value of what is held.
  lemma TotalPnlIsCashPlusHoldings(fills: seq<Fill>, lp: real)
    requires AllValid(fills)
    ensures TotalPnl(Fold(FLAT, fills), lp) == Cash(fills) + Value(Bought(fills) - Sold(fills), lp)
  {
    hide Value, Fold;
    CashIdentity(fills);
    var p := Fold(FLAT, fills);
    ValueDiff(p.netqty, lp, p.netavgprc);
  }

  // ----- Slicing ------------------------------------------------------------

  lemma BlendTwice(q0: nat, a0: real, q1: nat, q2: nat, p: real)
    requires q1 > 0 && q2 > 0
    ensures Blend(q0 + q1, Blend(q0, a0, q1, p), q2, p) == Blend(q0, a0, q1 + q2, p)
  {
    hide Blend, Value;
    var once := Blend(q0, a0, q1 + q2, p);
    var twice := Blend(q0 + q1, Blend(q0, a0, q1, p), q2, p);
    BlendValue(q0, a0, q1, p);
    BlendValue(q0 + q1, Blend(q0, a0, q1, p), q2, p);
    BlendValue(q0, a0, q1 + q2, p);
    ValueSum(q1, q2, p);
    assert q0 + q1 + q2 == q0 + (q1 + q2);
    SameValue(q0 + q1 + q2, once, twice);
  }

  lemma BlendAtOwnPrice(q0: nat, q: nat, p: real)
    requires q > 0
    ensures Blend(q0, p, q, p) == p
  {
    hide Blend, Value;
    BlendValue(q0, p, q, p);
    ValueSum(q0, q, p);
    SameValue(q0 + q, Blend(q0, p, q, p), p);
  }

  lemma BlendFromFlat(a0: real, q: nat, p: real)
    requires q > 0
    ensures Blend(0, a0, q, p) == p
  {
    hide Blend, Value;
    BlendValue(0, a0, q, p);
    ValueSum(0, 0, a0);
    SameValue(q, Blend(0, a0, q, p), p);
  }

  // A fill and the same quantity sliced in two at one price leave the same
  // position, from any starting position.
  lemma SlicingIsIrrelevant(p: Figures, side: Side, q1: int, q2: int, price: real)
    requires q1 > 0 && q2 > 0 && price > 0.0
    ensures Filled(Filled(p, Fill(side, q1, price)), Fill(side, q2, price)) == Filled(p, Fill(side, q1 + q2, price))
  {
    hide Blend, Value;
    var whole := Fill(side, q1 + q2, price);
    var f1, f2 := Fill(side, q1, price), Fill(side, q2, price);
    var mid := Filled(p, f1);
    if side.Buy? {
      BlendTwice(p.buyqty, p.buyavgprc, q1, q2, price);
    } else {
      BlendTwice(p.sellqty, p.sellavgprc, q1, q2, price);
    }
    var c, c1, c2 := ClosingQty(p.netqty, whole), ClosingQty(p.netqty, f1), ClosingQty(mid.netqty, f2);
    assert c == c1 + c2;
    ValueSum(c1, c2, if p.netqty > 0 then price - p.netavgprc else p.netavgprc - price);
    if c == 0 {
      BlendTwice(Abs(p.netqty), p.netavgprc, q1, q2, price);
    } else if c2 == 0 {
      BlendAtOwnPrice(Abs(mid.netqty), q2, price);
      BlendFromFlat(mid.netavgprc, q2, price);
    }
  }

  // ----- What one fill does to the mark-to-market value --------------------------

  lemma TotalPnlStep(p: Figures, f: Fill, lp: real)
    requires f.Valid() && (p.netqty == 0 ==> p.netavgprc == 0.0)
    ensures TotalPnl(Filled(p, f), lp) == TotalPnl(p, lp) + f.Cash() + Value(f.Signed(), lp)
  {
    hide Blend, Value;
    OpenCostStep(p, f);
    FilledTotals(p, f);
    var r := Filled(p, f);
    ValueDiff(p.netqty, lp, p.netavgprc);
    ValueDiff(r.netqty, lp, r.netavgprc);
    ValueSum(p.netqty, f.Signed(), lp);
  }
}
