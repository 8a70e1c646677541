// The second position book, service/positionsService.py: one table row per
// (user, symbol, product), rewritten on every fill, no cache.
module PositionRows {
  import opened Positions
  import opened Sums
  import Live = PositionBook

  type Key = (int, string, string)  // (user_id, tsym, product_type)

  type Table = map<Key, Live.Row>

  function RowStep(rows: Table, k: Key, f: Fill): Table
    requires f.Valid()
  {
    var p := Filled(if k in rows then rows[k].fig else FLAT, f);
    rows[k := Live.Row(p, p.netqty != 0)]
  }

  class PositionsService {
    var rows: Table

    constructor ()
      ensures rows == map[]
    {
      rows := map[];
    }

    // PositionsService.applyFill.  `ok` is false where the service raises.
    method ApplyFill(userId: int, tsym: string, product: string, f: Fill) returns (ok: bool)
      modifies this
      ensures ok <==> f.Valid()
      ensures rows == if ok then RowStep(old(rows), (userId, tsym, product), f) else old(rows)
    {
      if f.qty <= 0 || f.price <= 0.0 {
        return false;
      }
      var k := (userId, tsym, product);
      var p := RowFigures(if k in rows then rows[k].fig else FLAT, f);
      rows := rows[k := Live.Row(p, p.netqty != 0)];
      return true;
    }
  }

  // Both services are handed the same fills of one product (ticks only reach
  // the live book).
  function RowRun(events: seq<Live.Event>, product: string): Table
    requires Live.AllEventsValid(events)
  {
    if |events| == 0 then map[] else
      var rows := RowRun(events[..|events| - 1], product);
      var e := events[|events| - 1];
      if e.FillEvent? then RowStep(rows, (e.key.0, e.key.1, product), e.fill) else rows
  }

  lemma {:induction false} RowIsFold(events: seq<Live.Event>, product: string, k: Live.Key)
    requires Live.AllEventsValid(events)
    ensures AllValid(Live.FillsOf(events, k))
    ensures var rows, fills := RowRun(events, product), Live.FillsOf(events, k);
            var row := (k.0, k.1, product);
            && (row in rows <==> |fills| > 0)
            && (row in rows ==> rows[row].fig == Fold(FLAT, fills) && rows[row].open == (rows[row].fig.netqty != 0))
  {
    hide Filled, Value;
    Live.FillsOfValid(events, k);
    if |events| > 0 {
      var init, e := events[..|events| - 1], events[|events| - 1];
      RowIsFold(init, product, k);
      if e.FillEvent? && e.key == k {
        FoldPush(Live.FillsOf(init, k), e.fill);
      } else {
        assert Live.FillsOf(events, k) == Live.FillsOf(init, k);
      }
    }
  }

  lemma FoldPush(fills: seq<Fill>, f: Fill)
    requires AllValid(fills) && f.Valid()
    ensures AllValid(fills + [f]) && Fold(FLAT, fills + [f]) == Filled(Fold(FLAT, fills), f) && Fold(FLAT, []) == FLAT
  {
    hide Filled;
    assert (fills + [f])[..|fills|] == fills;
  }

  // The two implementations never disagree: same quantities, averages, realised
  // P&L, lifetime totals and OPEN/CLOSED status after any fills and ticks.
  lemma ImplementationsAgree(events: seq<Live.Event>, product: string, k: Live.Key)
    requires Live.AllEventsValid(events)
    ensures var b, rows := Live.Run(events), RowRun(events, product);
            var row := (k.0, k.1, product);
            && (row in rows <==> k in b.rows)
            && (row in rows ==> rows[row].fig == Live.View(b, k) && rows[row].open == (k in b.cache) == b.rows[k].open)
  {
    hide Filled, Value, Fold;
    Live.BookRefinesFold(events, k);
    RowIsFold(events, product, k);
    RowsExistTogether(events, k);
  }

  lemma {:induction false} RowsExistTogether(events: seq<Live.Event>, k: Live.Key)
    requires Live.AllEventsValid(events)
    ensures k in Live.Run(events).rows <==> |Live.FillsOf(events, k)| > 0
    ensures k in Live.Run(events).cache ==> k in Live.Run(events).rows
  {
    hide Filled, Value;
    if |events| > 0 {
      var init := events[..|events| - 1];
      RowsExistTogether(init, k);
    }
  }

  // ----- Several products ---------------------------------------------------

  // One user's fills of one contract, each with the product it was placed as.
  // The live book folds them all into one position; the table keeps one row
  // per product.
  datatype Labelled = Labelled(product: string, fill: Fill)

  predicate LabelledValid(fills: seq<Labelled>) { forall i :: 0 <= i < |fills| ==> fills[i].fill.Valid() }

  function Unlabelled(fills: seq<Labelled>): (r: seq<Fill>)
    requires LabelledValid(fills)
    ensures |r| == |fills| && AllValid(r)
  {
    seq(|fills|, i requires 0 <= i < |fills| => fills[i].fill)
  }

  function ByProduct(fills: seq<Labelled>): map<string, Figures>
    requires LabelledValid(fills)
  {
    if |fills| == 0 then map[]
    else
      var rows, last := ByProduct(fills[..|fills| - 1]), fills[|fills| - 1];
      rows[last.product := Filled(if last.product in rows then rows[last.product] else FLAT, last.fill)]
  }

  ghost function WorthAt(mark: real): (string, Figures) -> real { (p: string, f: Figures) => TotalPnl(f, mark) }

  ghost function NetOf(): (string, Figures) -> real { (p: string, f: Figures) => f.netqty as real }

  ghost predicate FlatHasNoPrice(p: Figures) { p.netqty == 0 ==> p.netavgprc == 0.0 }

  lemma FillKeepsFlat(p: Figures, f: Fill)
    requires f.Valid() && FlatHasNoPrice(p)
    ensures FlatHasNoPrice(Filled(p, f))
  {
    hide Value, Blend;
  }

  // Whatever products the fills carry, the rows' net quantities add up to the
  // live position's, and so does total P&L at every mark price.
  lemma {:induction false} ProductsAddUp(fills: seq<Labelled>, mark: real)
    requires LabelledValid(fills)
    ensures var rows, live := ByProduct(fills), Fold(FLAT, Unlabelled(fills));
      && MapSum(rows, WorthAt(mark)) == TotalPnl(live, mark)
      && MapSum(rows, NetOf()) == live.netqty as real
      && FlatHasNoPrice(live) && forall p :: p in rows ==> FlatHasNoPrice(rows[p])
  {
    hide Value, Filled, TotalPnl;
    if |fills| == 0 {
      NothingIsWorthNothing(mark);
    } else {
      var init, last := fills[..|fills| - 1], fills[|fills| - 1];
      ProductsAddUp(init, mark);
      var rows, live := ByProduct(init), Fold(FLAT, Unlabelled(init));
      assert Unlabelled(fills)[..|init|] == Unlabelled(init);
      var before := if last.product in rows then rows[last.product] else FLAT;
      MapSumPut(rows, WorthAt(mark), last.product, Filled(before, last.fill));
      MapSumPut(rows, NetOf(), last.product, Filled(before, last.fill));
      NothingIsWorthNothing(mark);
      TotalPnlStep(before, last.fill, mark);
      TotalPnlStep(live, last.fill, mark);
      FilledTotals(before, last.fill);
      FilledTotals(live, last.fill);
      FillKeepsFlat(before, last.fill);
      FillKeepsFlat(live, last.fill);
    }
  }

  lemma NothingIsWorthNothing(mark: real)
    ensures TotalPnl(FLAT, mark) == 0.0 && FlatHasNoPrice(FLAT)
  {}
}
