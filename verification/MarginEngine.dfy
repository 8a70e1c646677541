// service/marginengine/margin_engine.py and the two calculators it prices with:
// the pre-trade check that blocks margin for an order, and the reconciliation
// that every fill runs.
module MarginEngine {
  import opened Positions
  import opened PriceResolver
  import Reals
  import opened Wrappers
  import opened MarginLedger
  import opened Sums

  // The active margin_config row; `expiry` is what _expiry_multiplier makes of
  // it for the contract and the day.
  datatype Config = Config(
    notionalPct: real, spanPct: real, expiry: real, tiers: map<nat, real>,
    itm: real, atm: real, otm: real, band: real)

  // What the engine looks up besides the order or the fill: the cached option
  // chain, the last internal trade and the configuration.
  datatype Quotes = Quotes(chain: Option<Chain>, lastTrade: Option<real>, config: Config)

  // Everything a calculator reads but the side and the quantity.
  datatype Terms = Terms(
    reference: real, pct: real, expiry: real, source: real,
    spot: Option<real>, strike: Option<real>, optionType: string,
    itm: real, atm: real, otm: real)

  function TierMultiplier(config: Config, tier: nat): real
  {
    if tier in config.tiers then config.tiers[tier] else 1.0
  }

  // The MarginContext built around a resolved price.
  function TermsAt(contract: Contract, r: Resolution, config: Config): Terms
  {
    var isOption := contract.OptionContract?;
    Terms(r.price, if contract.FutureContract? then config.spanPct else config.notionalPct, config.expiry,
      TierMultiplier(config, r.tier), r.spot, if isOption then Some(contract.strike) else None,
      if isOption then contract.optionType else "", config.itm, config.atm, config.otm)
  }

  // _build_context: what an order is priced at before the trade.  None: it raises.
  function CheckTerms(contract: Contract, orderPrice: Option<real>, q: Quotes): Option<Terms>
  {
    var r := Resolve(contract, q.chain, q.lastTrade, orderPrice, q.config.band);
    if r.None? then None else Some(TermsAt(contract, r.value, q.config))
  }

  // _build_context_for_reconcile: what a filled position is priced at.  Without a
  // price in the order snapshot the resolver is asked, and told of no order price.
  function FillTerms(contract: Contract, snapshotPrice: Option<real>, q: Quotes): Option<Terms>
  {
    if snapshotPrice.Some? && snapshotPrice.value > 0.0 then
      Some(TermsAt(contract, Resolution(snapshotPrice.value, 1, None), q.config))
    else CheckTerms(contract, None, q)
  }

  // ----- The calculators --------------------------------------------------------------------

  function MoneynessMultiplier(t: Terms): real
  {
    if t.strike.None? then t.atm
    else if t.spot.None? || t.spot.value == 0.0 then t.itm
    else
      var spot, strike := t.spot.value, t.strike.value;
      if Reals.Abs(strike - spot) / spot <= 0.01 then t.atm
      else if (t.optionType == "CE" && spot > strike) || (t.optionType == "PE" && spot < strike) then t.itm
      else t.otm
  }

  // OptionsMarginCalculator.calculate; None: it raises.  The engine always passes
  // a lot size of one and the quantity in units.
  function OptionMargin(side: Side, qty: int, t: Terms): Option<real>
  {
    if side.Buy? || qty <= 0 || t.reference < 0.0 then None
    else if t.spot.None? && t.strike.None? then None
    else
      var lotQty := qty as real;
      var notionalPrice := if t.spot.Some? then t.spot.value else t.strike.value;
      var premium := t.reference * lotQty;
      var notional := t.pct * notionalPrice * lotQty * t.expiry * MoneynessMultiplier(t) * t.source;
      Some(premium + notional)
  }

  // FuturesMarginCalculator.calculate
  function FutureMargin(qty: int, t: Terms): Option<real>
  {
    if qty <= 0 || t.reference <= 0.0 then None
    else
      var lotQty := qty as real;
      Some(t.reference * lotQty * t.pct * t.expiry * t.source)
  }

  // The margin of one unit.
  function OptionRate(t: Terms): real
  {
    var notionalPrice := if t.spot.Some? then t.spot.value else if t.strike.Some? then t.strike.value else 0.0;
    t.reference + t.pct * notionalPrice * t.expiry * MoneynessMultiplier(t) * t.source
  }

  function FutureRate(t: Terms): real { t.reference * t.pct * t.expiry * t.source }

  // Whether these terms can be priced at all does not depend on the quantity.
  predicate Priceable(contract: Contract, t: Terms)
  {
    if contract.FutureContract? then t.reference > 0.0 else t.reference >= 0.0 && (t.spot.Some? || t.strike.Some?)
  }

  function Rate(contract: Contract, t: Terms): real
  {
    if contract.FutureContract? then FutureRate(t) else OptionRate(t)
  }

  lemma Rotate(n: real, a: real, b: real, c: real, d: real, e: real)
    ensures a * b * n * c * d * e == n * (a * b * c * d * e)
    ensures a * n * b * c * d == n * (a * b * c * d)
  {
    assert a * b * n == n * (a * b);
    assert n * (a * b) * c == n * (a * b * c);
    assert n * (a * b * c) * d == n * (a * b * c * d);
    assert n * (a * b * c * d) * e == n * (a * b * c * d * e);
    assert a * n == n * a;
    assert n * a * b == n * (a * b);
  }

  // Margin is proportional to quantity: pricing an order whole or in slices
  // blocks the same.
  lemma MarginIsLinear(contract: Contract, side: Side, qty: int, t: Terms)
    requires qty > 0
    ensures contract.FutureContract? ==>
      FutureMargin(qty, t) == if Priceable(contract, t) then Some(Value(qty, Rate(contract, t))) else None
    ensures !contract.FutureContract? && side.Sell? ==>
      OptionMargin(side, qty, t) == if Priceable(contract, t) then Some(Value(qty, Rate(contract, t))) else None
  {
    hide MoneynessMultiplier;
    if contract.FutureContract? && t.reference > 0.0 { FutureIsLinear(qty, t); }
    if !contract.FutureContract? && side.Sell? && Priceable(contract, t) { OptionIsLinear(qty, t); }
  }

  lemma FutureIsLinear(qty: int, t: Terms)
    requires qty > 0 && t.reference > 0.0
    ensures FutureMargin(qty, t) == Some(Value(qty, FutureRate(t)))
  {
    var n := qty as real;
    Rotate(n, t.reference, t.pct, t.expiry, t.source, 1.0);
    assert FutureMargin(qty, t).value == t.reference * n * t.pct * t.expiry * t.source;
    assert Value(qty, FutureRate(t)) == n * (t.reference * t.pct * t.expiry * t.source);
  }

  lemma OptionIsLinear(qty: int, t: Terms)
    requires qty > 0 && t.reference >= 0.0 && (t.spot.Some? || t.strike.Some?)
    ensures OptionMargin(Sell, qty, t) == Some(Value(qty, OptionRate(t)))
  {
    hide MoneynessMultiplier;
    var n := qty as real;
    var price := if t.spot.Some? then t.spot.value else t.strike.value;
    var m := MoneynessMultiplier(t);
    var rest := t.pct * price * t.expiry * m * t.source;
    Rotate(n, t.pct, price, t.expiry, m, t.source);
    Distribute(n, t.reference, rest);
    assert OptionMargin(Sell, qty, t).Some?;
    assert OptionMargin(Sell, qty, t).value == t.reference * n + t.pct * price * n * t.expiry * m * t.source;
    assert OptionRate(t) == t.reference + rest;
    assert Value(qty, OptionRate(t)) == n * (t.reference + rest);
    assert OptionMargin(Sell, qty, t).value == Value(qty, OptionRate(t));
  }

  lemma Distribute(n: real, a: real, b: real)
    ensures a * n + n * b == n * (a + b)
  {}

  // An option whose spot is unknown is margined as in the money: at least what
  // any known spot would give, when that bucket is the dearest.
  lemma UnknownSpotIsConservative(t: Terms, spot: real)
    requires t.strike.Some? && t.itm >= t.atm && t.itm >= t.otm
    ensures MoneynessMultiplier(t.(spot := None)) >= MoneynessMultiplier(t.(spot := Some(spot)))
  {}

  // ----- Opening and closing ------------------------------------------------------------------

  predicate IsMarginRequired(fo: bool, side: Side, contract: Contract)
  {
    !contract.Unrecognized? && fo && (contract.FutureContract? || side.Sell?)
  }

  // _split_closing_opening
  function SplitClosingOpening(side: Side, qty: int, netqty: int): (int, int)
  {
    if side.Buy? && netqty < 0 then (Min(qty, -netqty), qty - Min(qty, -netqty))
    else if side.Sell? && netqty > 0 then (Min(qty, netqty), qty - Min(qty, netqty))
    else (0, qty)
  }

  // The split is what the fill then does to the position: it closes exactly
  // the quantity whose profit the position books, and the rest is what the
  // exposure grows by.
  lemma SplitIsWhatTheFillCloses(side: Side, qty: int, price: real, p: Figures)
    requires Fill(side, qty, price).Valid()
    ensures var (closing, opening) := SplitClosingOpening(side, qty, p.netqty);
            var after := Filled(p, Fill(side, qty, price)).netqty;
      && closing == ClosingQty(p.netqty, Fill(side, qty, price))
      && opening - closing == Abs(after) - Abs(p.netqty)
      && closing + opening == qty && closing >= 0 && opening >= 0
  {
    hide Value, Blend;
  }

  // The margin a position needs: reconcile_on_fill's case split.  None: raises.
  function RequiredMargin(contract: Contract, netqty: int, terms: Option<Terms>): Option<real>
  {
    if netqty == 0 then Some(0.0)
    else if contract.FutureContract? then
      if terms.None? then None else FutureMargin(Abs(netqty), terms.value)
    else if netqty < 0 || contract.Unrecognized? then
      if terms.None? then None else OptionMargin(Sell, Abs(netqty), terms.value)
    else Some(0.0)
  }

  // What the pre-trade check blocks for an order.  None: raises.
  function BlockedMargin(fo: bool, contract: Contract, side: Side, qty: int, netqty: int,
      terms: Option<Terms>): Option<real>
  {
    var opening := SplitClosingOpening(side, qty, netqty).1;
    if !IsMarginRequired(fo, side, contract) || opening <= 0 then Some(0.0)
    else if terms.None? then None
    else if contract.FutureContract? then FutureMargin(opening, terms.value)
    else OptionMargin(side, opening, terms.value)
  }

  // What a fill frees of the margin the position held: that of the closed
  // quantity, if the side it was held on is margined.
  function FreedMargin(contract: Contract, side: Side, qty: int, netqty: int, t: Terms): real
  {
    if contract.FutureContract? || side.Buy? then Value(SplitClosingOpening(side, qty, netqty).0, Rate(contract, t))
    else 0.0
  }

  // At one price, the margin a position holds and the block for the opening
  // part of an order together cover the filled position, with exactly the
  // margin of the closed part to spare.
  lemma PreTradeCoversFill(contract: Contract, side: Side, qty: int, netqty: int, t: Terms)
    requires qty > 0 && !contract.Unrecognized? && Priceable(contract, t)
    ensures var after := if side.Buy? then netqty + qty else netqty - qty;
            var (held, block, needed) := (RequiredMargin(contract, netqty, Some(t)),
                                          BlockedMargin(true, contract, side, qty, netqty, Some(t)),
                                          RequiredMargin(contract, after, Some(t)));
      && held.Some? && block.Some? && needed.Some?
      && held.value + block.value == needed.value + FreedMargin(contract, side, qty, netqty, t)
  {
    hide Value, Rate, Priceable, OptionMargin, FutureMargin;
    var after := if side.Buy? then netqty + qty else netqty - qty;
    var (closing, opening) := SplitClosingOpening(side, qty, netqty);
    var r := Rate(contract, t);
    if netqty != 0 { MarginIsLinear(contract, Sell, Abs(netqty), t); }
    if opening > 0 { MarginIsLinear(contract, side, opening, t); }
    if after != 0 { MarginIsLinear(contract, Sell, Abs(after), t); }
    ValueSum(Abs(netqty), opening, r);
    ValueSum(Abs(after), closing, r);
    ValueSum(0, 0, r);
  }

  // So the cover is exact when nothing is closed, and never short when the
  // margin of a unit is not negative.
  lemma CoverIsTight(contract: Contract, side: Side, qty: int, netqty: int, t: Terms)
    requires qty > 0 && Rate(contract, t) >= 0.0
    ensures FreedMargin(contract, side, qty, netqty, t) >= 0.0
    ensures SplitClosingOpening(side, qty, netqty).0 == 0 ==> FreedMargin(contract, side, qty, netqty, t) == 0.0
  {
    hide Rate;
  }

  // ----- Which fills can be margined ----------------------------------------------------------------

  // Whether a fill that leaves the position open has a price to margin it at:
  // one in its order's snapshot, or, for an option, the leg of a cached chain.
  predicate Priced(contract: Contract, snapshotPrice: Option<real>, q: Quotes)
  {
    if snapshotPrice.Some? && snapshotPrice.value > 0.0 then !contract.Unrecognized?
    else CachedLeg(contract, q.chain).Some? && CachedLeg(contract, q.chain).value >= 0.0
  }

  // The margin a fill calls for is known exactly when it leaves the position flat
  // or a long option, which need none, or when the fill is priced.  The order
  // snapshot carries no price, so that of a future is known only once the position
  // is flat; and so is that of an F&O symbol neither master recognises, whatever
  // the snapshot: the option formula it defaults to needs a strike or a spot.
  lemma ReconciledIff(contract: Contract, netqty: int, snapshotPrice: Option<real>, q: Quotes)
    ensures RequiredMargin(contract, netqty, FillTerms(contract, snapshotPrice, q)).Some?
      <==> netqty == 0 || (contract.OptionContract? && netqty > 0) || Priced(contract, snapshotPrice, q)
    ensures contract.Unrecognized? ==> !Priced(contract, snapshotPrice, q)
    ensures contract.FutureContract? ==>
      (Priced(contract, snapshotPrice, q) <==> snapshotPrice.Some? && snapshotPrice.value > 0.0)
  {
    hide MoneynessMultiplier, FirstAt, LegPrice, TierMultiplier;
    if netqty != 0 {
      var terms := FillTerms(contract, snapshotPrice, q);
      if terms.Some? { MarginIsLinear(contract, Sell, Abs(netqty), terms.value); }
    }
  }

  lemma UnpricedNeedsNone(contract: Contract, netqty: int, snapshotPrice: Option<real>, q: Quotes)
    requires !Priced(contract, snapshotPrice, q)
    ensures var required := RequiredMargin(contract, netqty, FillTerms(contract, snapshotPrice, q));
      required.None? || required == Some(0.0)
  {
    hide FillTerms, Priced;
    ReconciledIff(contract, netqty, snapshotPrice, q);
  }

  // ----- The engine over the ledger ---------------------------------------------------------------

  datatype Decision = Approved(required: real) | Insufficient(shortfall: real) | Raised

  function CheckStep(l: Ledger, user: int, order: int, fo: bool, contract: Contract, side: Side, qty: int,
                     netqty: int, terms: Option<Terms>): (Decision, Ledger)
  {
    var opening := SplitClosingOpening(side, qty, netqty).1;
    var amount := BlockedMargin(fo, contract, side, qty, netqty, terms);
    if !IsMarginRequired(fo, side, contract) || opening <= 0 then (Approved(0.0), l)
    else if amount.None? || user !in l.wallets then (Raised, l)
    else
      var available := l.wallets[user].balance - l.wallets[user].blocked;
      if available < amount.value then (Insufficient(amount.value - available), l)
      else
        var blocked := BlockStep(l, user, order, amount.value);
        if blocked.None? then (Raised, l) else (Approved(amount.value), blocked.value)
  }

  // What the caller's cursor makes of a row: the ledger's helpers read rows by
  // position, and raise on rows keyed by column name.
  datatype Cursor = Positional | Keyed

  // The fill itself first: PositionService gives an opened position its row
  // before margin is reconciled.
  function WithRow(l: Ledger, k: PositionKey): Ledger
  {
    if k in l.positions then l else l.(positions := l.positions[k := 0.0])
  }

  // The position now has a row, so under a keyed cursor reading it raises, if
  // reading the order's block has not; nothing is written.
  function FillStep(l: Ledger, user: int, tsym: string, fo: bool, orderId: Option<int>, contract: Contract,
                    netqty: int, terms: Option<Terms>, cursor: Cursor): Ledger
  {
    if !fo then l
    else
      var seated := WithRow(l, PositionKey(user, tsym));
      if cursor.Keyed? then seated else
      var released := if orderId.Some? then ReleaseStep(seated, orderId.value) else seated;
      var required := RequiredMargin(contract, netqty, terms);
      if required.None? then released else ReconcileStep(released, user, tsym, required.value).0
  }

  datatype Action =
    | Check(user: int, order: int, fo: bool, contract: Contract, side: Side, qty: int, netqty: int,
        price: Option<real>, quotes: Quotes)
    | Cancel(order: int)
    | FillOf(user: int, tsym: string, fo: bool, orderId: Option<int>, contract: Contract,
        netqty: int, snapshotPrice: Option<real>, quotes: Quotes, cursor: Cursor)

  function Apply(l: Ledger, a: Action): Ledger
  {
    match a
    case Check(user, order, fo, contract, side, qty, netqty, price, q) =>
      CheckStep(l, user, order, fo, contract, side, qty, netqty, CheckTerms(contract, price, q)).1
    case Cancel(order) => ReleaseStep(l, order)
    case FillOf(user, tsym, fo, orderId, contract, netqty, price, q, cursor) =>
      FillStep(l, user, tsym, fo, orderId, contract, netqty, FillTerms(contract, price, q), cursor)
  }

  function Run(l: Ledger, actions: seq<Action>): Ledger
  {
    if |actions| == 0 then l else Apply(Run(l, actions[..|actions| - 1]), actions[|actions| - 1])
  }

  lemma SeatKeepsSound(l: Ledger, k: PositionKey)
    requires Sound(l)
    ensures Sound(WithRow(l, k))
    ensures forall opening :: Explained(l, opening) ==> Explained(WithRow(l, k), opening)
  {
    if k !in l.positions {
      forall u | u in l.wallets ensures Agrees(WithRow(l, k), u) {
        assert Agrees(l, u);
        Sums.MapSumPut(l.positions, ReservedBy(u), k, 0.0);
      }
    }
  }

  lemma FillKeepsSound(l: Ledger, opening: map<int, real>, user: int, tsym: string, fo: bool, orderId: Option<int>,
                       contract: Contract, netqty: int, terms: Option<Terms>, cursor: Cursor)
    requires Sound(l) && Explained(l, opening)
    ensures Sound(FillStep(l, user, tsym, fo, orderId, contract, netqty, terms, cursor))
    ensures Explained(FillStep(l, user, tsym, fo, orderId, contract, netqty, terms, cursor), opening)
  {
    hide Sound, Explained, RequiredMargin;
    if fo {
      var k := PositionKey(user, tsym);
      SeatKeepsSound(l, k);
      var seated := WithRow(l, k);
      var released := if orderId.Some? then ReleaseStep(seated, orderId.value) else seated;
      if orderId.Some? {
        ReleaseKeepsSound(seated, orderId.value);
        StepsAreExplained(seated, opening, user, tsym, orderId.value, 0.0);
        ReleaseKeepsRows(seated, orderId.value);
      }
      var required := RequiredMargin(contract, netqty, terms);
      if required.Some? {
        StepsAreExplained(released, opening, user, tsym, 0, required.value);
        if user in released.wallets && required.value >= 0.0 {
          ReconcileAgreesIff(released, user, tsym, required.value);
        } else {
          ReconcileRaisesKeepsSound(released, user, tsym, required.value);
        }
      }
    }
  }

  lemma ReleaseKeepsRows(l: Ledger, order: int)
    ensures ReleaseStep(l, order).positions == l.positions
  {}

  // In every reachable state each wallet's blocked margin is the sum of its
  // active order blocks and position margins, and is what the audit trail adds
  // up to.
  lemma {:induction false} TablesAlwaysAgree(l: Ledger, opening: map<int, real>, actions: seq<Action>)
    requires Sound(l) && Explained(l, opening)
    ensures Sound(Run(l, actions)) && Explained(Run(l, actions), opening)
  {
    hide Sound, Explained, FillStep, BlockedMargin, CheckTerms, FillTerms;
    if |actions| > 0 {
      var before, a := Run(l, actions[..|actions| - 1]), actions[|actions| - 1];
      TablesAlwaysAgree(l, opening, actions[..|actions| - 1]);
      match a {
        case Check(user, order, fo, contract, side, qty, netqty, price, q) =>
          var amount := BlockedMargin(fo, contract, side, qty, netqty, CheckTerms(contract, price, q));
          if amount.Some? && BlockStep(before, user, order, amount.value).Some? {
            BlockKeepsSound(before, user, order, amount.value);
            StepsAreExplained(before, opening, user, "", order, amount.value);
          }
        case Cancel(order) =>
          ReleaseKeepsSound(before, order);
          StepsAreExplained(before, opening, 0, "", order, 0.0);
        case FillOf(user, tsym, fo, orderId, contract, netqty, price, q, cursor) =>
          var terms := FillTerms(contract, price, q);
          FillKeepsSound(before, opening, user, tsym, fo, orderId, contract, netqty, terms, cursor);
      }
    }
  }

  // ----- The order's block after its fills ------------------------------------------------------------

  // A fill releases the block of the order its snapshot names, under a cursor
  // the ledger can read.  The snapshot query returns no id, and the execution
  // engine's cursor is keyed.
  lemma FillWithoutIdKeepsBlocks(l: Ledger, user: int, tsym: string, fo: bool, orderId: Option<int>,
                                 contract: Contract, netqty: int,
                                 terms: Option<Terms>, cursor: Cursor)
    requires orderId.None? || cursor.Keyed?
    ensures FillStep(l, user, tsym, fo, orderId, contract, netqty, terms, cursor).blocks == l.blocks
  {
    hide RequiredMargin;
  }

  // Then the block stays, whatever fills and other orders do, until the order
  // is cancelled, which an executed order cannot be.
  lemma {:induction false} BlockOutlivesFills(l: Ledger, order: int, actions: seq<Action>)
    requires FindActive(l.blocks, order).Some?
    requires forall a :: a in actions ==>
      (a.FillOf? ==> a.orderId.None? || a.cursor.Keyed?) && (a.Cancel? ==> a.order != order)
    ensures FindActive(Run(l, actions).blocks, order).Some?
  {
    hide FindActive, Apply;
    if |actions| > 0 {
      var a := actions[|actions| - 1];
      assert a in actions;
      BlockOutlivesFills(l, order, actions[..|actions| - 1]);
      BlockOutlivesStep(Run(l, actions[..|actions| - 1]), order, a);
    }
  }

  lemma BlockOutlivesStep(l: Ledger, order: int, a: Action)
    requires FindActive(l.blocks, order).Some?
    requires (a.FillOf? ==> a.orderId.None? || a.cursor.Keyed?) && (a.Cancel? ==> a.order != order)
    ensures FindActive(Apply(l, a).blocks, order).Some?
  {
    hide RequiredMargin, BlockedMargin, CheckTerms, FillTerms;
    var i := FindActive(l.blocks, order).value;
    var l' := Apply(l, a);
    assert |l'.blocks| >= |l.blocks| && l'.blocks[i].active && l'.blocks[i].order == order;
  }

  // ----- What a position's margin is -----------------------------------------------------------------

  // The margin of a position after a fill that asks for `required`: it is
  // replaced where the fill is reconciled, and stays what it was otherwise.
  function MarginAfter(required: Option<real>, cursor: Cursor, before: real): real
  {
    if cursor.Positional? && required.Some? && required.value >= 0.0 then required.value else before
  }

  predicate FillsAt(a: Action, k: PositionKey)
  {
    a.FillOf? && a.fo && PositionKey(a.user, a.tsym) == k
  }

  function Required(a: Action): Option<real>
    requires a.FillOf?
  {
    RequiredMargin(a.contract, a.netqty, FillTerms(a.contract, a.snapshotPrice, a.quotes))
  }

  // The margin asked for by the position's last fill that was reconciled.
  function LastRequired(k: PositionKey, actions: seq<Action>, before: real): real
  {
    if |actions| == 0 then before
    else
      var a := actions[|actions| - 1];
      var earlier := LastRequired(k, actions[..|actions| - 1], before);
      if FillsAt(a, k) then MarginAfter(Required(a), a.cursor, earlier) else earlier
  }

  lemma OneFillRequires(l: Ledger, k: PositionKey, a: Action)
    ensures PositionBlocked(Apply(l, a), k)
      == if FillsAt(a, k) then MarginAfter(Required(a), a.cursor, PositionBlocked(l, k)) else PositionBlocked(l, k)
  {
    hide RequiredMargin, BlockedMargin, CheckTerms, FillTerms, FindActive, ReleaseStep;
    match a {
      case Check(_, _, _, _, _, _, _, _, _) =>
      case Cancel(order) => ReleaseKeepsRows(l, order);
      case FillOf(user, tsym, _, orderId, _, _, _, _, _) =>
        if orderId.Some? { ReleaseKeepsRows(WithRow(l, PositionKey(user, tsym)), orderId.value); }
    }
  }

  // A position never holds a sum of margins: after any run it holds what its
  // last reconciled fill needed, whatever checks, cancels and other fills there were.
  lemma {:induction false} PositionHoldsLastRequired(l: Ledger, k: PositionKey, actions: seq<Action>)
    ensures PositionBlocked(Run(l, actions), k) == LastRequired(k, actions, PositionBlocked(l, k))
  {
    hide Apply, Required, MarginAfter, FillsAt, PositionBlocked;
    if |actions| > 0 {
      PositionHoldsLastRequired(l, k, actions[..|actions| - 1]);
      OneFillRequires(Run(l, actions[..|actions| - 1]), k, actions[|actions| - 1]);
    }
  }

  // So a position no fill of which has a price, as with every fill of an
  // unrecognised symbol, is never margined, at any size and on either side.
  lemma {:induction false} UnpricedIsNeverMargined(l: Ledger, k: PositionKey, actions: seq<Action>)
    requires PositionBlocked(l, k) == 0.0
    requires forall a :: a in actions && FillsAt(a, k) ==> !Priced(a.contract, a.snapshotPrice, a.quotes)
    ensures PositionBlocked(Run(l, actions), k) == 0.0
  {
    hide Run;
    PositionHoldsLastRequired(l, k, actions);
    UnpricedRequiresNone(k, actions);
  }

  lemma {:induction false} UnpricedRequiresNone(k: PositionKey, actions: seq<Action>)
    requires forall a :: a in actions && FillsAt(a, k) ==> !Priced(a.contract, a.snapshotPrice, a.quotes)
    ensures LastRequired(k, actions, 0.0) == 0.0
  {
    hide Priced, RequiredMargin, FillTerms;
    if |actions| > 0 {
      var a := actions[|actions| - 1];
      if FillsAt(a, k) {
        UnpricedNeedsNone(a.contract, a.netqty, a.snapshotPrice, a.quotes);
      }
      UnpricedRequiresNone(k, actions[..|actions| - 1]);
    }
  }

  // Where that goes for every fill of a user, the wallet is blocked for the
  // orders whose blocks are still active and for nothing else.
  lemma OnlyOrdersHoldMargin(l: Ledger, opening: map<int, real>, user: int, actions: seq<Action>)
    requires Sound(l) && Explained(l, opening) && user in l.wallets
    requires forall k :: k in l.positions && k.user == user ==> l.positions[k] == 0.0
    requires forall a ::
      a in actions && a.FillOf? && a.fo && a.user == user ==> !Priced(a.contract, a.snapshotPrice, a.quotes)
    ensures user in Run(l, actions).wallets
    ensures Run(l, actions).wallets[user].blocked == SeqSum(Run(l, actions).blocks, HeldBy(user))
  {
    hide Run, Priced, WellFormed;
    var end := Run(l, actions);
    TablesAlwaysAgree(l, opening, actions);
    WalletsStay(l, user, actions);
    forall k | k in end.positions && k.user == user ensures end.positions[k] == 0.0 {
      UnpricedIsNeverMargined(l, k, actions);
    }
    MapSumZero(end.positions, ReservedBy(user));
    assert Agrees(end, user);
  }

  lemma {:induction false} WalletsStay(l: Ledger, user: int, actions: seq<Action>)
    requires user in l.wallets
    ensures user in Run(l, actions).wallets
  {
    if |actions| > 0 {
      WalletsStay(l, user, actions[..|actions| - 1]);
      WalletStays(Run(l, actions[..|actions| - 1]), user, actions[|actions| - 1]);
    }
  }

  lemma WalletStays(l: Ledger, user: int, a: Action)
    requires user in l.wallets
    ensures user in Apply(l, a).wallets
  {
    hide RequiredMargin, BlockedMargin, CheckTerms, FillTerms, FindActive;
  }

  // ----- An order and its fill ------------------------------------------------------------------------

  function BlockedOf(l: Ledger, user: int): real { if user in l.wallets then l.wallets[user].blocked else 0.0 }

  // An order checked and then filled whole.  The block is given back exactly
  // where the snapshot names the order and the ledger can read its rows.  The
  // position's own margin moves exactly where the fill is reconciled, which
  // ReconciledIff decides; otherwise it stays what it was, so that a short
  // option or a future may end up with its block gone and nothing in its place.
  lemma BlockedAfterFill(l: Ledger, user: int, order: int, tsym: string, contract: Contract,
                         side: Side, qty: int, netqty: int, price: Option<real>, atCheck: Quotes,
                         snapshotId: Option<int>, snapshotPrice: Option<real>, atFill: Quotes, cursor: Cursor)
    requires Sound(l) && user in l.wallets && FindActive(l.blocks, order).None?
    requires snapshotId == None || snapshotId == Some(order)
    requires var terms := CheckTerms(contract, price, atCheck);
      CheckStep(l, user, order, true, contract, side, qty, netqty, terms).0.Approved?
    ensures var (decision, checked) :=
              CheckStep(l, user, order, true, contract, side, qty, netqty, CheckTerms(contract, price, atCheck));
            var after := if side.Buy? then netqty + qty else netqty - qty;
            var terms := FillTerms(contract, snapshotPrice, atFill);
            var filled := FillStep(checked, user, tsym, true, snapshotId, contract, after, terms, cursor);
            var held := PositionBlocked(l, PositionKey(user, tsym));
            var margin := MarginAfter(RequiredMargin(contract, after, terms), cursor, held);
      && BlockedOf(filled, user) == BlockedOf(l, user) + (margin - held)
           + (if snapshotId.Some? && cursor.Positional? then 0.0 else decision.required)
      && PositionBlocked(filled, PositionKey(user, tsym)) == margin
  {
    hide Sound, RequiredMargin, BlockedMargin, FindActive, CheckStep, ReleaseStep, ReconcileStep, CheckTerms, FillTerms;
    var atOrder := CheckTerms(contract, price, atCheck);
    CheckBlocks(l, user, order, contract, side, qty, netqty, atOrder);
    var checked := CheckStep(l, user, order, true, contract, side, qty, netqty, atOrder).1;
    var k := PositionKey(user, tsym);
    var after := if side.Buy? then netqty + qty else netqty - qty;
    SeatKeepsSound(checked, k);
    var seated := WithRow(checked, k);
    var released := if snapshotId.Some? then ReleaseStep(seated, order) else seated;
    if snapshotId.Some? {
      ReleaseKeepsSound(seated, order);
      ReleaseKeepsRows(seated, order);
      ReleaseClamped(seated, order);
    }
    var required := RequiredMargin(contract, after, FillTerms(contract, snapshotPrice, atFill));
    if required.Some? { ReconciledWallet(released, user, tsym, required.value); }
  }

  lemma ReconciledWallet(l: Ledger, user: int, tsym: string, required: real)
    requires Sound(l) && user in l.wallets && PositionKey(user, tsym) in l.positions
    ensures var l' := ReconcileStep(l, user, tsym, required).0;
            var k := PositionKey(user, tsym);
            var margin := MarginAfter(Some(required), Positional, PositionBlocked(l, k));
      && BlockedOf(l', user) == BlockedOf(l, user) + (margin - PositionBlocked(l, k))
      && PositionBlocked(l', k) == margin
  {
    hide Sound;
    if required >= 0.0 { ReconcileClampInert(l, user, tsym, required); }
  }

  lemma ReleaseClamped(l: Ledger, order: int)
    requires Sound(l)
    ensures var found := FindActive(l.blocks, order);
      found.Some? ==>
        var b := l.blocks[found.value];
        && b.user in l.wallets
        && ReleaseStep(l, order).wallets
          == l.wallets[b.user := l.wallets[b.user].(blocked := l.wallets[b.user].blocked - b.amount)]
    ensures FindActive(l.blocks, order).None? ==> ReleaseStep(l, order) == l
  {
    hide Sound;
    if FindActive(l.blocks, order).Some? { ReleaseClampInert(l, order); }
  }

  // An approved check has blocked exactly what it says.
  lemma CheckBlocks(l: Ledger, user: int, order: int, contract: Contract, side: Side, qty: int, netqty: int,
                    terms: Option<Terms>)
    requires Sound(l) && user in l.wallets && FindActive(l.blocks, order).None?
    requires CheckStep(l, user, order, true, contract, side, qty, netqty, terms).0.Approved?
    ensures var (decision, checked) := CheckStep(l, user, order, true, contract, side, qty, netqty, terms);
      && Sound(checked) && checked.positions == l.positions
      && user in checked.wallets && checked.wallets[user].blocked == l.wallets[user].blocked + decision.required
      && BlockedMargin(true, contract, side, qty, netqty, terms) == Some(decision.required)
      && (FindActive(checked.blocks, order).Some? ==>
            var b := checked.blocks[FindActive(checked.blocks, order).value];
            b.user == user && b.amount == decision.required)
      && (FindActive(checked.blocks, order).None? ==> decision.required == 0.0)
  {
    hide Sound;
    var (decision, checked) := CheckStep(l, user, order, true, contract, side, qty, netqty, terms);
    if checked != l {
      BlockKeepsSound(l, user, order, decision.required);
      assert checked.blocks[..|l.blocks|] == l.blocks;
    }
  }

  // A check is approved exactly when the balance less what is already blocked
  // covers the opening part; what it then leaves blocked is within the balance,
  // and what it refuses falls short by exactly the amount reported.
  lemma CheckDecides(l: Ledger, user: int, order: int, contract: Contract, side: Side, qty: int, netqty: int, t: Terms)
    requires user in l.wallets && FindActive(l.blocks, order).None? && IsMarginRequired(true, side, contract)
    requires SplitClosingOpening(side, qty, netqty).1 > 0 && Priceable(contract, t) && Rate(contract, t) >= 0.0
    ensures var (decision, checked) := CheckStep(l, user, order, true, contract, side, qty, netqty, Some(t));
            var amount := Value(SplitClosingOpening(side, qty, netqty).1, Rate(contract, t));
            var wallet := l.wallets[user];
      && (wallet.blocked + amount <= wallet.balance ==>
            && decision == Approved(amount) && user in checked.wallets
            && checked.wallets[user] == wallet.(blocked := wallet.blocked + amount)
            && checked.wallets[user].blocked <= checked.wallets[user].balance)
      && (wallet.blocked + amount > wallet.balance ==>
            decision == Insufficient(wallet.blocked + amount - wallet.balance) && checked == l)
  {
    hide Rate, Priceable, OptionMargin, FutureMargin, FindActive, SplitClosingOpening;
    MarginIsLinear(contract, side, SplitClosingOpening(side, qty, netqty).1, t);
  }

  // ----- The facade -------------------------------------------------------------------------------------

  class Engine {
    const ledger: PostgresMarginLedgerRepository

    constructor (ledger: PostgresMarginLedgerRepository)
      ensures this.ledger == ledger
    {
      this.ledger := ledger;
    }

    method BuildContext(contract: Contract, orderPrice: Option<real>, q: Quotes) returns (terms: Option<Terms>)
      ensures terms == CheckTerms(contract, orderPrice, q)
    {
      var r := ResolvePrice(contract, q.chain, q.lastTrade, orderPrice, q.config.band);
      return if r.Some? then Some(TermsAt(contract, r.value, q.config)) else None;
    }

    method BuildContextForReconcile(contract: Contract, snapshotPrice: Option<real>, q: Quotes)
      returns (terms: Option<Terms>)
      ensures terms == FillTerms(contract, snapshotPrice, q)
    {
      var fillPrice := if snapshotPrice.Some? then snapshotPrice.value else 0.0;
      if fillPrice <= 0.0 {
        terms := BuildContext(contract, None, q);
      } else {
        terms := Some(TermsAt(contract, Resolution(fillPrice, 1, None), q.config));
      }
    }

    // `netqty`: what the position reader returns under the position lock.
    method CheckAndBlock(user: int, order: int, fo: bool, contract: Contract, side: Side, qty: int, netqty: int,
                         price: Option<real>, q: Quotes)
      returns (decision: Decision)
      modifies ledger
      ensures (decision, ledger.Now())
        == CheckStep(old(ledger.Now()), user, order, fo, contract, side, qty, netqty, CheckTerms(contract, price, q))
    {
      hide OptionMargin, FutureMargin, FindActive, CheckTerms;
      if !IsMarginRequired(fo, side, contract) { return Approved(0.0); }
      var (closing, opening) := SplitClosingOpening(side, qty, netqty);
      if opening <= 0 { return Approved(0.0); }
      var terms := BuildContext(contract, price, q);
      if terms.None? { return Raised; }
      var margin := if contract.FutureContract? then FutureMargin(opening, terms.value)
        else OptionMargin(side, opening, terms.value);
      if margin.None? || user !in ledger.wallets { return Raised; }
      var wallet := ledger.wallets[user];
      var available := wallet.balance - wallet.blocked;
      if available < margin.value { return Insufficient(margin.value - available); }
      var ok := ledger.BlockOrderMargin(user, order, margin.value);
      return if ok then Approved(margin.value) else Raised;
    }

    method ReleaseOnCancel(order: int)
      modifies ledger
      ensures ledger.Now() == ReleaseStep(old(ledger.Now()), order)
    {
      ledger.ReleaseOrderMargin(order);
    }

    // Called under the position lock once the fill has given the position its
    // row; a failure is logged by the caller, not undone.
    method ReconcileOnFill(user: int, tsym: string, fo: bool, orderId: Option<int>, contract: Contract, netqty: int,
                           snapshotPrice: Option<real>, q: Quotes, cursor: Cursor)
      requires fo ==> PositionKey(user, tsym) in ledger.positions
      modifies ledger
      ensures ledger.Now()
        == FillStep(old(ledger.Now()), user, tsym, fo, orderId, contract, netqty, FillTerms(contract, snapshotPrice, q),
                    cursor)
    {
      hide OptionMargin, FutureMargin, FindActive, FillTerms;
      if !fo { return; }
      if orderId.Some? {
        // reading an active block raises under a keyed cursor; without one there is nothing to release
        if cursor.Keyed? { return; }
        ledger.ReleaseOrderMargin(orderId.value);
      }
      var required: Option<real> := Some(0.0);
      if netqty == 0 {
      } else if contract.FutureContract? {
        var terms := BuildContextForReconcile(contract, snapshotPrice, q);
        required := if terms.None? then None else FutureMargin(Abs(netqty), terms.value);
      } else if netqty < 0 || contract.Unrecognized? {
        var terms := BuildContextForReconcile(contract, snapshotPrice, q);
        required := if terms.None? then None else OptionMargin(Sell, Abs(netqty), terms.value);
      }
      if required.Some? && cursor.Positional? {
        var _ := ledger.ReconcilePositionMargin(user, tsym, required.value);
      }
    }
  }
}
