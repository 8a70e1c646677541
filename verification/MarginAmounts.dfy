// The amounts the margin engine blocks for an order and holds for a position,
// straight from the configuration, the prices and the quantities.
module MarginAmounts {
  import opened Positions
  import opened PriceResolver
  import Reals
  import opened Wrappers
  import opened MarginLedger
  import opened MarginEngine

  // The configured multiplier of a price tier, one if there is none.
  ghost function Tier(config: Config, tier: nat): real { if tier in config.tiers then config.tiers[tier] else 1.0 }

  // A future: its price at the SPAN percentage, either way.
  ghost function PerFuture(price: real, tier: nat, c: Config): real
  {
    price * c.spanPct * c.expiry * Tier(c, tier)
  }

  // A written option: its premium, and the notional percentage of the spot
  // price, or of the strike where no spot is known, by moneyness.
  ghost function PerOption(price: real, tier: nat, spot: Option<real>, option: Contract, c: Config): real
    requires option.OptionContract?
  {
    var base := if spot.Some? then spot.value else option.strike;
    price + c.notionalPct * base * c.expiry * Moneyness(spot, option, c) * Tier(c, tier)
  }

  // At the money within one per cent of the spot; in the money when exercising
  // pays, or when the spot is not known.
  ghost function Moneyness(spot: Option<real>, option: Contract, c: Config): real
    requires option.OptionContract?
  {
    if spot.None? || spot.value == 0.0 then c.itm
    else
      var s, k := spot.value, option.strike;
      if s < 0.0 || 0.99 * s <= k <= 1.01 * s then c.atm
      else if option.optionType == "CE" && k < s then c.itm
      else if option.optionType == "PE" && k > s then c.itm
      else c.otm
  }

  // What an order adds to the exposure: all of it on the position's own side,
  // on the other side what it goes beyond flat.
  ghost function Opens(side: Side, qty: int, netqty: int): int
  {
    if side.Buy? then (if netqty >= 0 then qty else if qty + netqty > 0 then qty + netqty else 0)
    else (if netqty <= 0 then qty else if qty - netqty > 0 then qty - netqty else 0)
  }

  // ----- Before the trade ---------------------------------------------------------------

  // The order gets exactly this block if it is covered, and is refused with
  // nothing written if it is not.  None: no price, or none that can be margined.
  ghost predicate Blocks(l: Ledger, l': Ledger, user: int, order: int, amount: Option<real>)
    requires user in l.wallets
  {
    var w := l.wallets[user];
    if amount.Some? && 0.0 <= amount.value <= w.balance - w.blocked then
      && l'.blocks == l.blocks + [Block(order, user, amount.value, true)]
      && l'.wallets == l.wallets[user := w.(blocked := w.blocked + amount.value)]
      && l'.positions == l.positions
    else l' == l
  }

  lemma CheckActs(l: Ledger, user: int, order: int, contract: Contract, side: Side, qty: int, netqty: int,
                  terms: Option<Terms>, amount: Option<real>)
    requires user in l.wallets && FindActive(l.blocks, order).None? && IsMarginRequired(true, side, contract)
    requires qty > 0 && Opens(side, qty, netqty) > 0
    requires var units := Opens(side, qty, netqty);
      amount == if terms.None? then None
                else if contract.FutureContract? then FutureMargin(units, terms.value)
                else OptionMargin(side, units, terms.value)
    ensures Blocks(l, CheckStep(l, user, order, true, contract, side, qty, netqty, terms).1, user, order, amount)
  {
    hide FutureMargin, OptionMargin, FindActive;
    assert SplitClosingOpening(side, qty, netqty).1 == Opens(side, qty, netqty);
  }

  // An order that opens nothing is approved with nothing written, whatever the
  // prices, and so is one that needs no margin: a buy of options, and any order in
  // an unrecognised symbol or outside the F&O exchanges.
  lemma NothingToBlock(l: Ledger, user: int, order: int, fo: bool, contract: Contract, side: Side, qty: int,
                       netqty: int, price: Option<real>, q: Quotes)
    requires qty > 0
    requires !fo || contract.Unrecognized? || (contract.OptionContract? && side.Buy?) || Opens(side, qty, netqty) == 0
    ensures CheckStep(l, user, order, fo, contract, side, qty, netqty, CheckTerms(contract, price, q))
      == (Approved(0.0), l)
  {}

  lemma FutureRateIs(r: Resolution, c: Config)
    ensures Rate(FutureContract, TermsAt(FutureContract, r, c)) == PerFuture(r.price, r.tier, c)
  {}

  lemma OptionRateIs(option: Contract, r: Resolution, c: Config)
    requires option.OptionContract?
    ensures Rate(option, TermsAt(option, r, c)) == PerOption(r.price, r.tier, r.spot, option, c)
  {
    hide MoneynessMultiplier, Moneyness;
    MoneynessIs(option, r, c);
  }

  lemma MoneynessIs(option: Contract, r: Resolution, c: Config)
    requires option.OptionContract?
    ensures MoneynessMultiplier(TermsAt(option, r, c)) == Moneyness(r.spot, option, c)
  {
    if r.spot.Some? && r.spot.value != 0.0 {
      var s, d := r.spot.value, Reals.Abs(option.strike - r.spot.value);
      if s > 0.0 { RatioWithin(d, s, 0.01); } else { assert d / s <= 0.0; }
    }
  }

  lemma TermsKeepPrice(contract: Contract, r: Resolution, c: Config)
    ensures TermsAt(contract, r, c).reference == r.price
    ensures contract.OptionContract? ==> TermsAt(contract, r, c).strike.Some?
  {}

  // A future's order, on either side, is blocked for at the last internal trade
  // if that lies within the band around the order's own price, else at its own price.
  lemma FutureOrderBlocks(l: Ledger, user: int, order: int, side: Side, qty: int, netqty: int, price: real, q: Quotes)
    requires user in l.wallets && FindActive(l.blocks, order).None?
    requires qty > 0 && price > 0.0 && Opens(side, qty, netqty) > 0
    ensures var near := q.lastTrade.Some? && Reals.Abs(q.lastTrade.value - price) <= q.config.band * price;
            var (reference, tier) := if near then (q.lastTrade.value, 3) else (price, 4);
            var amount := Value(Opens(side, qty, netqty), PerFuture(reference, tier, q.config));
            var l' := Apply(l, Check(user, order, true, FutureContract, side, qty, netqty, Some(price), q));
            Blocks(l, l', user, order, if reference > 0.0 then Some(amount) else None)
  {
    hide FutureMargin, OptionMargin, FindActive, Value, CheckStep, Blocks, Rate, PerFuture, TermsAt, Resolve;
    TiersInOrder(FutureContract, q.chain, q.lastTrade, Some(price), q.config.band);
    var terms := CheckTerms(FutureContract, Some(price), q);
    var units := Opens(side, qty, netqty);
    var r := Resolve(FutureContract, q.chain, q.lastTrade, Some(price), q.config.band).value;
    FutureRateIs(r, q.config);
    assert Priceable(FutureContract, terms.value) <==> r.price > 0.0 by { TermsKeepPrice(FutureContract, r, q.config); }
    MarginIsLinear(FutureContract, side, units, terms.value);
    CheckActs(l, user, order, FutureContract, side, qty, netqty, terms, FutureMargin(units, terms.value));
  }

  // A written option is blocked for at its own leg of the cached chain where
  // there is one, with the chain's spot; else like a future's, with no spot.
  lemma OptionOrderBlocks(l: Ledger, user: int, order: int, option: Contract, qty: int, netqty: int,
                          price: Option<real>, q: Quotes)
    requires user in l.wallets && FindActive(l.blocks, order).None? && option.OptionContract?
    requires qty > 0 && Opens(Sell, qty, netqty) > 0
    ensures var l' := Apply(l, Check(user, order, true, option, Sell, qty, netqty, price, q));
            var units := Opens(Sell, qty, netqty);
            var priced := price.Some? && price.value > 0.0;
            var near := priced && q.lastTrade.Some?
              && Reals.Abs(q.lastTrade.value - price.value) <= q.config.band * price.value;
      && (forall x :: TradesAt(q.chain, option, x) ==>
            Blocks(l, l', user, order,
              if x >= 0.0 then Some(Value(units, PerOption(x, 2, q.chain.value.spot, option, q.config))) else None))
      && ((forall x :: !TradesAt(q.chain, option, x)) ==>
            Blocks(l, l', user, order,
              if near then
                var trade := q.lastTrade.value;
                if trade >= 0.0 then Some(Value(units, PerOption(trade, 3, None, option, q.config))) else None
              else if priced then Some(Value(units, PerOption(price.value, 4, None, option, q.config)))
              else None))
  {
    hide FutureMargin, OptionMargin, FindActive, Value, CheckStep, Blocks, TradesAt, Rate, PerOption, TermsAt, Resolve;
    TiersInOrder(option, q.chain, q.lastTrade, price, q.config.band);
    var terms := CheckTerms(option, price, q);
    var units := Opens(Sell, qty, netqty);
    if terms.Some? {
      var r := Resolve(option, q.chain, q.lastTrade, price, q.config.band).value;
      OptionRateIs(option, r, q.config);
      TermsKeepPrice(option, r, q.config);
      MarginIsLinear(option, Sell, units, terms.value);
    }
    CheckActs(l, user, order, option, Sell, qty, netqty, terms,
              if terms.Some? then OptionMargin(Sell, units, terms.value) else None);
  }

  // ----- After a fill --------------------------------------------------------------------

  // A negative margin is refused, and the position keeps what it held.
  ghost function OrHeld(amount: real, held: real): real { if amount >= 0.0 then amount else held }

  // A flat position and a long option hold nothing.  A future and a written
  // option hold the price in the order's snapshot, if it carries one, else the
  // option's leg with the chain's spot; with neither, what they held before, as
  // does whatever is open in an unrecognised symbol.
  lemma FillHolds(l: Ledger, user: int, tsym: string, orderId: Option<int>, contract: Contract, netqty: int,
                  snapshotPrice: Option<real>, q: Quotes)
    ensures var k := PositionKey(user, tsym);
            var held := PositionBlocked(l, k);
            var l' := Apply(l, FillOf(user, tsym, true, orderId, contract, netqty, snapshotPrice, q, Positional));
            var now := PositionBlocked(l', k);
            var units := if netqty < 0 then -netqty else netqty;
            var snapped := snapshotPrice.Some? && snapshotPrice.value > 0.0;
      && (netqty == 0 ==> now == 0.0)
      && (netqty != 0 && contract.Unrecognized? ==> now == held)
      && (netqty != 0 && contract.FutureContract? ==>
            now == if snapped then OrHeld(Value(units, PerFuture(snapshotPrice.value, 1, q.config)), held) else held)
      && (netqty > 0 && contract.OptionContract? ==> now == 0.0)
      && (netqty < 0 && contract.OptionContract? && snapped ==>
            now == OrHeld(Value(units, PerOption(snapshotPrice.value, 1, None, contract, q.config)), held))
      && (netqty < 0 && contract.OptionContract? && !snapped ==>
            && (forall x :: TradesAt(q.chain, contract, x) ==>
                  now == if x >= 0.0
                         then OrHeld(Value(units, PerOption(x, 2, q.chain.value.spot, contract, q.config)), held)
                         else held)
            && ((forall x :: !TradesAt(q.chain, contract, x)) ==> now == held))
  {
    hide FutureMargin, OptionMargin, Value, Rate, PerOption, PerFuture, TermsAt, TradesAt, Apply, Resolve;
    var a := FillOf(user, tsym, true, orderId, contract, netqty, snapshotPrice, q, Positional);
    OneFillRequires(l, PositionKey(user, tsym), a);
    TiersInOrder(contract, q.chain, q.lastTrade, None, q.config.band);
    ReconciledIff(contract, netqty, snapshotPrice, q);
    var terms := FillTerms(contract, snapshotPrice, q);
    if netqty != 0 && terms.Some? && !contract.Unrecognized? {
      var r := if snapshotPrice.Some? && snapshotPrice.value > 0.0 then Resolution(snapshotPrice.value, 1, None)
               else Resolve(contract, q.chain, q.lastTrade, None, q.config.band).value;
      TermsKeepPrice(contract, r, q.config);
      if contract.OptionContract? { OptionRateIs(contract, r, q.config); } else { FutureRateIs(r, q.config); }
      MarginIsLinear(contract, Sell, Abs(netqty), terms.value);
    }
  }
}
