// service/marginengine/tiered_price_resolver.py: the price a contract is
// margined at when no fill price is known.
module PriceResolver {
  import Reals
  import opened Wrappers

  // What resolve_contract_type makes of a symbol.  Only the option master gives
  // a strike; a symbol neither master has is given neither strike nor underlying.
  datatype Contract =
    | OptionContract(underlying: string, strike: real, optionType: string)
    | FutureContract
    | Unrecognized

  // One strike of a cached chain: the last price of each leg, if it has any.
  datatype ChainEntry = ChainEntry(strike: Option<real>, ce: Option<real>, pe: Option<real>)

  datatype Chain = Chain(spot: Option<real>, strikes: seq<ChainEntry>)

  datatype Resolution = Resolution(price: real, tier: nat, spot: Option<real>)

  // ----- Tier 2: the cached option chain ------------------------------------------------------

  function LegPrice(entry: ChainEntry, optionType: string): Option<real>
  {
    if optionType == "CE" then entry.ce else if optionType == "PE" then entry.pe else None
  }

  function FirstAt(strikes: seq<ChainEntry>, strike: real): (k: Option<nat>)
    ensures k.Some? ==> k.value < |strikes| && strikes[k.value].strike == Some(strike)
    ensures forall j :: 0 <= j < (if k.Some? then k.value else |strikes|) ==> strikes[j].strike != Some(strike)
  {
    if |strikes| == 0 then None
    else
      var init := FirstAt(strikes[..|strikes| - 1], strike);
      if init.Some? then init
      else if strikes[|strikes| - 1].strike == Some(strike) then Some(|strikes| - 1)
      else None
  }

  // The contract's leg in the cached chain.  `chain` is None when nothing is
  // cached for its underlying and expiry.
  function CachedLeg(contract: Contract, chain: Option<Chain>): Option<real>
  {
    if !contract.OptionContract? || contract.underlying == "" || chain.None? then None
    else
      var k := FirstAt(chain.value.strikes, contract.strike);
      if k.None? then None else LegPrice(chain.value.strikes[k.value], contract.optionType)
  }

  // ----- Tier 3: the last internal trade, within a band of the order's own price -----------------

  function VerifiedTrade(lastTrade: Option<real>, orderPrice: Option<real>, band: real): Option<real>
  {
    if lastTrade.None? || orderPrice.None? || orderPrice.value <= 0.0 then None
    else if Reals.Abs(lastTrade.value - orderPrice.value) / orderPrice.value > band then None
    else lastTrade
  }

  // None: ReferencePriceUnresolvedError.
  function Resolve(contract: Contract, chain: Option<Chain>, lastTrade: Option<real>, orderPrice: Option<real>,
                   band: real): Option<Resolution>
  {
    var leg := CachedLeg(contract, chain);
    var trade := VerifiedTrade(lastTrade, orderPrice, band);
    if leg.Some? then Some(Resolution(leg.value, 2, chain.value.spot))
    else if trade.Some? then Some(Resolution(trade.value, 3, None))
    else if orderPrice.Some? && orderPrice.value > 0.0 then Some(Resolution(orderPrice.value, 4, None))
    else None
  }

  // The price of the contract's own leg, the call's for a CE and the put's for a
  // PE, in the first entry of the chain at its strike.
  ghost predicate TradesAt(chain: Option<Chain>, contract: Contract, price: real)
  {
    && contract.OptionContract? && contract.underlying != "" && chain.Some?
    && var strikes := chain.value.strikes;
       exists k :: 0 <= k < |strikes| && strikes[k].strike == Some(contract.strike)
         && (forall j :: 0 <= j < k ==> strikes[j].strike != Some(contract.strike))
         && ((contract.optionType == "CE" && strikes[k].ce == Some(price))
             || (contract.optionType == "PE" && strikes[k].pe == Some(price)))
  }

  lemma CachedLegIsQuoted(contract: Contract, chain: Option<Chain>, price: real)
    ensures CachedLeg(contract, chain) == Some(price) <==> TradesAt(chain, contract, price)
  {
    if contract.OptionContract? && chain.Some? {
      var strikes := chain.value.strikes;
      var k := FirstAt(strikes, contract.strike);
      if TradesAt(chain, contract, price) {
        var i :| 0 <= i < |strikes| && strikes[i].strike == Some(contract.strike)
          && (forall j :: 0 <= j < i ==> strikes[j].strike != Some(contract.strike))
          && ((contract.optionType == "CE" && strikes[i].ce == Some(price))
              || (contract.optionType == "PE" && strikes[i].pe == Some(price)));
        assert k == Some(i);
      }
    }
  }

  // The tiers in order: the leg of the cached chain with the chain's spot; the
  // last internal trade, no further from the order's price than the band; the
  // order's own price; else nothing.
  lemma TiersInOrder(contract: Contract, chain: Option<Chain>, lastTrade: Option<real>, orderPrice: Option<real>,
                     band: real)
    ensures var r := Resolve(contract, chain, lastTrade, orderPrice, band);
            var priced := orderPrice.Some? && orderPrice.value > 0.0;
            var near := priced && lastTrade.Some?
              && Reals.Abs(lastTrade.value - orderPrice.value) <= band * orderPrice.value;
      && (forall x :: TradesAt(chain, contract, x) ==> r == Some(Resolution(x, 2, chain.value.spot)))
      && ((forall x :: !TradesAt(chain, contract, x)) ==>
            r == if near then Some(Resolution(lastTrade.value, 3, None))
                 else if priced then Some(Resolution(orderPrice.value, 4, None)) else None)
  {
    forall x ensures CachedLeg(contract, chain) == Some(x) <==> TradesAt(chain, contract, x) {
      CachedLegIsQuoted(contract, chain, x);
    }
    if orderPrice.Some? && orderPrice.value > 0.0 && lastTrade.Some? {
      RatioWithin(Reals.Abs(lastTrade.value - orderPrice.value), orderPrice.value, band);
    }
  }

  lemma RatioWithin(d: real, p: real, bound: real)
    requires p > 0.0
    ensures d / p <= bound <==> d <= bound * p
  {
    var x := d / p;
    assert x * p == d;
    assert x - bound > 0.0 ==> (x - bound) * p > 0.0;
    assert x - bound <= 0.0 ==> (bound - x) * p >= 0.0;
  }

  // A price is found exactly for an option with a leg in the cached chain and
  // for an order with a price of its own; an internal trade never decides it.
  lemma ResolvedIff(contract: Contract, chain: Option<Chain>, lastTrade: Option<real>, orderPrice: Option<real>,
                    band: real)
    ensures Resolve(contract, chain, lastTrade, orderPrice, band).Some?
      <==> CachedLeg(contract, chain).Some? || (orderPrice.Some? && orderPrice.value > 0.0)
  {}

  // Nor can internal trades, whoever made them, move the price an order is
  // margined at by more than the band around the order's own price.
  lemma TradesMoveThePriceWithinTheBand(contract: Contract, chain: Option<Chain>, lastTrade: Option<real>,
                                        orderPrice: Option<real>, band: real)
    requires band >= 0.0
    ensures var (with, without) := (Resolve(contract, chain, lastTrade, orderPrice, band),
                                    Resolve(contract, chain, None, orderPrice, band));
      && (with.Some? <==> without.Some?)
      && (with.Some? ==>
            with.value == without.value
            || (orderPrice == Some(without.value.price)
                && Reals.Abs(with.value.price - without.value.price) <= band * without.value.price))
  {
    if VerifiedTrade(lastTrade, orderPrice, band).Some? {
      var p := orderPrice.value;
      RatioWithin(Reals.Abs(lastTrade.value - p), p, band);
      assert 0.0 <= band * p;
    }
  }

  // ----- The resolver -------------------------------------------------------------------------

  // _resolve_from_cached_chain: the first entry at the strike decides.
  method ResolveFromCachedChain(contract: Contract, chain: Option<Chain>) returns (r: Option<Resolution>)
    ensures r.Some? <==> CachedLeg(contract, chain).Some?
    ensures r.Some? ==> r.value == Resolution(CachedLeg(contract, chain).value, 2, chain.value.spot)
  {
    if !contract.OptionContract? || contract.underlying == "" || chain.None? { return None; }
    var strikes := chain.value.strikes;
    for i := 0 to |strikes|
      invariant forall j :: 0 <= j < i ==> strikes[j].strike != Some(contract.strike)
    {
      var entry := strikes[i];
      if entry.strike == Some(contract.strike) {
        assert FirstAt(strikes, contract.strike) == Some(i);
        var ltp := LegPrice(entry, contract.optionType);
        return if ltp.Some? then Some(Resolution(ltp.value, 2, chain.value.spot)) else None;
      }
    }
    return None;
  }

  method ResolvePrice(contract: Contract, chain: Option<Chain>, lastTrade: Option<real>, orderPrice: Option<real>,
                      band: real)
    returns (r: Option<Resolution>)
    ensures r == Resolve(contract, chain, lastTrade, orderPrice, band)
  {
    if contract.OptionContract? || contract.Unrecognized? {
      r := ResolveFromCachedChain(contract, chain);
      if r.Some? { return; }
    }
    var trade := VerifiedTrade(lastTrade, orderPrice, band);
    if trade.Some? { return Some(Resolution(trade.value, 3, None)); }
    if orderPrice.Some? && orderPrice.value > 0.0 { return Some(Resolution(orderPrice.value, 4, None)); }
    return None;
  }
}
