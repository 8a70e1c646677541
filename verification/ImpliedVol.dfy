// service/optionChain/blackScholes.py: backing a volatility out of an option's
// price.  The pricing formula is a parameter: `price(sigma)` is None where its
// evaluation raises.
module ImpliedVol {
  import Reals
  import opened Wrappers

  const SIGMA_MIN := 0.01
  const SIGMA_MAX := 5.0
  const INITIAL_GUESS := 0.3

  // `Raises`: a pricing error escapes to the caller.
  datatype Answer = NoAnswer | Volatility(sigma: real) | Raises

  function PowerOfTwo(k: nat): (p: real)
    ensures p >= 1.0
  {
    if k == 0 then 1.0 else 2.0 * PowerOfTwo(k - 1)
  }

  // What is left of the bracket after k halvings.
  function Width(k: nat): real { (SIGMA_MAX - SIGMA_MIN) / PowerOfTwo(k) }

  lemma Halved(k: nat)
    ensures Width(k + 1) == Width(k) / 2.0
    ensures Width(0) == SIGMA_MAX - SIGMA_MIN
  {
    Quotient(SIGMA_MAX - SIGMA_MIN, PowerOfTwo(k));
  }

  lemma Quotient(a: real, p: real)
    requires p >= 1.0
    ensures a / (2.0 * p) == a / p / 2.0
  {
    var q := a / p;
    assert q * p == a;
    assert q / 2.0 * (2.0 * p) == a;
  }

  ghost predicate NonDecreasing(price: real -> Option<real>)
  {
    forall x, y :: SIGMA_MIN <= x <= y <= SIGMA_MAX && price(x).Some? && price(y).Some? ==>
      price(x).value <= price(y).value
  }

  predicate InRange(sigma: real) { SIGMA_MIN <= sigma <= SIGMA_MAX }

  ghost predicate IsRoot(price: real -> Option<real>, ltp: real, sigma: real)
  {
    InRange(sigma) && price(sigma) == Some(ltp)
  }

  ghost predicate Close(price: real -> Option<real>, ltp: real, sigma: real, tol: real)
  {
    price(sigma).Some? && Reals.Abs(price(sigma).value - ltp) < tol
  }

  ghost predicate Total(price: real -> Option<real>) { forall x :: InRange(x) ==> price(x).Some? }

  // The answer either prices within the tolerance, or lies within half the last
  // bracket of every volatility that prices exactly.
  ghost predicate Accurate(price: real -> Option<real>, ltp: real, sigma: real, tol: real, maxIter: nat)
  {
    || Close(price, ltp, sigma, tol)
    || forall root :: IsRoot(price, ltp, root) ==> Reals.Abs(sigma - root) <= Width(maxIter + 1)
  }

  // What every bisection step keeps: the signs at both ends, and every root.
  ghost predicate Bracket(price: real -> Option<real>, ltp: real, lo: real, hi: real)
  {
    && SIGMA_MIN <= lo <= hi <= SIGMA_MAX && price(lo).Some? && price(hi).Some?
    && price(lo).value <= ltp <= price(hi).value
  }

  ghost predicate HasRoots(price: real -> Option<real>, ltp: real, lo: real, hi: real)
  {
    forall root :: IsRoot(price, ltp, root) ==> lo <= root <= hi
  }

  // The bracket after j steps of the search, None once the search has ended: on
  // a midpoint that prices within the tolerance or cannot be priced.
  function Narrowed(price: real -> Option<real>, ltp: real, tol: real, j: nat): Option<(real, real)>
  {
    if j == 0 then Some((SIGMA_MIN, SIGMA_MAX))
    else
      var before := Narrowed(price, ltp, tol, j - 1);
      if before.None? then None
      else
        var (lo, hi) := before.value;
        var mid := (lo + hi) / 2.0;
        if price(mid).None? || Reals.Abs(price(mid).value - ltp) < tol then None
        else if price(mid).value - ltp > 0.0 then Some((lo, mid))
        else Some((mid, hi))
  }

  // The search's j-th midpoint is reached and cannot be priced.
  predicate ProbeFails(price: real -> Option<real>, ltp: real, tol: real, j: nat)
  {
    var at := Narrowed(price, ltp, tol, j);
    at.Some? && price((at.value.0 + at.value.1) / 2.0).None?
  }

  predicate OutsidePrices(price: real -> Option<real>, ltp: real)
  {
    price(SIGMA_MIN).Some? && price(SIGMA_MAX).Some? && (price(SIGMA_MIN).value > ltp || price(SIGMA_MAX).value < ltp)
  }

  // Exactly when bisection raises: an end of the range cannot be priced, or the
  // range admits the price and a midpoint it probes cannot.
  ghost predicate BisectionRaises(price: real -> Option<real>, ltp: real, tol: real, maxIter: nat)
  {
    || price(SIGMA_MIN).None? || price(SIGMA_MAX).None?
    || (!OutsidePrices(price, ltp) && exists j :: 0 <= j < maxIter && ProbeFails(price, ltp, tol, j))
  }

  method BisectionIv(ltp: real, price: real -> Option<real>, tol: real, maxIter: nat) returns (r: Answer)
    ensures r.Raises? <==> BisectionRaises(price, ltp, tol, maxIter)
    ensures r.Raises? ==> !Total(price)
    ensures r.NoAnswer? <==> OutsidePrices(price, ltp)
    ensures r.NoAnswer? && NonDecreasing(price) ==> forall root :: !IsRoot(price, ltp, root)
    ensures r.Volatility? ==> InRange(r.sigma)
    ensures r.Volatility? && tol > 0.0 && NonDecreasing(price) ==> Accurate(price, ltp, r.sigma, tol, maxIter)
  {
    var lo, hi := SIGMA_MIN, SIGMA_MAX;
    hide Total, Narrowed, ProbeFails, Accurate, NonDecreasing, HasRoots;
    StartsWhole(price, ltp, tol);
    if price(lo).None? || price(hi).None? {
      NotTotal(price, if price(lo).None? then lo else hi);
      return Raises;
    }
    var priceLo, priceHi := price(lo).value - ltp, price(hi).value - ltp;
    if priceLo > 0.0 || priceHi < 0.0 {
      NoRootOutside(price, ltp);
      return NoAnswer;
    }
    Halved(0);
    for k := 0 to maxIter
      invariant Bracket(price, ltp, lo, hi) && hi - lo == Width(k)
      invariant Narrowed(price, ltp, tol, k) == Some((lo, hi))
      invariant forall j :: 0 <= j < k ==> !ProbeFails(price, ltp, tol, j)
      invariant tol > 0.0 && NonDecreasing(price) ==> HasRoots(price, ltp, lo, hi)
    {
      hide Width;
      Halved(k);
      NarrowedNext(price, ltp, tol, k);
      var mid := (lo + hi) / 2.0;
      if price(mid).None? {
        NotTotal(price, mid);
        return Raises;
      }
      var priceMid := price(mid).value - ltp;
      if Reals.Abs(priceMid) < tol {
        EndsHere(price, ltp, tol, k, maxIter);
        CloseIsAccurate(price, ltp, tol, mid, maxIter);
        return Volatility(mid);
      }
      if tol > 0.0 && NonDecreasing(price) { StepKeepsRoots(price, ltp, tol, lo, hi, mid); }
      if priceMid > 0.0 { hi := mid; } else { lo := mid; }
    }
    hide Width;
    Halved(maxIter);
    if HasRoots(price, ltp, lo, hi) { CenterIsAccurate(price, ltp, tol, lo, hi, maxIter); }
    return Volatility((lo + hi) / 2.0);
  }

  lemma StartsWhole(price: real -> Option<real>, ltp: real, tol: real)
    ensures Narrowed(price, ltp, tol, 0) == Some((SIGMA_MIN, SIGMA_MAX)) && HasRoots(price, ltp, SIGMA_MIN, SIGMA_MAX)
  {}

  lemma NarrowedNext(price: real -> Option<real>, ltp: real, tol: real, k: nat)
    requires Narrowed(price, ltp, tol, k).Some?
    ensures var (lo, hi) := Narrowed(price, ltp, tol, k).value;
            var mid := (lo + hi) / 2.0;
      && (ProbeFails(price, ltp, tol, k) <==> price(mid).None?)
      && Narrowed(price, ltp, tol, k + 1)
           == if price(mid).None? || Reals.Abs(price(mid).value - ltp) < tol then None
              else if price(mid).value - ltp > 0.0 then Some((lo, mid)) else Some((mid, hi))
  {}

  lemma NoRootOutside(price: real -> Option<real>, ltp: real)
    requires OutsidePrices(price, ltp)
    ensures NonDecreasing(price) ==> forall root :: !IsRoot(price, ltp, root)
  {}

  lemma CloseIsAccurate(price: real -> Option<real>, ltp: real, tol: real, sigma: real, maxIter: nat)
    requires Close(price, ltp, sigma, tol)
    ensures Accurate(price, ltp, sigma, tol, maxIter)
  {}

  lemma CenterIsAccurate(price: real -> Option<real>, ltp: real, tol: real, lo: real, hi: real, maxIter: nat)
    requires HasRoots(price, ltp, lo, hi) && (hi - lo) / 2.0 == Width(maxIter + 1)
    ensures Accurate(price, ltp, (lo + hi) / 2.0, tol, maxIter)
  {
    hide Width;
  }

  lemma NotTotal(price: real -> Option<real>, x: real)
    requires InRange(x) && price(x).None?
    ensures !Total(price)
  {}

  // Nothing is probed after the search has ended.
  lemma {:induction false} EndsHere(price: real -> Option<real>, ltp: real, tol: real, k: nat, n: nat)
    requires Narrowed(price, ltp, tol, k + 1).None?
    ensures forall j :: k < j < n ==> !ProbeFails(price, ltp, tol, j)
    decreases n
  {
    if n > k + 1 {
      EndsHere(price, ltp, tol, k, n - 1);
      NarrowedEnds(price, ltp, tol, k + 1, n - 1);
    }
  }

  lemma {:induction false} NarrowedEnds(price: real -> Option<real>, ltp: real, tol: real, k: nat, j: nat)
    requires Narrowed(price, ltp, tol, k).None? && k <= j
    ensures Narrowed(price, ltp, tol, j).None?
    decreases j
  {
    if k < j { NarrowedEnds(price, ltp, tol, k, j - 1); }
  }

  lemma StepKeepsRoots(price: real -> Option<real>, ltp: real, tol: real, lo: real, hi: real, mid: real)
    requires tol > 0.0 && NonDecreasing(price) && HasRoots(price, ltp, lo, hi) && lo <= mid <= hi && InRange(mid)
    requires price(mid).Some? && !Close(price, ltp, mid, tol)
    ensures price(mid).value > ltp ==> HasRoots(price, ltp, lo, mid)
    ensures price(mid).value <= ltp ==> HasRoots(price, ltp, mid, hi)
  {}

  // The bracket narrows below any width, so bisection can be made as accurate
  // as wanted.
  lemma EnoughSteps(epsilon: real) returns (k: nat)
    requires epsilon > 0.0
    ensures Width(k + 1) < epsilon
  {
    k := (SIGMA_MAX / epsilon).Floor + 1;
    Grows(k + 1);
    assert (k + 1) as real > SIGMA_MAX / epsilon;
    Below(SIGMA_MAX - SIGMA_MIN, PowerOfTwo(k + 1), epsilon);
  }

  lemma {:induction false} Grows(k: nat)
    ensures PowerOfTwo(k) >= k as real + 1.0
  {
    if k > 0 { Grows(k - 1); }
  }

  lemma Below(a: real, p: real, epsilon: real)
    requires epsilon > 0.0 && p >= 1.0 && a > 0.0 && p > 5.0 / epsilon && a < 5.0
    ensures a / p < epsilon
  {
    var d := 5.0 / epsilon;
    assert d * epsilon == 5.0;
    assert p * epsilon > d * epsilon;
    var q := a / p;
    assert q * p == a;
    if q >= epsilon { assert false; }
  }

  // How implied_volatility came by its answer.
  datatype Path = Degenerate | Converged | Exhausted | Bisected

  function IntrinsicValue(spot: real, strike: real, call: bool): real
  {
    var v := if call then spot - strike else strike - spot;
    if v < 0.0 then 0.0 else v
  }

  function Clamp(sigma: real): real
  {
    var low := if sigma > SIGMA_MAX then SIGMA_MAX else sigma;
    if low < SIGMA_MIN then SIGMA_MIN else low
  }

  // An input that is missing or not a number is None.
  predicate Usable(x: Option<real>) { x.Some? && x.value > 0.0 }

  const VEGA_FLOOR := 0.00000001

  // sigma -= diff / vega
  function NewtonStep(sigma: real, diff: real, slope: real): real
    requires slope > 0.0
  {
    sigma - diff / slope
  }

  // Newton's estimate before its j-th step, None once the loop has been left:
  // converged, unpriceable, too flat, or out of range.
  function Estimate(price: real -> Option<real>, vega: real -> real, ltp: real, tol: real, j: nat): Option<real>
  {
    if j == 0 then Some(INITIAL_GUESS)
    else
      var before := Estimate(price, vega, ltp, tol, j - 1);
      if before.None? || price(before.value).None? || Reals.Abs(price(before.value).value - ltp) < tol
        || vega(before.value) < VEGA_FLOOR then None
      else
        var next := NewtonStep(before.value, price(before.value).value - ltp, vega(before.value));
        if InRange(next) then Some(next) else None
  }

  // The loop converges at its j-th step.
  ghost predicate ConvergesAt(price: real -> Option<real>, vega: real -> real, ltp: real, tol: real, j: nat)
  {
    Estimate(price, vega, ltp, tol, j).Some? && Close(price, ltp, Estimate(price, vega, ltp, tol, j).value, tol)
  }

  // Newton's method: the first estimate is 0.3, and the next after x is the y at
  // which the tangent at x meets the price looked for.  It is taken exactly where
  // x can be priced and misses by at least tol, the slope is usable, and y is in
  // range.
  lemma EstimatesFollowTangents(price: real -> Option<real>, vega: real -> real, ltp: real, tol: real, j: nat, y: real)
    ensures Estimate(price, vega, ltp, tol, 0) == Some(0.3)
    ensures var x := Estimate(price, vega, ltp, tol, j);
      Estimate(price, vega, ltp, tol, j + 1) == Some(y) <==>
        && x.Some? && price(x.value).Some? && vega(x.value) >= 0.00000001 && 0.01 <= y <= 5.0
        && (price(x.value).value >= ltp + tol || price(x.value).value <= ltp - tol)
        && price(x.value).value + vega(x.value) * (y - x.value) == ltp
  {
    hide Estimate;
    var x := Estimate(price, vega, ltp, tol, j);
    NextEstimate(price, vega, ltp, tol, j);
    if x.Some? && price(x.value).Some? && vega(x.value) >= VEGA_FLOOR {
      TangentMeets(price(x.value).value, ltp, vega(x.value), x.value, y);
    }
  }

  lemma NextEstimate(price: real -> Option<real>, vega: real -> real, ltp: real, tol: real, j: nat)
    ensures Estimate(price, vega, ltp, tol, 0) == Some(INITIAL_GUESS)
    ensures var x := Estimate(price, vega, ltp, tol, j);
      Estimate(price, vega, ltp, tol, j + 1)
        == if x.None? || price(x.value).None? || Reals.Abs(price(x.value).value - ltp) < tol
             || vega(x.value) < VEGA_FLOOR
           then None
           else
             var next := NewtonStep(x.value, price(x.value).value - ltp, vega(x.value));
             if InRange(next) then Some(next) else None
  {}

  lemma TangentMeets(p: real, ltp: real, slope: real, x: real, y: real)
    requires slope > 0.0
    ensures y == NewtonStep(x, p - ltp, slope) <==> p + slope * (y - x) == ltp
  {
    var q := (p - ltp) / slope;
    assert slope * q == p - ltp;
    assert p + slope * (y - x) - ltp == slope * (q + y - x);
  }

  lemma {:induction false} EstimateEnds(price: real -> Option<real>, vega: real -> real, ltp: real,
      tol: real, k: nat, n: nat)
    requires Estimate(price, vega, ltp, tol, k).None? && k <= n
    ensures Estimate(price, vega, ltp, tol, n).None?
    decreases n
  {
    if k < n { EstimateEnds(price, vega, ltp, tol, k, n - 1); }
  }

  lemma LeftAt(price: real -> Option<real>, vega: real -> real, ltp: real, tol: real, k: nat, n: nat)
    requires Estimate(price, vega, ltp, tol, k).None? && k <= n
    ensures Estimate(price, vega, ltp, tol, n).None?
    ensures forall j :: k <= j < n ==> !ConvergesAt(price, vega, ltp, tol, j)
  {
    EstimateEnds(price, vega, ltp, tol, k, n);
    forall j | k <= j < n ensures !ConvergesAt(price, vega, ltp, tol, j) { EstimateEnds(price, vega, ltp, tol, k, j); }
  }

  // Where no volatility can be priced, as when spot over strike underflows to
  // zero and its logarithm raises, Newton's loop is left quietly at its first
  // step and bisection raises.
  lemma NewtonQuietBisectionRaises(vega: real -> real, ltp: real, tol: real, maxIter: nat)
    requires maxIter > 0
    ensures var price: real -> Option<real> := (x: real) => None;
      && Estimate(price, vega, ltp, tol, maxIter).None?
      && (forall j :: 0 <= j < maxIter ==> !ConvergesAt(price, vega, ltp, tol, j))
      && BisectionRaises(price, ltp, tol, maxIter)
  {
    var price: real -> Option<real> := (x: real) => None;
    assert Estimate(price, vega, ltp, tol, 0) == Some(INITIAL_GUESS);
    assert Estimate(price, vega, ltp, tol, 1).None?;
    LeftAt(price, vega, ltp, tol, 1, maxIter);
    assert !ConvergesAt(price, vega, ltp, tol, 0);
  }

  lemma AtMostIntrinsic(ltp: real, spot: real, strike: real, call: bool)
    requires ltp > 0.0
    ensures ltp <= IntrinsicValue(spot, strike, call) <==> ltp <= if call then spot - strike else strike - spot
  {}

  // Newton's method, falling back to bisection when it stalls, leaves the range
  // or cannot price.  Running out of Newton steps inside the range returns the
  // last estimate as it is.
  method ImpliedVolatility(ltp: Option<real>, spot: Option<real>, strike: Option<real>, years: Option<real>, call: bool,
                           price: real -> Option<real>, vega: real -> real, tol: real, maxIter: nat)
    returns (r: Answer, ghost path: Path)
    ensures path.Degenerate? <==>
      || !Usable(years) || !Usable(ltp) || !Usable(spot) || !Usable(strike)
      || ltp.value <= if call then spot.value - strike.value else strike.value - spot.value
    ensures !path.Degenerate? ==>
      && (path.Exhausted? <==> Estimate(price, vega, ltp.value, tol, maxIter).Some?)
      && (path.Converged? <==> exists j :: 0 <= j < maxIter && ConvergesAt(price, vega, ltp.value, tol, j))
    ensures path.Degenerate? ==> r.NoAnswer?
    ensures path.Exhausted? ==> r == Volatility(Estimate(price, vega, ltp.value, tol, maxIter).value)
    ensures path.Converged? ==> r.Volatility? && Close(price, ltp.value, r.sigma, tol)
    ensures r.Volatility? ==> 0.01 <= r.sigma <= 5.0
    ensures r.Raises? <==> path.Bisected? && BisectionRaises(price, ltp.value, tol, maxIter)
    ensures r.Raises? ==> !Total(price)
    ensures path.Bisected? ==> (r.NoAnswer? <==> OutsidePrices(price, ltp.value))
    ensures path.Bisected? && NonDecreasing(price) && tol > 0.0 ==>
      && (r.NoAnswer? ==> forall root :: !IsRoot(price, ltp.value, root))
      && (r.Volatility? ==> Accurate(price, ltp.value, r.sigma, tol, maxIter))
  {
    hide BisectionRaises, IntrinsicValue, NewtonStep;
    if !Usable(years) || !Usable(ltp) || !Usable(spot) || !Usable(strike) { return NoAnswer, Degenerate; }
    AtMostIntrinsic(ltp.value, spot.value, strike.value, call);
    if ltp.value <= IntrinsicValue(spot.value, strike.value, call) { return NoAnswer, Degenerate; }
    var sigma := INITIAL_GUESS;
    var broken := false;
    var i := 0;
    while i < maxIter && !broken
      invariant 0 <= i <= maxIter
      invariant !broken ==> InRange(sigma) && Estimate(price, vega, ltp.value, tol, i) == Some(sigma)
      invariant broken ==> Estimate(price, vega, ltp.value, tol, i).None?
      invariant forall j :: 0 <= j < i ==> !ConvergesAt(price, vega, ltp.value, tol, j)
      decreases maxIter - i, !broken
    {
      if price(sigma).None? {
        broken := true;
      } else {
        var diff := price(sigma).value - ltp.value;
        if Reals.Abs(diff) < tol {
          assert ConvergesAt(price, vega, ltp.value, tol, i);
          LeftAt(price, vega, ltp.value, tol, i + 1, maxIter);
          return Volatility(Clamp(sigma)), Converged;
        }
        var v := vega(sigma);
        if v < VEGA_FLOOR {
          broken := true;
        } else {
          sigma := NewtonStep(sigma, diff, v);
          if !(SIGMA_MIN <= sigma <= SIGMA_MAX) { broken := true; }
        }
      }
      i := i + 1;
    }
    if !broken { return Volatility(Clamp(sigma)), Exhausted; }
    LeftAt(price, vega, ltp.value, tol, i, maxIter);
    r := BisectionIv(ltp.value, price, tol, maxIter);
    path := Bisected;
  }
}
