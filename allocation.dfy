/**
 * The max-utility portfolio on the capital market line (app.py lines 244-256).
 *
 * The risk-free asset and the tangency portfolio form a synthetic two-asset
 * universe, handed to the optimiser with per-weight bounds (1 - leverage,
 * leverage); the optimiser returns the tangency weight w_t, and the portfolio's
 * volatility and return are derived from the capital market line rather than
 * from the optimiser's own performance report.
 *
 * The optimiser is outside the model: w_t is an input. What the model states
 * about it is what it must be, as the maximiser of the objective the optimiser
 * is handed.
 */
module CapitalAllocation {
  import opened Reals

  /** Expected return, volatility and Sharpe ratio of the tangency (max-Sharpe) portfolio. */
  datatype Tangency = Tangency(ret: real, vol: real, sharpe: real)

  /** Expected return and volatility of the max-utility portfolio. */
  datatype CmlPoint = CmlPoint(ret: real, vol: real)

  /** The two-asset problem built at app.py:244-247: expected returns, covariance and per-weight bounds. */
  datatype TwoAssetSystem = TwoAssetSystem(mu: seq<real>, cov: seq<seq<real>>, lower: real, upper: real)

  /** The leverage input accepts whole numbers from 1 to 10 (app.py:87). */
  predicate ValidLeverage(leverage: int) {
    1 <= leverage <= 10
  }

  /** The tangency statistics agree with each other: the Sharpe ratio is the excess return per unit of volatility. */
  predicate Consistent(t: Tangency, rf: real) {
    t.vol > 0.0 && t.sharpe * t.vol == t.ret - rf
  }

  /** The return the capital market line drawn at app.py:264 assigns to volatility x. */
  function CmlReturn(rf: real, t: Tangency, x: real): (r: real)
    ensures x == 0.0 ==> r == rf
    ensures Consistent(t, rf) && x == t.vol ==> r == t.ret
  {
    rf + x * t.sharpe
  }

  /** app.py:253-256: volatility x = w_t * vol_tangent, return x * sharpe_tangent + rf. */
  function MaxUtilityPoint(wt: real, t: Tangency, rf: real): (p: CmlPoint)
    ensures p.ret == CmlReturn(rf, t, p.vol)
    ensures wt == 0.0 ==> p == CmlPoint(rf, 0.0)
    ensures wt == 1.0 ==> p.vol == t.vol
  {
    var x := wt * t.vol;
    assert CmlReturn(rf, t, x) == x * t.sharpe + rf;
    CmlPoint(x * t.sharpe + rf, x)
  }

  /** With consistent tangency statistics the CML derivation equals the weighted mean return (1 - w_t) * rf + w_t * ret_tangent. */
  lemma CmlReturnIsWeightedMean(wt: real, t: Tangency, rf: real)
    requires Consistent(t, rf)
    ensures MaxUtilityPoint(wt, t, rf).ret == (1.0 - wt) * rf + wt * t.ret
    ensures wt == 1.0 ==> MaxUtilityPoint(wt, t, rf) == CmlPoint(t.ret, t.vol)
  {
    calc {
      MaxUtilityPoint(wt, t, rf).ret;
      wt * t.vol * t.sharpe + rf;
      wt * (t.sharpe * t.vol) + rf;
      wt * (t.ret - rf) + rf;
    }
  }

  /** The volatility stays within the leverage band: [(1 - L) * vol, L * vol]; with L = 1 that is [0, vol]. */
  lemma VolatilityWithinLeverage(wt: real, t: Tangency, rf: real, leverage: int)
    requires ValidLeverage(leverage)
    requires 1.0 - leverage as real <= wt <= leverage as real
    requires t.vol >= 0.0
    ensures (1.0 - leverage as real) * t.vol <= MaxUtilityPoint(wt, t, rf).vol <= leverage as real * t.vol
    ensures leverage == 1 ==> 0.0 <= MaxUtilityPoint(wt, t, rf).vol <= t.vol
  {
    var lev := leverage as real;
    NonNegativeProduct(wt - (1.0 - lev), t.vol);
    NonNegativeProduct(lev - wt, t.vol);
  }

  // ---------------------------------------------------------------------------
  // The synthetic two-asset problem
  // ---------------------------------------------------------------------------

  predicate WellFormed(sys: TwoAssetSystem) {
    |sys.mu| == 2 && |sys.cov| == 2 && |sys.cov[0]| == 2 && |sys.cov[1]| == 2
  }

  /** app.py:244-247 as written: the tangency entry of the covariance is its volatility, not its variance. */
  function CmlSystem(rf: real, t: Tangency, leverage: int): (sys: TwoAssetSystem)
    ensures WellFormed(sys)
  {
    TwoAssetSystem([rf, t.ret], [[0.0, 0.0], [0.0, t.vol]], 1.0 - leverage as real, leverage as real)
  }

  /** The synthetic problem with the tangency portfolio's variance in the covariance. */
  function CmlSystemIntended(rf: real, t: Tangency, leverage: int): (sys: TwoAssetSystem)
    ensures WellFormed(sys)
  {
    TwoAssetSystem([rf, t.ret], [[0.0, 0.0], [0.0, Square(t.vol)]], 1.0 - leverage as real, leverage as real)
  }

  /** Both weights (1 - w_t, w_t) fully invested and within the per-weight bounds. */
  predicate Feasible(sys: TwoAssetSystem, wt: real) {
    sys.lower <= wt <= sys.upper && sys.lower <= 1.0 - wt <= sys.upper
  }

  /** Expected return of the weights (1 - w_t, w_t). */
  function MeanReturn(sys: TwoAssetSystem, wt: real): real
    requires WellFormed(sys)
  {
    (1.0 - wt) * sys.mu[0] + wt * sys.mu[1]
  }

  /** Variance w' * cov * w of the weights (1 - w_t, w_t). */
  function QuadForm(sys: TwoAssetSystem, wt: real): real
    requires WellFormed(sys)
  {
    var w := [1.0 - wt, wt];
    w[0] * w[0] * sys.cov[0][0] + w[0] * w[1] * sys.cov[0][1]
      + w[1] * w[0] * sys.cov[1][0] + w[1] * w[1] * sys.cov[1][1]
  }

  /** The quadratic-utility objective the optimiser maximises: mean - A/2 * variance. */
  function Utility(sys: TwoAssetSystem, wt: real, riskAversion: real): real
    requires WellFormed(sys)
  {
    MeanReturn(sys, wt) - 0.5 * riskAversion * QuadForm(sys, wt)
  }

  /** Quadratic utility of a point on the CML, from its own return and volatility. */
  function PointUtility(p: CmlPoint, riskAversion: real): real {
    p.ret - 0.5 * riskAversion * Square(p.vol)
  }

  /** The bounds (1 - L, L) on both weights amount to 1 - L <= w_t <= L. */
  lemma FeasibleIsLeverageBand(rf: real, t: Tangency, leverage: int, wt: real)
    ensures Feasible(CmlSystem(rf, t, leverage), wt) <==> 1.0 - leverage as real <= wt <= leverage as real
    ensures Feasible(CmlSystemIntended(rf, t, leverage), wt) <==> 1.0 - leverage as real <= wt <= leverage as real
  {
  }

  /** The objective reduces to a one-dimensional concave quadratic in w_t, with curvature A * cov[1][1]. */
  lemma UtilityAsQuadratic(sys: TwoAssetSystem, wt: real, riskAversion: real)
    requires WellFormed(sys)
    requires sys.cov[0] == [0.0, 0.0] && sys.cov[1][0] == 0.0
    ensures Utility(sys, wt, riskAversion)
         == Concave(sys.mu[0], sys.mu[1] - sys.mu[0], riskAversion * sys.cov[1][1], wt)
  {
  }

  /** With the variance in the covariance, the optimiser's objective is exactly the utility of the reported point. */
  lemma IntendedUtilityIsPointUtility(rf: real, t: Tangency, leverage: int, wt: real, riskAversion: real)
    requires Consistent(t, rf)
    ensures Utility(CmlSystemIntended(rf, t, leverage), wt, riskAversion)
         == PointUtility(MaxUtilityPoint(wt, t, rf), riskAversion)
  {
    var sys := CmlSystemIntended(rf, t, leverage);
    UtilityAsQuadratic(sys, wt, riskAversion);
    CmlReturnIsWeightedMean(wt, t, rf);
    assert Square(wt * t.vol) == Square(wt) * Square(t.vol);
  }

  /** As written, the objective penalises w_t^2 * vol rather than (w_t * vol)^2. */
  lemma AsWrittenUtility(rf: real, t: Tangency, leverage: int, wt: real, riskAversion: real)
    requires Consistent(t, rf)
    ensures Utility(CmlSystem(rf, t, leverage), wt, riskAversion)
         == PointUtility(MaxUtilityPoint(wt, t, rf), riskAversion)
            - 0.5 * riskAversion * Square(wt) * (t.vol - Square(t.vol))
  {
    var sys := CmlSystem(rf, t, leverage);
    UtilityAsQuadratic(sys, wt, riskAversion);
    CmlReturnIsWeightedMean(wt, t, rf);
    assert Square(wt * t.vol) == Square(wt) * Square(t.vol);
  }

  // ---------------------------------------------------------------------------
  // The maximiser of the objective over the leverage band
  // ---------------------------------------------------------------------------

  function Clamp(x: real, lo: real, hi: real): real
    requires lo <= hi
  {
    if x < lo then lo else if x > hi then hi else x
  }

  /** The one-dimensional objective base + w * excess - curvature/2 * w^2. */
  function Concave(base: real, excess: real, curvature: real, w: real): real {
    base + w * excess - 0.5 * curvature * Square(w)
  }

  /** The maximiser of Concave over [lo, hi]: the unconstrained optimum excess / curvature, clamped. */
  function BestWeight(excess: real, curvature: real, lo: real, hi: real): (w: real)
    requires curvature > 0.0 && lo <= hi
    ensures lo <= w <= hi
  {
    Clamp(excess / curvature, lo, hi)
  }

  lemma ConcaveDifference(base: real, excess: real, curvature: real, u: real, w: real)
    ensures Concave(base, excess, curvature, u) - Concave(base, excess, curvature, w)
         == (u - w) * (excess - 0.5 * curvature * (u + w))
  {
    SquareDifference(u, w);
    assert 0.5 * curvature * (Square(u) - Square(w)) == 0.5 * curvature * ((u - w) * (u + w));
  }

  /** BestWeight maximises the objective over the band, so it is what an exact solver returns. */
  lemma BestWeightMaximises(base: real, excess: real, curvature: real, lo: real, hi: real, w: real)
    requires curvature > 0.0 && lo <= hi
    requires lo <= w <= hi
    ensures Concave(base, excess, curvature, BestWeight(excess, curvature, lo, hi)) >= Concave(base, excess, curvature, w)
  {
    var u := BestWeight(excess, curvature, lo, hi);
    var w0 := excess / curvature;
    var m := w0 - 0.5 * (u + w);
    // u - w and m = w0 - (u + w) / 2 never have opposite signs.
    if w0 < lo {
      assert u - w <= 0.0 && m <= 0.0;
    } else if w0 > hi {
      assert u - w >= 0.0 && m >= 0.0;
    } else {
      assert m == 0.5 * (u - w);
    }
    ScaledProductNonNegative(u - w, m, curvature);
    ExcessSplit(excess, curvature, u + w);
    ConcaveDifference(base, excess, curvature, u, w);
  }

  /** Any other weight in the band does strictly worse, so an exact solver has no other answer. */
  lemma BestWeightUnique(base: real, excess: real, curvature: real, lo: real, hi: real, w: real)
    requires curvature > 0.0 && lo <= hi
    requires lo <= w <= hi && w != BestWeight(excess, curvature, lo, hi)
    ensures Concave(base, excess, curvature, BestWeight(excess, curvature, lo, hi)) > Concave(base, excess, curvature, w)
  {
    var u := BestWeight(excess, curvature, lo, hi);
    var w0 := excess / curvature;
    var m := w0 - 0.5 * (u + w);
    // Now u - w and m are both non-zero and of the same sign.
    if w0 < lo {
      assert u - w < 0.0 && m < 0.0;
    } else if w0 > hi {
      assert u - w > 0.0 && m > 0.0;
    } else {
      assert m == 0.5 * (u - w);
    }
    ConcaveStrictlyGreater(base, excess, curvature, u, w, m);
  }

  /** Concave(u) > Concave(w) when u - w and m = excess / curvature - (u + w) / 2 are non-zero and of the same sign. */
  lemma ConcaveStrictlyGreater(base: real, excess: real, curvature: real, u: real, w: real, m: real)
    requires curvature > 0.0 && m == excess / curvature - 0.5 * (u + w)
    requires (u - w > 0.0 && m > 0.0) || (u - w < 0.0 && m < 0.0)
    ensures Concave(base, excess, curvature, u) > Concave(base, excess, curvature, w)
  {
    ScaledProductPositive(u - w, m, curvature);
    ExcessSplit(excess, curvature, u + w);
    ConcaveDifference(base, excess, curvature, u, w);
    SameFactor(u - w, excess - 0.5 * curvature * (u + w), curvature * m);
    GreaterByPositiveDifference(Concave(base, excess, curvature, u), Concave(base, excess, curvature, w), (u - w) * (curvature * m));
  }

  lemma ScaledProductNonNegative(d: real, m: real, c: real)
    requires c > 0.0
    requires (d >= 0.0 && m >= 0.0) || (d <= 0.0 && m <= 0.0)
    ensures d * (c * m) >= 0.0
  {
    if m >= 0.0 {
      NonNegativeProduct(c, m);
      NonNegativeProduct(d, c * m);
    } else {
      NonNegativeProduct(c, -m);
      assert c * m == -(c * (-m));
      NonNegativeProduct(d, c * m);
    }
  }

  lemma ScaledProductPositive(d: real, m: real, c: real)
    requires c > 0.0
    requires (d > 0.0 && m > 0.0) || (d < 0.0 && m < 0.0)
    ensures d * (c * m) > 0.0
  {
    if m > 0.0 {
      PositiveProduct(c, m);
      PositiveProduct(d, c * m);
    } else {
      PositiveProduct(c, -m);
      assert c * m == -(c * (-m));
      PositiveProduct(-d, -(c * m));
      assert (-d) * (-(c * m)) == d * (c * m);
    }
  }

  lemma ExcessSplit(excess: real, c: real, s: real)
    requires c > 0.0
    ensures excess - 0.5 * c * s == c * (excess / c - 0.5 * s)
  {
    assert c * (excess / c) == excess;
  }

  /** The optimum of a synthetic system whose only risk is the tangency entry: excess return / (A * cov[1][1]), clamped to the bounds. */
  function OptimalWeight(sys: TwoAssetSystem, riskAversion: real): (w: real)
    requires WellFormed(sys)
    requires riskAversion * sys.cov[1][1] > 0.0 && sys.lower <= sys.upper
    ensures sys.lower <= w <= sys.upper
  {
    BestWeight(sys.mu[1] - sys.mu[0], riskAversion * sys.cov[1][1], sys.lower, sys.upper)
  }

  /** On a synthetic system whose only risk is the tangency entry, OptimalWeight maximises the objective over the bounds. */
  lemma OptimalWeightMaximises(sys: TwoAssetSystem, riskAversion: real, wt: real)
    requires WellFormed(sys)
    requires sys.cov[0] == [0.0, 0.0] && sys.cov[1][0] == 0.0
    requires riskAversion * sys.cov[1][1] > 0.0
    requires sys.lower <= wt <= sys.upper
    ensures Utility(sys, OptimalWeight(sys, riskAversion), riskAversion) >= Utility(sys, wt, riskAversion)
  {
    assert OptimalWeight(sys, riskAversion)
        == BestWeight(sys.mu[1] - sys.mu[0], riskAversion * sys.cov[1][1], sys.lower, sys.upper);
    UtilityAsQuadratic(sys, wt, riskAversion);
    UtilityAsQuadratic(sys, OptimalWeight(sys, riskAversion), riskAversion);
    BestWeightMaximises(sys.mu[0], sys.mu[1] - sys.mu[0], riskAversion * sys.cov[1][1], sys.lower, sys.upper, wt);
  }

  /** Every other feasible weight has strictly lower utility: OptimalWeight is the only maximiser. */
  lemma OptimalWeightUnique(sys: TwoAssetSystem, riskAversion: real, wt: real)
    requires WellFormed(sys)
    requires sys.cov[0] == [0.0, 0.0] && sys.cov[1][0] == 0.0
    requires riskAversion * sys.cov[1][1] > 0.0
    requires sys.lower <= wt <= sys.upper && wt != OptimalWeight(sys, riskAversion)
    ensures Utility(sys, OptimalWeight(sys, riskAversion), riskAversion) > Utility(sys, wt, riskAversion)
  {
    assert OptimalWeight(sys, riskAversion)
        == BestWeight(sys.mu[1] - sys.mu[0], riskAversion * sys.cov[1][1], sys.lower, sys.upper);
    UtilityAsQuadratic(sys, wt, riskAversion);
    UtilityAsQuadratic(sys, OptimalWeight(sys, riskAversion), riskAversion);
    BestWeightUnique(sys.mu[0], sys.mu[1] - sys.mu[0], riskAversion * sys.cov[1][1], sys.lower, sys.upper, wt);
  }

  /** The tangency weight an exact optimiser returns for the system as written. */
  function AsWrittenWeight(rf: real, t: Tangency, leverage: int, riskAversion: real): (w: real)
    requires ValidLeverage(leverage) && riskAversion > 0.0 && t.vol > 0.0
    ensures 1.0 - leverage as real <= w <= leverage as real
  {
    PositiveProduct(riskAversion, CmlSystem(rf, t, leverage).cov[1][1]);
    OptimalWeight(CmlSystem(rf, t, leverage), riskAversion)
  }

  /** The tangency weight that maximises the utility of the reported point: the optimum with the variance in the covariance. */
  function IntendedWeight(rf: real, t: Tangency, leverage: int, riskAversion: real): (w: real)
    requires ValidLeverage(leverage) && riskAversion > 0.0 && t.vol > 0.0
    ensures 1.0 - leverage as real <= w <= leverage as real
  {
    SquarePositive(t.vol);
    PositiveProduct(riskAversion, CmlSystemIntended(rf, t, leverage).cov[1][1]);
    OptimalWeight(CmlSystemIntended(rf, t, leverage), riskAversion)
  }

  /** AsWrittenWeight is the optimum of the problem posed at app.py:247-249. */
  lemma AsWrittenWeightIsOptimal(rf: real, t: Tangency, leverage: int, riskAversion: real, wt: real)
    requires ValidLeverage(leverage) && riskAversion > 0.0 && t.vol > 0.0
    requires Feasible(CmlSystem(rf, t, leverage), wt)
    ensures Utility(CmlSystem(rf, t, leverage), AsWrittenWeight(rf, t, leverage, riskAversion), riskAversion)
         >= Utility(CmlSystem(rf, t, leverage), wt, riskAversion)
  {
    PositiveProduct(riskAversion, CmlSystem(rf, t, leverage).cov[1][1]);
    OptimalWeightMaximises(CmlSystem(rf, t, leverage), riskAversion, wt);
  }

  /** No other feasible weight reaches the as-written objective's optimum, so AsWrittenWeight is what an exact optimiser returns. */
  lemma AsWrittenWeightIsUnique(rf: real, t: Tangency, leverage: int, riskAversion: real, wt: real)
    requires ValidLeverage(leverage) && riskAversion > 0.0 && t.vol > 0.0
    requires Feasible(CmlSystem(rf, t, leverage), wt) && wt != AsWrittenWeight(rf, t, leverage, riskAversion)
    ensures Utility(CmlSystem(rf, t, leverage), AsWrittenWeight(rf, t, leverage, riskAversion), riskAversion)
         > Utility(CmlSystem(rf, t, leverage), wt, riskAversion)
  {
    PositiveProduct(riskAversion, CmlSystem(rf, t, leverage).cov[1][1]);
    OptimalWeightUnique(CmlSystem(rf, t, leverage), riskAversion, wt);
  }

  /** IntendedWeight maximises the utility of the reported CML point over every weight in the band. */
  lemma IntendedWeightIsOptimal(rf: real, t: Tangency, leverage: int, riskAversion: real, wt: real)
    requires ValidLeverage(leverage) && riskAversion > 0.0
    requires Consistent(t, rf)
    requires 1.0 - leverage as real <= wt <= leverage as real
    ensures PointUtility(MaxUtilityPoint(IntendedWeight(rf, t, leverage, riskAversion), t, rf), riskAversion)
         >= PointUtility(MaxUtilityPoint(wt, t, rf), riskAversion)
  {
    SquarePositive(t.vol);
    PositiveProduct(riskAversion, CmlSystemIntended(rf, t, leverage).cov[1][1]);
    OptimalWeightMaximises(CmlSystemIntended(rf, t, leverage), riskAversion, wt);
    IntendedUtilityIsPointUtility(rf, t, leverage, wt, riskAversion);
    IntendedUtilityIsPointUtility(rf, t, leverage, IntendedWeight(rf, t, leverage, riskAversion), riskAversion);
  }

  /**
   * Tangency return 12%, volatility 20%, Sharpe 0.5, risk-free 2%, risk aversion 1,
   * leverage 10: as written the optimiser picks w_t = 0.5 (volatility 10%), while
   * the utility of the CML point is maximised at w_t = 2.5 (volatility 50%); on the
   * objective the optimiser is handed, 2.5 scores strictly below 0.5.
   */
  lemma VolatilityForVarianceCounterexample()
    ensures AsWrittenWeight(0.02, Tangency(0.12, 0.2, 0.5), 10, 1.0) == 0.5
    ensures IntendedWeight(0.02, Tangency(0.12, 0.2, 0.5), 10, 1.0) == 2.5
    ensures MaxUtilityPoint(0.5, Tangency(0.12, 0.2, 0.5), 0.02) == CmlPoint(0.07, 0.1)
    ensures MaxUtilityPoint(2.5, Tangency(0.12, 0.2, 0.5), 0.02) == CmlPoint(0.27, 0.5)
    ensures PointUtility(CmlPoint(0.07, 0.1), 1.0) < PointUtility(CmlPoint(0.27, 0.5), 1.0)
    ensures Utility(CmlSystem(0.02, Tangency(0.12, 0.2, 0.5), 10), 2.5, 1.0)
          < Utility(CmlSystem(0.02, Tangency(0.12, 0.2, 0.5), 10), 0.5, 1.0)
  {
    assert Square(0.2) == 0.04;
  }
}
