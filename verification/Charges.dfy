/**
 * What one accrual charges and credits, against the parameters, the totals and the elapsed time: the two-slope
 * curve, the utilisation, the growth and the interest are each bracketed from both sides.
 */
module Charges {
  import opened Prelude
  import opened Arith
  import opened Interest
  import opened Ledger

  // ---------------------------------------------------------------- the curve and the utilisation

  /** The annual rate before rounding, in ten-thousandths of a basis point. */
  function Curve(params: InterestParams, util: nat): nat {
    if util <= params.kinkUtilBps then
      params.baseRateBps * 10_000 + params.slope1Bps * util
    else
      params.baseRateBps * 10_000 + params.slope1Bps * params.kinkUtilBps + params.slope2Bps * (util - params.kinkUtilBps)
  }

  /** One rounding below the kink, two above it. */
  function CurveSlack(params: InterestParams, util: nat): nat {
    if util <= params.kinkUtilBps then 10_000 else 20_000
  }

  /** Up to the kink the rate over the base is the first slope's share of the utilisation, rounded down. */
  lemma RateBelowKink(params: InterestParams, util: nat)
    requires util <= params.kinkUtilBps
    ensures var over := BorrowRate(params, util) - params.baseRateBps;
      0 <= over && over * 10_000 <= params.slope1Bps * util < (over + 1) * 10_000
  {
    DivBounds(params.slope1Bps * util, 10_000);
    ShareNonNeg(params.slope1Bps, util, 10_000);
  }

  /** Above it the rate over the rate at the kink is the second slope's share of the excess, rounded down. */
  lemma RateAboveKink(params: InterestParams, util: nat)
    requires params.kinkUtilBps < util
    ensures var over := BorrowRate(params, util) - BorrowRate(params, params.kinkUtilBps);
      0 <= over && over * 10_000 <= params.slope2Bps * (util - params.kinkUtilBps) < (over + 1) * 10_000
  {
    var x := params.slope2Bps * (util - params.kinkUtilBps);
    DivBounds(x, 10_000);
    ShareNonNeg(params.slope2Bps, util - params.kinkUtilBps, 10_000);
  }

  lemma RateOnCurve(params: InterestParams, util: nat)
    ensures BorrowRate(params, util) * 10_000 <= Curve(params, util)
              < BorrowRate(params, util) * 10_000 + CurveSlack(params, util)
  {
    if util <= params.kinkUtilBps {
      RateBelowKink(params, util);
    } else {
      RateBelowKink(params, params.kinkUtilBps);
      RateAboveKink(params, util);
    }
  }

  /** Utilisation is borrowed over supplied in basis points, rounded down and clamped at 100%; 0 without supply. */
  lemma UtilizationBracket(s: nat, b: nat)
    ensures var util := UtilizationRatio(s, b);
      && 0 <= util <= 10_000 && util * s <= b * 10_000
      && (util < 10_000 && s > 0 ==> b * 10_000 < (util + 1) * s)
      && (s == 0 ==> util == 0)
  {
    if s > 0 {
      UtilizationBounds(s, b);
      DivBounds(b * 10_000, s);
      DivNonNeg(b * 10_000, s);
    }
  }

  /** The suppliers' rate is the borrowers' rate on the utilised part, less the reserve factor, rounded down. */
  lemma SupplyRateBracket(params: InterestParams, util: nat, rate: nat)
    requires params.reserveFactorBps <= 10_000
    ensures var passed := rate * util * (10_000 - params.reserveFactorBps);
      var srate := SupplyRate(params, util, rate);
      srate * 100_000_000 <= passed < (srate + 1) * 100_000_000
  {
    DivBounds(rate * util * (10_000 - params.reserveFactorBps), 100_000_000);
  }

  // ---------------------------------------------------------------- interest on an amount

  /**
   * `x` is the interest on `amount` over `elapsed` seconds at an annual rate of `exact / scale` basis points,
   * short of it by the rounding of the rate (`slack`), of the growth factor and of the amount.
   */
  predicate ChargedAt(x: int, amount: int, elapsed: nat, exact: nat, scale: nat, slack: nat) {
    && x * GROWTH_DENOMINATOR * scale <= amount * elapsed * exact
    && amount * elapsed * RATE_SCALE * exact
         < ((x + 1) * RATE_SCALE + amount) * GROWTH_DENOMINATOR * scale + slack * (amount * elapsed * RATE_SCALE)
  }

  /** The growth factor and the interest on an amount, at a whole rate. */
  lemma ChargedAtRate(amount: nat, rate: nat, elapsed: nat)
    ensures var x := InterestOn(amount, Growth(rate, elapsed));
      && 0 <= x && x * GROWTH_DENOMINATOR <= amount * elapsed * rate
      && amount * elapsed * RATE_SCALE * rate < ((x + 1) * RATE_SCALE + amount) * GROWTH_DENOMINATOR
  {
    var g := Growth(rate, elapsed);
    var x := InterestOn(amount, g);
    var y := rate * elapsed * RATE_SCALE;
    DivBounds(y, GROWTH_DENOMINATOR);
    MulNonNeg(amount, g);
    DivBounds(amount * g, RATE_SCALE);
    DivNonNeg(amount * g, RATE_SCALE);
    RateCore(amount, rate, elapsed, g, x, GROWTH_DENOMINATOR, RATE_SCALE);
  }

  lemma RateCore(amount: nat, rate: nat, elapsed: nat, g: nat, x: nat, d: nat, n: nat)
    requires 0 < d && 0 < n
    requires g * d <= rate * elapsed * n < (g + 1) * d
    requires x * n <= amount * g < (x + 1) * n
    ensures x * d <= amount * elapsed * rate
    ensures amount * elapsed * n * rate < ((x + 1) * n + amount) * d
  {
    var a := amount * elapsed * rate;
    assert a * n == amount * (rate * elapsed * n) by { Shuffle(amount, elapsed, rate, n); }
    MulMono(x * n, amount * g, d);
    MulMono(g * d, rate * elapsed * n, amount);
    MulSwap(x, n, d);
    assert amount * g * d == g * d * amount by { Shuffle(amount, 1, g, d); }
    MulCancel(x * d, a, n);
    MulMono(rate * elapsed * n, (g + 1) * d, amount);
    assert amount * elapsed * n * rate == a * n by { MulSwap(amount * elapsed, n, rate); }
    assert (g + 1) * d * amount == (amount * g + amount) * d by { Widen(amount, g, d); }
    StrictMono(amount * g + amount, (x + 1) * n + amount, d);
  }

  lemma Shuffle(a: int, b: int, c: int, d: int)
    ensures a * b * c * d == a * (c * b * d) && a * c * d == c * d * a
  {
  }

  lemma Widen(a: int, g: int, d: int)
    ensures (g + 1) * d * a == (a * g + a) * d
  {
  }

  lemma StrictMono(a: int, b: int, c: int)
    requires a < b && 0 < c
    ensures a * c < b * c
  {
  }

  /** From a whole rate to the exact one that it rounds. */
  lemma ChargedAtExact(amount: nat, rate: nat, elapsed: nat, exact: nat, scale: nat, slack: nat)
    requires 0 < scale && rate * scale <= exact < rate * scale + slack
    ensures ChargedAt(InterestOn(amount, Growth(rate, elapsed)), amount, elapsed, exact, scale, slack)
  {
    var x := InterestOn(amount, Growth(rate, elapsed));
    var v := amount * elapsed;
    MulNonNeg(amount, elapsed);
    ChargedAtRate(amount, rate, elapsed);
    MulMono(x * GROWTH_DENOMINATOR, v * rate, scale);
    MulMono(rate * scale, exact, v);
    Regroup(v, rate, scale);
    var w := v * RATE_SCALE;
    MulNonNeg(v, RATE_SCALE);
    MulMono(exact, rate * scale + slack, w);
    MulDist(rate * scale, slack, w);
    Regroup(w, rate, scale);
    StrictMono(w * rate, ((x + 1) * RATE_SCALE + amount) * GROWTH_DENOMINATOR, scale);
  }

  lemma Regroup(v: int, rate: int, scale: int)
    ensures v * rate * scale == rate * scale * v
  {
  }

  // ---------------------------------------------------------------- one accrual

  /** The exact rate of the suppliers, in units of 10^-12 basis points, and what its roundings can cost. */
  function SupplyCurve(params: InterestParams, util: nat): nat
    requires params.reserveFactorBps <= 10_000
  {
    MulNonNeg(Curve(params, util), util);
    MulNonNeg(Curve(params, util) * util, 10_000 - params.reserveFactorBps);
    Curve(params, util) * util * (10_000 - params.reserveFactorBps)
  }

  function SupplySlack(params: InterestParams, util: nat): nat
    requires params.reserveFactorBps <= 10_000
  {
    MulNonNeg(CurveSlack(params, util), util);
    MulNonNeg(CurveSlack(params, util) * util, 10_000 - params.reserveFactorBps);
    CurveSlack(params, util) * util * (10_000 - params.reserveFactorBps) + 1_000_000_000_000
  }

  lemma SupplyRateOnCurve(params: InterestParams, util: nat)
    requires params.reserveFactorBps <= 10_000
    ensures var srate := SupplyRate(params, util, BorrowRate(params, util));
      srate * 1_000_000_000_000 <= SupplyCurve(params, util)
        < srate * 1_000_000_000_000 + SupplySlack(params, util)
  {
    var rate, pass := BorrowRate(params, util), 10_000 - params.reserveFactorBps;
    RateOnCurve(params, util);
    SupplyRateBracket(params, util, rate);
    SupplyCore(rate, util, pass, SupplyRate(params, util, rate), Curve(params, util), CurveSlack(params, util));
  }

  lemma SupplyCore(rate: nat, util: nat, pass: nat, srate: nat, exact: nat, slack: nat)
    requires srate * 100_000_000 <= rate * util * pass < (srate + 1) * 100_000_000
    requires rate * 10_000 <= exact < rate * 10_000 + slack
    ensures srate * 1_000_000_000_000 <= exact * util * pass
              < srate * 1_000_000_000_000 + slack * util * pass + 1_000_000_000_000
  {
    MulMono(rate * 10_000, exact, util);
    MulMono(rate * 10_000 * util, exact * util, pass);
    MulMono(exact, rate * 10_000 + slack, util);
    MulMono(exact * util, (rate * 10_000 + slack) * util, pass);
    MulDist(rate * 10_000, slack, util);
    MulDist(rate * 10_000 * util, slack * util, pass);
    MulSwap(rate, 10_000, util);
    MulSwap(rate * util, 10_000, pass);
  }

  /**
   * What one accrual charges borrowers and adds to the borrow index: the interest of the two-slope curve at the
   * utilisation of the totals over the elapsed time, short of it by three roundings at most.
   */
  lemma BorrowersCharged(st: InterestState, params: InterestParams, s: nat, b: nat, now: nat)
    requires st.lastAccrual < now && 0 <= st.borrowIndex
    ensures var r := ComputeAccrual(st, params, s, b, now);
      var util, elapsed := UtilizationRatio(s, b), now - st.lastAccrual;
      && ChargedAt(r.toBorrowers, b, elapsed, Curve(params, util), 10_000, CurveSlack(params, util))
      && ChargedAt(r.state.borrowIndex - st.borrowIndex, st.borrowIndex, elapsed, Curve(params, util), 10_000,
                   CurveSlack(params, util))
  {
    hide ChargedAt, Curve, CurveSlack, BorrowRate, Growth, InterestOn, UtilizationRatio, SupplyGrowth;
    var util, elapsed := UtilizationRatio(s, b), now - st.lastAccrual;
    RateOnCurve(params, util);
    ChargedAtExact(b, BorrowRate(params, util), elapsed, Curve(params, util), 10_000, CurveSlack(params, util));
    ChargedAtExact(st.borrowIndex, BorrowRate(params, util), elapsed, Curve(params, util), 10_000, CurveSlack(params, util));
  }

  /** And what it credits suppliers and adds to the supply index: their share of the utilised curve. */
  lemma SuppliersCredited(st: InterestState, params: InterestParams, s: nat, b: nat, now: nat)
    requires st.lastAccrual < now && 0 <= st.supplyIndex && params.reserveFactorBps <= 10_000
    ensures var r := ComputeAccrual(st, params, s, b, now);
      var util, elapsed := UtilizationRatio(s, b), now - st.lastAccrual;
      && ChargedAt(r.toSuppliers, s, elapsed, SupplyCurve(params, util), 1_000_000_000_000, SupplySlack(params, util))
      && ChargedAt(r.state.supplyIndex - st.supplyIndex, st.supplyIndex, elapsed, SupplyCurve(params, util),
                   1_000_000_000_000, SupplySlack(params, util))
  {
    hide ChargedAt, SupplyCurve, SupplySlack, BorrowRate, SupplyRate, Growth, InterestOn, UtilizationRatio, BorrowGrowth;
    var util, elapsed := UtilizationRatio(s, b), now - st.lastAccrual;
    var srate := SupplyRate(params, util, BorrowRate(params, util));
    SupplyRateOnCurve(params, util);
    ChargedAtExact(s, srate, elapsed, SupplyCurve(params, util), 1_000_000_000_000, SupplySlack(params, util));
    ChargedAtExact(st.supplyIndex, srate, elapsed, SupplyCurve(params, util), 1_000_000_000_000, SupplySlack(params, util));
  }

  /**
   * What a persisted accrual does with it: both totals grow by their interest, the reserve by the larger of the
   * two, and the difference, if borrowers pay more, becomes withdrawable fees exactly under a reserve factor.
   */
  lemma AccrualSplits(s: State, a: Address)
    requires AssetOf(s, a).interest.Some? && AssetOf(s, a).interest.value.lastAccrual < s.now
    ensures var r, q := AssetOf(s, a), AssetOf(Accrue(s, a), a);
      var earned := ComputeAccrual(r.interest.value, r.Params(), r.totalDeposited, r.totalBorrowed, s.now);
      var kept := q.balance - r.balance - (q.totalDeposited - r.totalDeposited);
      && q.interest == Some(earned.state)
      && q.totalDeposited - r.totalDeposited == earned.toSuppliers
      && q.totalBorrowed - r.totalBorrowed == earned.toBorrowers
      && kept == Max(earned.toBorrowers - earned.toSuppliers, 0)
      && q.fees - r.fees == q.lifetimeFees - r.lifetimeFees == (if r.Params().reserveFactorBps > 0 then kept else 0)
  {
    hide ComputeAccrual;
  }
}
