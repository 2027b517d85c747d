/** The interest-rate model: utilisation, the two-slope borrow rate, index accrual and position realisation. */
module Interest {
  import opened Arith

  const RATE_SCALE: int := 1_000_000_000
  const SECONDS_PER_YEAR: int := 31_536_000
  /** Annual basis points times seconds per year. */
  const GROWTH_DENOMINATOR: int := 10_000 * SECONDS_PER_YEAR

  datatype InterestParams = InterestParams(
    baseRateBps: nat, kinkUtilBps: nat, slope1Bps: nat, slope2Bps: nat, reserveFactorBps: nat)
  {
    /** What `set_interest_params` accepts. */
    predicate Valid() {
      && 1_000 <= kinkUtilBps <= 9_500
      && baseRateBps + slope1Bps + slope2Bps <= 100_000
      && reserveFactorBps <= 5_000
    }

    predicate ZeroRate() {
      baseRateBps == 0 && slope1Bps == 0 && slope2Bps == 0
    }
  }

  const DEFAULT_PARAMS: InterestParams := InterestParams(0, 8_000, 0, 0, 1_000)

  datatype InterestState = InterestState(supplyIndex: int, borrowIndex: int, lastAccrual: nat)

  datatype Position = Position(deposited: int, borrowed: int, supplySnapshot: int, borrowSnapshot: int)

  datatype AccrualResult = AccrualResult(state: InterestState, toSuppliers: int, toBorrowers: int) {
    /** May be negative: see `DustCanBeNegative`. */
    function Dust(): int {
      toBorrowers - toSuppliers
    }
  }

  function UtilizationRatio(totalSupplied: int, totalBorrowed: int): nat {
    if totalSupplied == 0 then 0
    else AsU32(Min(TruncDiv(totalBorrowed * 10_000, totalSupplied), 10_000))
  }

  function BorrowRate(params: InterestParams, util: nat): nat {
    ShareNonNeg(params.slope1Bps, util, 10_000);
    ShareNonNeg(params.slope1Bps, params.kinkUtilBps, 10_000);
    ShareNonNeg(params.slope2Bps, if util > params.kinkUtilBps then util - params.kinkUtilBps else 0, 10_000);
    if util <= params.kinkUtilBps then
      params.slope1Bps * util / 10_000 + params.baseRateBps
    else
      params.baseRateBps + params.slope1Bps * params.kinkUtilBps / 10_000
      + params.slope2Bps * (util - params.kinkUtilBps) / 10_000
  }

  function SupplyRate(params: InterestParams, util: nat, borrowRate: nat): nat {
    MulNonNeg(borrowRate, util);
    ShareNonNeg(borrowRate * util, Max(10_000 - params.reserveFactorBps, 0), 100_000_000);
    borrowRate * util * Max(10_000 - params.reserveFactorBps, 0) / 100_000_000
  }

  function Growth(annualBps: nat, elapsed: nat): nat {
    MulNonNeg(annualBps, elapsed);
    ShareNonNeg(annualBps * elapsed, RATE_SCALE, GROWTH_DENOMINATOR);
    annualBps * elapsed * RATE_SCALE / GROWTH_DENOMINATOR
  }

  function BorrowGrowth(params: InterestParams, util: nat, elapsed: nat): nat {
    Growth(BorrowRate(params, util), elapsed)
  }

  function SupplyGrowth(params: InterestParams, util: nat, elapsed: nat): nat {
    Growth(SupplyRate(params, util, BorrowRate(params, util)), elapsed)
  }

  /** The interest on `amount` at `growth`, rounding toward zero. */
  function InterestOn(amount: int, growth: nat): int {
    TruncDiv(amount * growth, RATE_SCALE)
  }

  function ComputeAccrual(st: InterestState, params: InterestParams, totalSupplied: int, totalBorrowed: int, now: nat)
    : (r: AccrualResult)
  {
    if now <= st.lastAccrual then
      AccrualResult(st, 0, 0)
    else
      var util := UtilizationRatio(totalSupplied, totalBorrowed);
      var elapsed := now - st.lastAccrual;
      var bg := BorrowGrowth(params, util, elapsed);
      var sg := SupplyGrowth(params, util, elapsed);
      AccrualResult(
        InterestState(InterestOn(st.supplyIndex, sg) + st.supplyIndex, InterestOn(st.borrowIndex, bg) + st.borrowIndex, now),
        InterestOn(totalSupplied, sg),
        InterestOn(totalBorrowed, bg))
  }

  /** One balance moved from index `snapshot` to `index`. */
  function Realise(balance: int, index: int, snapshot: int): int
    requires 0 < snapshot
  {
    if balance > 0 then balance + TruncDiv(balance * (index - snapshot), snapshot) else balance
  }

  function ComputeAccruedPosition(p: Position, st: InterestState): Position {
    if p.borrowSnapshot <= 0 || p.supplySnapshot <= 0 then p
    else Position(
      Realise(p.deposited, st.supplyIndex, p.supplySnapshot),
      Realise(p.borrowed, st.borrowIndex, p.borrowSnapshot),
      st.supplyIndex, st.borrowIndex)
  }

  // ---------------------------------------------------------------- rate model

  lemma RateStep(slope: nat, x: nat, y: nat)
    requires x <= y
    ensures slope * x / 10_000 <= slope * y / 10_000
  {
    MulMono(x, y, slope);
    DivMono(slope * x, slope * y, 10_000);
  }

  /** The borrow rate never falls as utilisation rises, on either side of the kink and across it. */
  lemma BorrowRateMonotone(params: InterestParams, u: nat, v: nat)
    requires u <= v
    ensures BorrowRate(params, u) <= BorrowRate(params, v)
  {
    var kink := params.kinkUtilBps;
    if v <= kink {
      RateStep(params.slope1Bps, u, v);
    } else if u <= kink {
      RateStep(params.slope1Bps, u, kink);
      DivNonNeg(params.slope2Bps * (v - kink), 10_000);
    } else {
      RateStep(params.slope2Bps, u - kink, v - kink);
    }
  }

  /** Full utilisation costs at most the three rate components together. */
  lemma BorrowRateBounded(params: InterestParams, util: nat)
    requires params.Valid() && util <= 10_000
    ensures params.baseRateBps <= BorrowRate(params, util)
    ensures BorrowRate(params, util) <= params.baseRateBps + params.slope1Bps + params.slope2Bps
  {
    BorrowRateMonotone(params, 0, util);
    BorrowRateMonotone(params, util, 10_000);
    MulMono(params.kinkUtilBps, 10_000, params.slope1Bps);
    DivLe(params.slope1Bps * params.kinkUtilBps, 10_000, params.slope1Bps);
    MulMono(10_000 - params.kinkUtilBps, 10_000, params.slope2Bps);
    DivLe(params.slope2Bps * (10_000 - params.kinkUtilBps), 10_000, params.slope2Bps);
  }

  lemma UtilizationBounds(s: int, b: int)
    requires 0 <= s && 0 <= b
    ensures 0 <= UtilizationRatio(s, b) <= 10_000
    ensures UtilizationRatio(s, b) * s <= b * 10_000
  {
    if s > 0 {
      var q := b * 10_000 / s;
      DivNonNeg(b * 10_000, s);
      DivBounds(b * 10_000, s);
      MulMono(Min(q, 10_000), q, s);
    }
  }

  /**
   * The clamp is from above only, and the cast to 32 bits wraps: utilisation stays within 100% exactly when
   * the quotient is not negative, or is so by a multiple of 2^32 up to the clamp. Quotients that a signed
   * 32-bit word can hold leave only the first case.
   */
  lemma UtilizationWithinIff(s: int, b: int)
    requires s != 0
    ensures var q := TruncDiv(b * 10_000, s);
      && (UtilizationRatio(s, b) <= 10_000 <==> q >= 0 || q % 0x1_0000_0000 <= 10_000)
      && (q >= -0x8000_0000 ==> (UtilizationRatio(s, b) <= 10_000 <==> q >= 0))
  {
  }

  /** Far below zero the cast can wrap back to an innocent figure. */
  lemma UtilizationWrapsToZero()
    ensures UtilizationRatio(1, -0x1000_0000) == 0
  {
  }

  /** The suppliers' rate is at most the utilised share of the borrowers' rate. */
  lemma SupplyRateShare(params: InterestParams, util: nat, rate: nat)
    ensures SupplyRate(params, util, rate) * 10_000 <= rate * util
  {
    var pass := Max(10_000 - params.reserveFactorBps, 0);
    var x := rate * util;
    assert x * pass <= x * 10_000 by { MulMono(pass, 10_000, x); }
    DivBounds(x * pass, 100_000_000);
    assert rate * util * pass == x * pass;
  }

  lemma GrowthMono(r: nat, t: nat, elapsed: nat)
    requires r <= t
    ensures Growth(r, elapsed) <= Growth(t, elapsed)
  {
    MulMono(r, t, elapsed);
    MulMono(r * elapsed, t * elapsed, RATE_SCALE);
    DivMono(r * elapsed * RATE_SCALE, t * elapsed * RATE_SCALE, GROWTH_DENOMINATOR);
  }

  /** Suppliers never grow faster than borrowers. */
  lemma SupplyGrowthAtMostBorrowGrowth(params: InterestParams, util: nat, elapsed: nat)
    requires util <= 10_000
    ensures SupplyGrowth(params, util, elapsed) <= BorrowGrowth(params, util, elapsed)
  {
    var rate := BorrowRate(params, util);
    SupplyRateShare(params, util, rate);
    MulMono(util, 10_000, rate);
    assert SupplyRate(params, util, rate) * 10_000 <= rate * 10_000;
    GrowthMono(SupplyRate(params, util, rate), rate, elapsed);
  }

  /** For accepted parameters and any 64-bit elapsed time, no product of the growth computation leaves i128. */
  lemma GrowthFitsI128(params: InterestParams, util: nat, elapsed: nat)
    requires params.Valid() && util <= 10_000 && elapsed <= U64_MAX
    ensures BorrowRate(params, util) * elapsed * RATE_SCALE <= I128_MAX
    ensures SupplyRate(params, util, BorrowRate(params, util)) * elapsed * RATE_SCALE <= I128_MAX
    ensures SupplyGrowth(params, util, elapsed) <= BorrowGrowth(params, util, elapsed) <= I128_MAX
  {
    BorrowRateBounded(params, util);
    SupplyGrowthAtMostBorrowGrowth(params, util, elapsed);
    var rate := BorrowRate(params, util);
    var srate := SupplyRate(params, util, rate);
    SupplyRateShare(params, util, rate);
    MulMono(util, 10_000, rate);
    MulMono(rate, 100_000, elapsed);
    MulMono(srate, rate, elapsed);
    assert rate * elapsed * RATE_SCALE <= 100_000 * U64_MAX * RATE_SCALE;
    DivNonNeg(rate * elapsed * RATE_SCALE, GROWTH_DENOMINATOR);
  }

  /** Time only moves both indexes up, whatever the totals are. */
  lemma IndexesNeverFall(st: InterestState, params: InterestParams, s: int, b: int, now: nat)
    requires 0 <= st.supplyIndex && 0 <= st.borrowIndex
    ensures var r := ComputeAccrual(st, params, s, b, now).state;
      && st.supplyIndex <= r.supplyIndex && st.borrowIndex <= r.borrowIndex
      && st.lastAccrual <= r.lastAccrual && now <= r.lastAccrual
  {
    if st.lastAccrual < now {
      var util := UtilizationRatio(s, b);
      var elapsed := now - st.lastAccrual;
      DivNonNeg(st.supplyIndex * SupplyGrowth(params, util, elapsed), RATE_SCALE);
      DivNonNeg(st.borrowIndex * BorrowGrowth(params, util, elapsed), RATE_SCALE);
    }
  }

  // ---------------------------------------------------------------- rounding of one accrual

  /** The step below on the truncated quotients alone; `slack` is 1, or 0 when the division is exact. */
  lemma GapCore(sg: nat, bg: nat, d: nat, x: nat, y: nat, util: nat, slack: nat)
    requires 0 < d && sg * d <= x && y <= (bg + slack) * d && x * 10_000 <= y * util
    ensures sg * 10_000 <= util * (bg + slack)
  {
    MulMono(sg * d, x, 10_000);
    MulSwap(sg, d, 10_000);
    MulMono(y, (bg + slack) * d, util);
    MulSwap(bg + slack, d, util);
    MulCancel(sg * 10_000, (bg + slack) * util, d);
  }

  /** `sg * 10000 <= util * (bg + 1)`: one truncation separates the two growth factors. */
  lemma GrowthGap(srate: nat, rate: nat, util: nat, elapsed: nat)
    requires srate * 10_000 <= rate * util
    ensures Growth(srate, elapsed) * 10_000 <= util * (Growth(rate, elapsed) + 1)
    ensures Growth(rate, elapsed) * GROWTH_DENOMINATOR == rate * elapsed * RATE_SCALE ==>
      Growth(srate, elapsed) * 10_000 <= util * Growth(rate, elapsed)
  {
    var x, y := srate * elapsed * RATE_SCALE, rate * elapsed * RATE_SCALE;
    var sg, bg := Growth(srate, elapsed), Growth(rate, elapsed);
    DivBounds(x, GROWTH_DENOMINATOR);
    DivBounds(y, GROWTH_DENOMINATOR);
    ScaledShare(srate, rate, util, elapsed);
    MulNonNeg(srate, elapsed);
    MulNonNeg(rate, elapsed);
    GapCore(sg, bg, GROWTH_DENOMINATOR, x, y, util, 1);
    if bg * GROWTH_DENOMINATOR == y {
      GapCore(sg, bg, GROWTH_DENOMINATOR, x, y, util, 0);
    }
  }

  lemma ScaledShare(srate: nat, rate: nat, util: nat, elapsed: nat)
    requires srate * 10_000 <= rate * util
    ensures srate * elapsed * RATE_SCALE * 10_000 <= rate * elapsed * RATE_SCALE * util
  {
    MulMono(srate * 10_000, rate * util, elapsed);
    MulSwap(srate, 10_000, elapsed);
    MulSwap(rate, util, elapsed);
    MulMono(srate * elapsed * 10_000, rate * elapsed * util, RATE_SCALE);
    MulSwap(srate * elapsed, 10_000, RATE_SCALE);
    MulSwap(rate * elapsed, util, RATE_SCALE);
  }

  /** From growth factors to amounts: `s * sg <= b * g` when `sg * 10000 <= util * g`. */
  lemma GapToAmounts(s: nat, b: nat, util: nat, sg: nat, g: nat)
    requires util * s <= b * 10_000
    requires sg * 10_000 <= util * g
    ensures s * sg <= b * g
  {
    MulMono(sg * 10_000, util * g, s);
    MulMono(util * s, b * 10_000, g);
    assert util * g * s == util * s * g;
    assert sg * 10_000 * s == (s * sg) * 10_000;
    assert b * 10_000 * g == (b * g) * 10_000;
  }

  lemma GrowthFactorsShare(params: InterestParams, util: nat, elapsed: nat)
    ensures SupplyGrowth(params, util, elapsed) * 10_000 <= util * (BorrowGrowth(params, util, elapsed) + 1)
    ensures BorrowGrowth(params, util, elapsed) * GROWTH_DENOMINATOR
              == BorrowRate(params, util) * elapsed * RATE_SCALE ==>
            SupplyGrowth(params, util, elapsed) * 10_000 <= util * BorrowGrowth(params, util, elapsed)
  {
    var rate := BorrowRate(params, util);
    SupplyRateShare(params, util, rate);
    GrowthGap(SupplyRate(params, util, rate), rate, util, elapsed);
  }

  /**
   * The accrual credits suppliers at most what borrowers are charged, plus one unit per RATE_SCALE
   * borrowed and one more: five truncations and the utilisation clamp cost no more than that.
   */
  lemma SupplierInterestBound(st: InterestState, params: InterestParams, s: nat, b: nat, now: nat)
    ensures var r := ComputeAccrual(st, params, s, b, now);
      0 <= r.toSuppliers <= r.toBorrowers + b / RATE_SCALE + 1 && 0 <= r.toBorrowers
  {
    if st.lastAccrual < now {
      var util, elapsed := UtilizationRatio(s, b), now - st.lastAccrual;
      UtilizationBounds(s, b);
      var bg, sg := BorrowGrowth(params, util, elapsed), SupplyGrowth(params, util, elapsed);
      GrowthFactorsShare(params, util, elapsed);
      GapToAmounts(s, b, util, sg, bg + 1);
      assert b * (bg + 1) == b * bg + b;
      DivMono(s * sg, b * bg + b, RATE_SCALE);
      DivSuperAdd(b * bg, b, RATE_SCALE);
      DivNonNeg(s * sg, RATE_SCALE);
      DivNonNeg(b * bg, RATE_SCALE);
    }
    DivNonNeg(b, RATE_SCALE);
  }

  /** When the borrow growth division is exact, suppliers never receive more than borrowers pay. */
  lemma ExactGrowthHasNoNegativeDust(st: InterestState, params: InterestParams, s: nat, b: nat, now: nat)
    requires st.lastAccrual < now
    requires var util := UtilizationRatio(s, b);
      var elapsed := now - st.lastAccrual;
      BorrowGrowth(params, util, elapsed) * GROWTH_DENOMINATOR == BorrowRate(params, util) * elapsed * RATE_SCALE
    ensures ComputeAccrual(st, params, s, b, now).Dust() >= 0
  {
    var util, elapsed := UtilizationRatio(s, b), now - st.lastAccrual;
    UtilizationBounds(s, b);
    GrowthFactorsShare(params, util, elapsed);
    GapToAmounts(s, b, util, SupplyGrowth(params, util, elapsed), BorrowGrowth(params, util, elapsed));
    DivMono(s * SupplyGrowth(params, util, elapsed), b * BorrowGrowth(params, util, elapsed), RATE_SCALE);
  }

  /** One percent a year, six seconds, ninety percent utilised: suppliers gain ten units, borrowers owe nine. */
  lemma DustCanBeNegative()
    ensures ComputeAccrual(
              InterestState(RATE_SCALE, RATE_SCALE, 0), InterestParams(100, 8_000, 0, 0, 0),
              10_000_000_000, 9_000_000_000, 6).Dust() == -1
  {
    var params := InterestParams(100, 8_000, 0, 0, 0);
    assert UtilizationRatio(10_000_000_000, 9_000_000_000) == 9_000;
    assert BorrowRate(params, 9_000) == 100;
    assert SupplyRate(params, 9_000, 100) == 90;
    assert Growth(100, 6) == 1;
    assert Growth(90, 6) == 1;
  }

  /**
   * Exactly when the dust is never negative: at utilisation `util` and over `elapsed` seconds every pair of
   * totals keeps suppliers' interest within borrowers' interest if and only if the rounded growth factors
   * keep the utilised share, which a caller can compute from the parameters and the clock alone.
   */
  lemma DustNonNegativeIff(params: InterestParams, util: nat, elapsed: nat)
    requires util <= 10_000
    ensures SupplyGrowth(params, util, elapsed) * 10_000 <= util * BorrowGrowth(params, util, elapsed)
      <==> forall s: nat, b: nat | UtilizationRatio(s, b) == util ::
             InterestOn(s, SupplyGrowth(params, util, elapsed)) <= InterestOn(b, BorrowGrowth(params, util, elapsed))
  {
    var sg, bg := SupplyGrowth(params, util, elapsed), BorrowGrowth(params, util, elapsed);
    if sg * 10_000 <= util * bg {
      forall s: nat, b: nat | UtilizationRatio(s, b) == util
        ensures InterestOn(s, sg) <= InterestOn(b, bg)
      {
        UtilizationBounds(s, b);
        GapToAmounts(s, b, util, sg, bg);
        DivMono(s * sg, b * bg, RATE_SCALE);
      }
    } else {
      var s, b := 10_000 * RATE_SCALE, util * RATE_SCALE;
      DivUnique(b * 10_000, s, util);
      assert UtilizationRatio(s, b) == util;
      DivUnique(s * sg, RATE_SCALE, 10_000 * sg);
      DivUnique(b * bg, RATE_SCALE, util * bg);
      assert InterestOn(s, sg) > InterestOn(b, bg);
    }
  }

  // ---------------------------------------------------------------- realisation

  /** A positive balance realises to `balance * index / snapshot`, rounded down. */
  lemma RealiseIsScaling(balance: nat, index: int, snapshot: int)
    requires 0 < snapshot <= index
    ensures Realise(balance, index, snapshot) == balance * index / snapshot
    ensures balance <= Realise(balance, index, snapshot)
    ensures Realise(balance, index, snapshot) * snapshot <= balance * index < (Realise(balance, index, snapshot) + 1) * snapshot
  {
    var d := index - snapshot;
    var g := balance * d;
    MulNonNeg(balance, d);
    DivBounds(g, snapshot);
    DivNonNeg(g, snapshot);
    var q := g / snapshot;
    MulDistLeft(balance, snapshot, d);
    MulDist(balance, q, snapshot);
    MulDist(balance, q + 1, snapshot);
    DivUnique(balance * index, snapshot, balance + q);
  }

  /** Realising twice against one state is realising once. */
  lemma RealiseIdempotent(p: Position, st: InterestState)
    requires 0 < st.supplyIndex && 0 < st.borrowIndex
    ensures ComputeAccruedPosition(ComputeAccruedPosition(p, st), st) == ComputeAccruedPosition(p, st)
  {
    var q := ComputeAccruedPosition(p, st);
    assert q.deposited * (st.supplyIndex - st.supplyIndex) == 0;
    assert q.borrowed * (st.borrowIndex - st.borrowIndex) == 0;
  }

  /** Touching a position at every index of `chain` in turn. */
  function TouchChain(balance: int, start: int, chain: seq<int>): int
    requires 0 < start && forall i | 0 <= i < |chain| :: 0 < chain[i]
  {
    if |chain| == 0 then balance
    else
      var before := chain[..|chain| - 1];
      Realise(TouchChain(balance, start, before), Last(chain), LastOr(before, start))
  }

  function Last(chain: seq<int>): int
    requires |chain| > 0
  {
    chain[|chain| - 1]
  }

  function LastOr(chain: seq<int>, start: int): int {
    if |chain| == 0 then start else Last(chain)
  }

  ghost predicate Rising(start: int, chain: seq<int>) {
    && 0 < start
    && (forall i | 0 <= i < |chain| :: start <= chain[i])
    && (forall i, j | 0 <= i < j < |chain| :: chain[i] <= chain[j])
  }

  /** The sum of the reciprocals of the indexes at which the position was touched. */
  ghost function ReciprocalSum(chain: seq<int>): real
    requires forall i | 0 <= i < |chain| :: 0 < chain[i]
  {
    if |chain| == 0 then 0.0
    else ReciprocalSum(chain[..|chain| - 1]) + 1.0 / (Last(chain) as real)
  }

  /** Cross-multiplied transitivity: `b/x <= a/i` and `r/i <= b/j` read off the common denominators. */
  lemma PathStep(a: int, x: int, b: int, i: int, j: int, r: int)
    requires 0 < x && 0 < i && 0 <= j
    requires b * x <= a * i && r * i <= b * j
    ensures r * x <= a * j
  {
    MulMono(r * i, b * j, x);
    MulMono(b * x, a * i, j);
    assert (r * i) * x == (r * x) * i;
    assert (b * j) * x == (b * x) * j;
    assert (a * i) * j == (a * j) * i;
    MulCancel(r * x, a * j, i);
  }

  /** More touches never earn more: the path is bounded by one realisation from the first index to the last. */
  lemma {:induction false} TouchPathNeverGains(balance: nat, start: int, chain: seq<int>)
    requires Rising(start, chain)
    ensures balance <= TouchChain(balance, start, chain)
    ensures TouchChain(balance, start, chain) * start <= balance * LastOr(chain, start)
    ensures TouchChain(balance, start, chain) <= Realise(balance, LastOr(chain, start), start)
  {
    RealiseIsScaling(balance, LastOr(chain, start), start);
    if |chain| == 0 {
    } else {
      var before := chain[..|chain| - 1];
      TouchPathNeverGains(balance, start, before);
      var b, i, j := TouchChain(balance, start, before), LastOr(before, start), Last(chain);
      var r := TouchChain(balance, start, chain);
      RealiseIsScaling(b, j, i);
      PathStep(balance, start, b, i, j, r);
      DivGe(balance * j, start, r);
    }
  }

  /** One touch costs less than one unit, measured against the index at which it happened. */
  lemma TouchLoss(b: nat, r: nat, i: int, j: int)
    requires 0 < i && 0 < j && b * j < (r + 1) * i
    ensures (r as real) / (j as real) > (b as real) / (i as real) - 1.0 / (j as real)
  {
    var br, rr, ir, jr := b as real, r as real, i as real, j as real;
    assert br * jr < (rr + 1.0) * ir by {
      assert br * jr == (b * j) as real;
      assert (rr + 1.0) * ir == ((r + 1) * i) as real;
    }
    var x, y := br / ir, (rr + 1.0) / jr;
    assert x * ir == br && y * jr == rr + 1.0;
    assert x * (ir * jr) < y * (ir * jr);
    assert x < y;
    assert y == rr / jr + 1.0 / jr;
  }

  /**
   * Nor do they lose much: measured in units of the index, the path falls short of the exact (unrounded)
   * growth by less than the reciprocals of the indexes touched, so the loss is below the sum of
   * `last / chain[k]` over the touches.
   */
  lemma {:induction false} TouchPathLossBound(balance: nat, start: int, chain: seq<int>)
    requires Rising(start, chain)
    ensures |chain| > 0 ==>
      (TouchChain(balance, start, chain) as real) / (LastOr(chain, start) as real)
        > (balance as real) / (start as real) - ReciprocalSum(chain)
    ensures |chain| == 0 ==> TouchChain(balance, start, chain) == balance
  {
    if |chain| > 0 {
      var before := chain[..|chain| - 1];
      TouchPathLossBound(balance, start, before);
      TouchPathNeverGains(balance, start, before);
      TouchPathNeverGains(balance, start, chain);
      var b, i, j := TouchChain(balance, start, before), LastOr(before, start), Last(chain);
      RealiseIsScaling(b, j, i);
      TouchLoss(b, TouchChain(balance, start, chain), i, j);
    }
  }

  /** A position touched against each interest state in turn. */
  function Touches(p: Position, states: seq<InterestState>): Position {
    if |states| == 0 then p
    else ComputeAccruedPosition(Touches(p, states[..|states| - 1]), states[|states| - 1])
  }

  function SupplyIndexes(states: seq<InterestState>): seq<int> {
    seq(|states|, i requires 0 <= i < |states| => states[i].supplyIndex)
  }

  function BorrowIndexes(states: seq<InterestState>): seq<int> {
    seq(|states|, i requires 0 <= i < |states| => states[i].borrowIndex)
  }

  /** Both balances of a touched position follow the chains of the two indexes. */
  lemma {:induction false} TouchesFollowChains(p: Position, states: seq<InterestState>)
    requires 0 < p.supplySnapshot && 0 < p.borrowSnapshot
    requires forall i | 0 <= i < |states| :: 0 < states[i].supplyIndex && 0 < states[i].borrowIndex
    ensures Touches(p, states) == Position(
              TouchChain(p.deposited, p.supplySnapshot, SupplyIndexes(states)),
              TouchChain(p.borrowed, p.borrowSnapshot, BorrowIndexes(states)),
              LastOr(SupplyIndexes(states), p.supplySnapshot),
              LastOr(BorrowIndexes(states), p.borrowSnapshot))
  {
    if |states| > 0 {
      var before := states[..|states| - 1];
      TouchesFollowChains(p, before);
      assert SupplyIndexes(states)[..|states| - 1] == SupplyIndexes(before);
      assert BorrowIndexes(states)[..|states| - 1] == BorrowIndexes(before);
    }
  }

  // ---------------------------------------------------------------- positions against the aggregate

  function Sum(xs: seq<int>): int {
    if |xs| == 0 then 0 else Sum(xs[..|xs| - 1]) + xs[|xs| - 1]
  }

  function RealiseAll(xs: seq<int>, index: int, snapshot: int): seq<int>
    requires 0 < snapshot
  {
    seq(|xs|, i requires 0 <= i < |xs| => Realise(xs[i], index, snapshot))
  }

  lemma RealiseAllPrefix(xs: seq<int>, index: int, snapshot: int)
    requires 0 < snapshot && |xs| > 0
    ensures RealiseAll(xs, index, snapshot)[..|xs| - 1] == RealiseAll(xs[..|xs| - 1], index, snapshot)
  {
  }

  /** Realising one by one never yields more than realising the sum. */
  lemma {:induction false} RealiseAllAtMostSum(xs: seq<int>, index: int, snapshot: int)
    requires 0 < snapshot <= index
    requires forall i | 0 <= i < |xs| :: 0 <= xs[i]
    ensures 0 <= Sum(xs)
    ensures Sum(RealiseAll(xs, index, snapshot)) * snapshot <= Sum(xs) * index
  {
    if |xs| > 0 {
      RealiseAllPrefix(xs, index, snapshot);
      RealiseAllAtMostSum(xs[..|xs| - 1], index, snapshot);
      var last := xs[|xs| - 1];
      RealiseIsScaling(last, index, snapshot);
      AddBounds(Sum(RealiseAll(xs[..|xs| - 1], index, snapshot)), Realise(last, index, snapshot), snapshot,
        Sum(xs[..|xs| - 1]), last, index);
    }
  }

  lemma AddBounds(x: int, y: int, n: int, a: int, b: int, m: int)
    requires x * n <= a * m && y * n <= b * m
    ensures (x + y) * n <= (a + b) * m
  {
    assert (x + y) * n == x * n + y * n;
    assert (a + b) * m == a * m + b * m;
  }

  /** If `sum` grows to `got` by at most the index's growth, it grows by at most the interest on `total`. */
  lemma GainWithinInterest(sum: int, got: int, total: int, index: int, grown: int, growth: nat)
    requires 0 < index && 0 <= sum <= total
    requires got * index <= sum * grown
    requires (grown - index) * RATE_SCALE <= index * growth
    ensures got <= total + total * growth / RATE_SCALE
  {
    var gain := got - sum;
    assert gain * index <= sum * (grown - index) by {
      assert gain * index == got * index - sum * index;
      assert sum * (grown - index) == sum * grown - sum * index;
    }
    PathStep(growth, RATE_SCALE, grown - index, index, sum, gain);
    MulMono(sum, total, growth);
    DivGe(total * growth, RATE_SCALE, gain);
  }

  /**
   * The core of both halves: an index grown by `growth` carries any balances within `total` to realised
   * balances within the grown total.
   */
  lemma GrownIndexWithinTotal(xs: seq<int>, index: int, growth: nat, total: int)
    requires 0 < index
    requires forall i | 0 <= i < |xs| :: 0 <= xs[i]
    requires Sum(xs) <= total
    ensures index <= InterestOn(index, growth) + index
    ensures Sum(RealiseAll(xs, InterestOn(index, growth) + index, index)) <= total + InterestOn(total, growth)
  {
    var grown := InterestOn(index, growth) + index;
    DivNonNeg(index * growth, RATE_SCALE);
    DivBounds(index * growth, RATE_SCALE);
    RealiseAllAtMostSum(xs, grown, index);
    MulMono(0, total, growth);
    GainWithinInterest(Sum(xs), Sum(RealiseAll(xs, grown, index)), total, index, grown, growth);
  }

  /** Every accrual, idle or not, is interest at some pair of growth factors. */
  lemma AccrualAsGrowth(st: InterestState, params: InterestParams, s: int, b: int, now: nat) returns (sg: nat, bg: nat)
    ensures var r := ComputeAccrual(st, params, s, b, now);
      && r.state.supplyIndex == InterestOn(st.supplyIndex, sg) + st.supplyIndex
      && r.state.borrowIndex == InterestOn(st.borrowIndex, bg) + st.borrowIndex
      && r.toSuppliers == InterestOn(s, sg) && r.toBorrowers == InterestOn(b, bg)
  {
    if st.lastAccrual < now {
      var util, elapsed := UtilizationRatio(s, b), now - st.lastAccrual;
      sg, bg := SupplyGrowth(params, util, elapsed), BorrowGrowth(params, util, elapsed);
    } else {
      sg, bg := 0, 0;
    }
  }

  /**
   * One accrual never credits users more than the aggregates: for any number of positions anchored at the
   * old indexes, realised deposits stay within the new total supplied and realised debts within the new
   * total borrowed.
   */
  lemma OneAccrualWithinAggregates(
    st: InterestState, params: InterestParams, s: int, b: int, now: nat, deposits: seq<int>, debts: seq<int>)
    requires 0 < st.supplyIndex && 0 < st.borrowIndex
    requires forall i | 0 <= i < |deposits| :: 0 <= deposits[i]
    requires forall i | 0 <= i < |debts| :: 0 <= debts[i]
    requires Sum(deposits) <= s && Sum(debts) <= b
    ensures var r := ComputeAccrual(st, params, s, b, now);
      && Sum(RealiseAll(deposits, r.state.supplyIndex, st.supplyIndex)) <= s + r.toSuppliers
      && Sum(RealiseAll(debts, r.state.borrowIndex, st.borrowIndex)) <= b + r.toBorrowers
  {
    hide ComputeAccrual, InterestOn, Sum, RealiseAll;
    var sg, bg := AccrualAsGrowth(st, params, s, b, now);
    GrownIndexWithinTotal(deposits, st.supplyIndex, sg, s);
    GrownIndexWithinTotal(debts, st.borrowIndex, bg, b);
  }

  /**
   * Two accruals without a touch in between can: a single unit of debt at the maximum rate grows to two
   * units while the aggregate, truncated at each accrual, still says one.
   */
  lemma TwoAccrualsCanOutgrowAggregate()
    ensures var params := InterestParams(100_000, 8_000, 0, 0, 1_000);
      var st0 := InterestState(RATE_SCALE, RATE_SCALE, 0);
      var a1 := ComputeAccrual(st0, params, 2, 1, 1_892_160);
      var a2 := ComputeAccrual(a1.state, params, 2 + a1.toSuppliers, 1 + a1.toBorrowers, 3_784_320);
      && params.Valid()
      && 1 + a1.toBorrowers + a2.toBorrowers == 1
      && Realise(1, a2.state.borrowIndex, st0.borrowIndex) == 2
  {
    var params := InterestParams(100_000, 8_000, 0, 0, 1_000);
    assert UtilizationRatio(2, 1) == 5_000;
    assert BorrowRate(params, 5_000) == 100_000;
    assert SupplyRate(params, 5_000, 100_000) == 45_000;
    assert Growth(100_000, 1_892_160) == 600_000_000;
    assert Growth(45_000, 1_892_160) == 270_000_000;
    var st0 := InterestState(RATE_SCALE, RATE_SCALE, 0);
    var a1 := ComputeAccrual(st0, params, 2, 1, 1_892_160);
    assert a1 == AccrualResult(InterestState(1_270_000_000, 1_600_000_000, 1_892_160), 0, 0);
    var a2 := ComputeAccrual(a1.state, params, 2, 1, 3_784_320);
    assert a2.state.borrowIndex == 2_560_000_000;
  }

  // ---------------------------------------------------------------- drift over many accruals

  /** An index or a total after a list of growth factors, truncated at each. */
  function GrowAll(x: int, gs: seq<nat>): int {
    if |gs| == 0 then x
    else
      var before := GrowAll(x, gs[..|gs| - 1]);
      InterestOn(before, gs[|gs| - 1]) + before
  }

  ghost function Factor(g: nat): real {
    1.0 + (g as real) / (RATE_SCALE as real)
  }

  /** The growth without truncation. */
  ghost function Compound(gs: seq<nat>): real {
    if |gs| == 0 then 1.0 else Compound(gs[..|gs| - 1]) * Factor(gs[|gs| - 1])
  }

  /** What truncating at every accrual can cost: one unit each, grown by what comes after. */
  ghost function Slip(gs: seq<nat>): real {
    if |gs| == 0 then 0.0 else Slip(gs[..|gs| - 1]) * Factor(gs[|gs| - 1]) + 1.0
  }

  lemma RealMono(a: real, b: real, c: real)
    requires a <= b && 0.0 <= c
    ensures a * c <= b * c
  {
  }

  /** One truncated growth loses less than one unit. */
  lemma GrowOnce(y: nat, g: nat)
    ensures var r := InterestOn(y, g) + y;
      && y <= r
      && (y as real) * Factor(g) - 1.0 <= r as real <= (y as real) * Factor(g)
  {
    MulNonNeg(y, g);
    var q := y * g / RATE_SCALE;
    DivBounds(y * g, RATE_SCALE);
    DivNonNeg(y * g, RATE_SCALE);
    var yr, gr, qr, n := y as real, g as real, q as real, RATE_SCALE as real;
    assert (y * g) as real == yr * gr;
    assert qr * n <= yr * gr <= (qr + 1.0) * n;
    var share := gr / n;
    assert yr * Factor(g) == yr + yr * share;
    assert (yr * share) * n == yr * gr;
  }

  lemma FactorPositive(g: nat)
    ensures 1.0 <= Factor(g)
  {
  }

  lemma GrowStep(r: real, y: real, f: real, low: real, high: real)
    requires low <= y <= high && 0.0 <= f && y * f - 1.0 <= r <= y * f
    ensures low * f - 1.0 <= r <= high * f
  {
    RealMono(low, y, f);
    RealMono(y, high, f);
  }

  lemma {:induction false} GrowBounds(x: nat, gs: seq<nat>)
    ensures x <= GrowAll(x, gs)
    ensures (x as real) * Compound(gs) - Slip(gs) <= GrowAll(x, gs) as real <= (x as real) * Compound(gs)
  {
    hide Factor, InterestOn;
    if |gs| > 0 {
      var before, g := gs[..|gs| - 1], gs[|gs| - 1];
      GrowBounds(x, before);
      var y, c, e, f := GrowAll(x, before), Compound(before), Slip(before), Factor(g);
      FactorPositive(g);
      GrowOnce(y, g);
      GrowStep(GrowAll(x, gs) as real, y as real, f, (x as real) * c - e, (x as real) * c);
      RealRegroup(x as real, c, e, f);
    }
  }

  lemma RealRegroup(x: real, c: real, e: real, f: real)
    ensures (x * c - e) * f == x * (c * f) - e * f && x * c * f == x * (c * f)
  {
  }

  /** At most one unit per accrual, each grown by everything. */
  lemma {:induction false} SlipBound(gs: seq<nat>)
    ensures 1.0 <= Compound(gs) && 0.0 <= Slip(gs) <= (|gs| as real) * Compound(gs)
  {
    if |gs| > 0 {
      var before, g := gs[..|gs| - 1], gs[|gs| - 1];
      SlipBound(before);
      SlipStep(Slip(before), Compound(before), Factor(g), |before| as real);
    }
  }

  lemma SlipStep(e: real, c: real, f: real, n: real)
    requires 1.0 <= c && 1.0 <= f && 0.0 <= n && 0.0 <= e <= n * c
    ensures 1.0 <= c * f && 0.0 <= e * f + 1.0 <= (n + 1.0) * (c * f)
  {
    RealMono(1.0, c, f);
    RealMono(e, n * c, f);
    RealMono(0.0, e, f);
    assert n * c * f == n * (c * f);
    assert (n + 1.0) * (c * f) == n * (c * f) + c * f;
  }

  /** Realising one by one loses at most one unit per position. */
  lemma {:induction false} RealiseAllLosesLittle(xs: seq<int>, index: int, snapshot: int)
    requires 0 < snapshot <= index
    requires forall i | 0 <= i < |xs| :: 0 <= xs[i]
    ensures Sum(xs) * index <= (Sum(RealiseAll(xs, index, snapshot)) + |xs|) * snapshot
  {
    if |xs| > 0 {
      RealiseAllPrefix(xs, index, snapshot);
      RealiseAllLosesLittle(xs[..|xs| - 1], index, snapshot);
      var last, got := xs[|xs| - 1], Sum(RealiseAll(xs[..|xs| - 1], index, snapshot));
      var r := Realise(last, index, snapshot);
      RealiseIsScaling(last, index, snapshot);
      MulDist(Sum(xs[..|xs| - 1]), last, index);
      MulDist(got + |xs| - 1, r + 1, snapshot);
    }
  }

  lemma RealCancel(a: real, b: real, c: real)
    requires 0.0 < c && a * c <= b * c
    ensures a <= b
  {
  }

  /** A quotient's bounds, read off the cross-multiplied form. */
  lemma RealQuotient(x: real, y: real, n: real)
    requires 0.0 < n && x * n <= y
    ensures x <= y / n
  {
    assert (y / n) * n == y;
    RealCancel(x, y / n, n);
  }

  lemma RealQuotientAbove(x: real, y: real, n: real)
    requires 0.0 < n && y <= x * n
    ensures y / n <= x
  {
    assert (y / n) * n == y;
    RealCancel(y / n, x, n);
  }

  /** `sum * grown / index` when `grown` lies between `index * c - e` and `index * c`. */
  lemma ScaledBounds(sum: real, grown: real, index: real, c: real, e: real)
    requires 0.0 < index && 0.0 <= sum && index * c - e <= grown <= index * c
    ensures sum * c - sum / index * e <= sum * grown / index <= sum * c
  {
    var k := sum / index;
    assert k * index == sum;
    assert 0.0 <= k by { RealQuotient(0.0, sum, index); }
    RealMono(index * c - e, grown, k);
    RealMono(grown, index * c, k);
    assert sum * grown / index == k * grown by {
      assert (k * grown) * index == sum * grown;
    }
    assert k * (index * c) == sum * c;
    assert k * (index * c - e) == sum * c - k * e;
  }

  /** Growth on what was never a position, one unit per position, and the index's truncations on what was. */
  ghost function Allowance(unowned: real, n: real, sum: real, index: real, c: real, e: real): real
    requires index != 0.0
  {
    unowned * c + n + sum / index * e
  }

  /** A grown figure against its exact growth. */
  ghost predicate Within(x: real, grown: real, c: real, e: real) {
    x * c - e <= grown <= x * c
  }

  /** A realised sum against its exact scaling, which loses at most one unit for each of `n` positions. */
  ghost predicate RealisedWithin(got: real, n: real, index: real, sum: real, grown: real) {
    got * index <= sum * grown <= (got + n) * index
  }

  lemma GrowWithin(x: nat, gs: seq<nat>)
    ensures x <= GrowAll(x, gs) && Within(x as real, GrowAll(x, gs) as real, Compound(gs), Slip(gs))
  {
    hide GrowAll, Compound, Slip;
    GrowBounds(x, gs);
  }

  /**
   * Positions left untouched through any number of accruals stay close to their aggregate: the realised sum
   * exceeds the aggregate by at most the truncations of the aggregate, and falls short of it by at most what
   * was never a position, one unit per position, and the truncations of the index.
   */
  lemma PositionsTrackAggregate(xs: seq<int>, total: nat, index: int, gs: seq<nat>)
    requires 0 < index
    requires (forall i | 0 <= i < |xs| :: 0 <= xs[i]) && 0 <= Sum(xs) <= total
    ensures index <= GrowAll(index, gs)
    ensures var got := Sum(RealiseAll(xs, GrowAll(index, gs), index)) as real;
      var aggregate := GrowAll(total, gs) as real;
      && got - aggregate <= Slip(gs)
      && aggregate - got <= Allowance((total - Sum(xs)) as real, |xs| as real, Sum(xs) as real, index as real,
                                      Compound(gs), Slip(gs))
  {
    hide GrowAll, Slip, Compound, Sum, RealiseAll, Within, RealisedWithin, Allowance;
    var grown, aggregate, sum := GrowAll(index, gs), GrowAll(total, gs), Sum(xs);
    GrowWithin(index, gs);
    GrowWithin(total, gs);
    SlipBound(gs);
    RealisedCross(xs, grown, index);
    assert (total - sum) as real == total as real - sum as real;
    TrackCore(Sum(RealiseAll(xs, grown, index)) as real, |xs| as real, index as real, sum as real, grown as real,
      total as real, aggregate as real, Compound(gs), Slip(gs));
  }

  lemma RealisedCross(xs: seq<int>, grown: int, index: int)
    requires 0 < index <= grown && forall i | 0 <= i < |xs| :: 0 <= xs[i]
    ensures RealisedWithin(Sum(RealiseAll(xs, grown, index)) as real, |xs| as real, index as real, Sum(xs) as real, grown as real)
  {
    hide Sum, RealiseAll;
    RealiseAllAtMostSum(xs, grown, index);
    RealiseAllLosesLittle(xs, grown, index);
    CrossMultiplied(Sum(RealiseAll(xs, grown, index)), |xs|, index, Sum(xs), grown);
  }

  /** The arithmetic of the bound, on reals alone. */
  lemma TrackCore(got: real, n: real, index: real, sum: real, grown: real, total: real, aggregate: real, c: real, e: real)
    requires 0.0 < index && 0.0 <= sum <= total && 0.0 <= c
    requires RealisedWithin(got, n, index, sum, grown)
    requires Within(index, grown, c, e) && Within(total, aggregate, c, e)
    ensures got - aggregate <= e
    ensures aggregate - got <= Allowance(total - sum, n, sum, index, c, e)
  {
    RealQuotient(got, sum * grown, index);
    RealQuotientAbove(got + n, sum * grown, index);
    ScaledBounds(sum, grown, index, c, e);
    RealMono(sum, total, c);
    RealMinus(total, sum, c);
  }

  lemma RealMinus(a: real, b: real, c: real)
    ensures (a - b) * c == a * c - b * c
  {
  }

  lemma CrossMultiplied(got: int, n: nat, index: int, sum: int, grown: int)
    requires got * index <= sum * grown <= (got + n) * index
    ensures (got as real) * (index as real) <= (sum as real) * (grown as real)
              <= ((got as real) + (n as real)) * (index as real)
  {
    assert (got * index) as real == (got as real) * (index as real);
    assert (sum * grown) as real == (sum as real) * (grown as real);
    assert ((got + n) * index) as real == ((got as real) + (n as real)) * (index as real);
  }

  datatype Pool = Pool(state: InterestState, supplied: int, borrowed: int)

  /** The asset after accruals at the given times, with nothing else in between. */
  function AccrueAt(pool: Pool, params: InterestParams, times: seq<nat>): Pool {
    if |times| == 0 then pool
    else
      var before := AccrueAt(pool, params, times[..|times| - 1]);
      var r := ComputeAccrual(before.state, params, before.supplied, before.borrowed, times[|times| - 1]);
      Pool(r.state, before.supplied + r.toSuppliers, before.borrowed + r.toBorrowers)
  }

  /** Supply and borrow growth of one accrual; none if the time has not moved on. */
  function GrowthsAt(pool: Pool, params: InterestParams, now: nat): (nat, nat) {
    if now <= pool.state.lastAccrual then (0, 0)
    else
      var util, elapsed := UtilizationRatio(pool.supplied, pool.borrowed), now - pool.state.lastAccrual;
      (SupplyGrowth(params, util, elapsed), BorrowGrowth(params, util, elapsed))
  }

  function SupplyGrowths(pool: Pool, params: InterestParams, times: seq<nat>): seq<nat> {
    if |times| == 0 then []
    else
      var before := times[..|times| - 1];
      SupplyGrowths(pool, params, before) + [GrowthsAt(AccrueAt(pool, params, before), params, times[|times| - 1]).0]
  }

  function BorrowGrowths(pool: Pool, params: InterestParams, times: seq<nat>): seq<nat> {
    if |times| == 0 then []
    else
      var before := times[..|times| - 1];
      BorrowGrowths(pool, params, before) + [GrowthsAt(AccrueAt(pool, params, before), params, times[|times| - 1]).1]
  }

  lemma GrowAllAppend(x: int, gs: seq<nat>, g: nat)
    ensures GrowAll(x, gs + [g]) == InterestOn(GrowAll(x, gs), g) + GrowAll(x, gs)
  {
    assert (gs + [g])[..|gs|] == gs;
  }

  lemma OneAccrualGrows(pool: Pool, params: InterestParams, now: nat)
    ensures var r := ComputeAccrual(pool.state, params, pool.supplied, pool.borrowed, now);
      var (sg, bg) := GrowthsAt(pool, params, now);
      && r.state.supplyIndex == InterestOn(pool.state.supplyIndex, sg) + pool.state.supplyIndex
      && r.state.borrowIndex == InterestOn(pool.state.borrowIndex, bg) + pool.state.borrowIndex
      && r.toSuppliers == InterestOn(pool.supplied, sg) && r.toBorrowers == InterestOn(pool.borrowed, bg)
  {
    hide SupplyGrowth, BorrowGrowth, UtilizationRatio;
  }

  /** Index and total of each side grow by the same factors, each truncated on its own. */
  lemma {:induction false} AccrualsGrow(pool: Pool, params: InterestParams, times: seq<nat>)
    ensures var end := AccrueAt(pool, params, times);
      var sgs, bgs := SupplyGrowths(pool, params, times), BorrowGrowths(pool, params, times);
      && |sgs| == |bgs| == |times|
      && end.state.supplyIndex == GrowAll(pool.state.supplyIndex, sgs) && end.supplied == GrowAll(pool.supplied, sgs)
      && end.state.borrowIndex == GrowAll(pool.state.borrowIndex, bgs) && end.borrowed == GrowAll(pool.borrowed, bgs)
  {
    hide ComputeAccrual, GrowthsAt, InterestOn;
    if |times| > 0 {
      var before, now := times[..|times| - 1], times[|times| - 1];
      AccrualsGrow(pool, params, before);
      var mid := AccrueAt(pool, params, before);
      OneAccrualGrows(mid, params, now);
      var (sg, bg) := GrowthsAt(mid, params, now);
      GrowAllAppend(pool.state.supplyIndex, SupplyGrowths(pool, params, before), sg);
      GrowAllAppend(pool.supplied, SupplyGrowths(pool, params, before), sg);
      GrowAllAppend(pool.state.borrowIndex, BorrowGrowths(pool, params, before), bg);
      GrowAllAppend(pool.borrowed, BorrowGrowths(pool, params, before), bg);
    }
  }

  /**
   * After any number of accruals without a touch, at any rates and times, the realised deposits and debts of
   * positions that added up to the aggregates exceed them by at most one unit per accrual, compounded, and
   * fall short by at most one unit per position plus, per `index` units held, one unit per accrual, compounded.
   */
  lemma DriftAfterAccruals(
    pool: Pool, params: InterestParams, times: seq<nat>, deposits: seq<int>, debts: seq<int>)
    requires 0 < pool.state.supplyIndex && 0 < pool.state.borrowIndex
    requires forall i | 0 <= i < |deposits| :: 0 <= deposits[i]
    requires forall i | 0 <= i < |debts| :: 0 <= debts[i]
    requires 0 <= Sum(deposits) == pool.supplied && 0 <= Sum(debts) == pool.borrowed
    ensures var end := AccrueAt(pool, params, times);
      var sgs, bgs := SupplyGrowths(pool, params, times), BorrowGrowths(pool, params, times);
      var owned := Sum(RealiseAll(deposits, end.state.supplyIndex, pool.state.supplyIndex)) as real;
      var owed := Sum(RealiseAll(debts, end.state.borrowIndex, pool.state.borrowIndex)) as real;
      && owned - end.supplied as real <= Slip(sgs)
      && owed - end.borrowed as real <= Slip(bgs)
      && end.supplied as real - owned
           <= |deposits| as real + (pool.supplied as real) / (pool.state.supplyIndex as real) * Slip(sgs)
      && end.borrowed as real - owed
           <= |debts| as real + (pool.borrowed as real) / (pool.state.borrowIndex as real) * Slip(bgs)
      && Slip(sgs) <= (|times| as real) * Compound(sgs) && Slip(bgs) <= (|times| as real) * Compound(bgs)
  {
    hide Sum, RealiseAll, GrowAll, Slip, Compound, AccrueAt, SupplyGrowths, BorrowGrowths;
    AccrualsGrow(pool, params, times);
    var sgs, bgs := SupplyGrowths(pool, params, times), BorrowGrowths(pool, params, times);
    PositionsTrackAggregate(deposits, pool.supplied, pool.state.supplyIndex, sgs);
    PositionsTrackAggregate(debts, pool.borrowed, pool.state.borrowIndex, bgs);
    SlipBound(sgs);
    SlipBound(bgs);
  }

  /** The other direction happens too: two deposits of one unit realise to one each while the aggregate gains one. */
  lemma AggregateCanOutgrowPositions()
    ensures var params := InterestParams(100_000, 8_000, 0, 0, 0);
      var pool := Pool(InterestState(RATE_SCALE, RATE_SCALE, 0), 2, 2);
      var end := AccrueAt(pool, params, [1_576_800]);
      && params.Valid() && end.supplied == 3
      && Realise(1, end.state.supplyIndex, RATE_SCALE) == 1
  {
    var params := InterestParams(100_000, 8_000, 0, 0, 0);
    var pool := Pool(InterestState(RATE_SCALE, RATE_SCALE, 0), 2, 2);
    assert UtilizationRatio(2, 2) == 10_000;
    assert BorrowRate(params, 10_000) == 100_000;
    assert SupplyRate(params, 10_000, 100_000) == 100_000;
    assert Growth(100_000, 1_576_800) == 500_000_000;
    assert [1_576_800][..0] == [];
    assert AccrueAt(pool, params, []) == pool;
  }
}
