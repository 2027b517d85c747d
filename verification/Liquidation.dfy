/** What a liquidation of one asset's debt against a different collateral moves, and what it can never worsen. */
module Liquidation {
  import opened Prelude
  import opened Arith
  import opened Interest
  import opened Ledger
  import opened Invariants
  import opened Health

  /** The amounts repaid and seized by a liquidation that went through. */
  function Quoted(s: State, l: Address, u: Address, collateral: Address, debtAsset: Address, amount: int): (int, int)
    requires Liquidate(s, l, u, collateral, debtAsset, amount).Ok?
  {
    QuoteLiquidation(PrepareLiquidation(s, l, u, collateral, debtAsset), u, collateral, debtAsset, amount).value
  }

  // ---------------------------------------------------------------- the seized amount

  /** Without saturation, what is seized is worth at most the repayment plus the discount. */
  lemma SeizeWithinDiscount(repayValue: nat, discountBps: nat, price: int, available: nat)
    requires price > 0 && repayValue * (10_000 + discountBps) <= I128_MAX
    ensures SeizeAmount(repayValue, discountBps, price, available) * price * 10_000 <= repayValue * (10_000 + discountBps)
  {
    var scaled := repayValue * (10_000 + discountBps);
    MulMono(0, repayValue, 10_000 + discountBps);
    var value := scaled / 10_000;
    DivBounds(scaled, 10_000);
    DivNonNeg(scaled, 10_000);
    DivBounds(value, price);
    DivNonNeg(value, price);
    MulMono(SeizeAmount(repayValue, discountBps, price, available), value / price, price);
  }

  /**
   * Exactly when the seized value respects the discount: the scaled repayment fits i128, or the position is
   * too small for the saturated amount to be paid out, or that amount is covered anyway.
   */
  lemma SeizeWithinDiscountIff(repayValue: nat, discountBps: nat, price: int, available: nat)
    requires price > 0
    ensures var scaled := repayValue * (10_000 + discountBps);
      (SeizeAmount(repayValue, discountBps, price, available) * price * 10_000 <= scaled)
      <==>
      (scaled <= I128_MAX || available * price * 10_000 <= scaled || I128_MAX / price * price * 10_000 <= scaled)
  {
    var scaled := repayValue * (10_000 + discountBps);
    if scaled <= I128_MAX {
      SeizeWithinDiscount(repayValue, discountBps, price, available);
    } else {
      var most := I128_MAX / price;
      MulMono(Min(most, available), most, price);
      MulMono(Min(most, available), available, price);
    }
  }

  /**
   * When the debt's own scaled value fits i128, as the shortfall check computes it, and the close factor
   * leaves room for the discount, the repayment never saturates.
   */
  lemma NoSaturation(debtValue: nat, repayValue: nat, closeBps: nat, discountBps: nat)
    requires debtValue * 10_000 <= I128_MAX
    requires repayValue * 10_000 <= debtValue * closeBps
    requires closeBps * (10_000 + discountBps) <= 100_000_000
    ensures repayValue * (10_000 + discountBps) <= I128_MAX
  {
    var d := 10_000 + discountBps;
    MulMono(repayValue * 10_000, debtValue * closeBps, d);
    MulMono(closeBps * d, 100_000_000, debtValue);
    assert repayValue * 10_000 * d == (repayValue * d) * 10_000;
    assert debtValue * closeBps * d == (closeBps * d) * debtValue;
    assert 100_000_000 * debtValue == (debtValue * 10_000) * 10_000;
    MulCancel(repayValue * d, debtValue * 10_000, 10_000);
  }

  /** The conditions under which a quote is given, and its size. */
  lemma QuoteFacts(s: State, u: Address, collateral: Address, debtAsset: Address, amount: int)
    requires Sound(s) && QuoteLiquidation(s, u, collateral, debtAsset, amount).Ok?
    ensures var (repaid, seized) := QuoteLiquidation(s, u, collateral, debtAsset, amount).value;
      var debt := Realised(s, u, debtAsset).borrowed;
      && 0 < repaid == Min(amount, debt) && repaid * 10_000 <= debt * s.closeFactorBps
      && 0 <= seized <= Realised(s, u, collateral).deposited
      && PriceOf(s, debtAsset).Ok? && PriceOf(s, collateral).Ok?
      && seized == SeizeAmount(repaid * PriceOf(s, debtAsset).value, s.discountBps, PriceOf(s, collateral).value,
                               Realised(s, u, collateral).deposited)
      && WeightedValue(s, u, s.listed, LiquidationThreshold, NoCut).Ok?
  {
    hide Sound, Realised, WeightedValue, PriceOf, SeizeAmount;
    QuoteBounds(s, u, collateral, debtAsset, amount);
    RealisedSound(s, u, debtAsset);
    var debt := Realised(s, u, debtAsset).borrowed;
    DivBounds(debt * s.closeFactorBps, 10_000);
    MulMono(0, s.closeFactorBps, debt);
  }

  // ---------------------------------------------------------------- what settles

  lemma SettleSeen(s: State, l: Address, u: Address, c: Address, d: Address, repaid: int, seized: int)
    requires Sound(s) && c != d && Fresh(AssetOf(s, c), s.now) && Fresh(AssetOf(s, d), s.now)
    ensures var t := SettleLiquidation(s, l, u, c, d, repaid, seized);
      && SameMarket(s, t)
      && Realised(t, u, d) == Realised(s, u, d).(borrowed := Realised(s, u, d).borrowed - repaid)
      && (l != u ==>
            && Realised(t, u, c) == Realised(s, u, c).(deposited := Realised(s, u, c).deposited - seized)
            && Realised(t, l, c) == Realised(s, l, c).(deposited := Realised(s, l, c).deposited + seized))
      && (l == u ==> Realised(t, u, c) == Realised(s, u, c))
      && (forall v, b | (v, b) != (u, d) && (v, b) != (u, c) && (v, b) != (l, c) :: Realised(t, v, b) == Realised(s, v, b))
  {
    hide Sound, Realised, SameMarket, Post, PutPosition;
    var debt, held := Realised(s, u, d), Realised(s, u, c);
    RealisedSound(s, u, c);
    var e := Entry(0, -repaid, repaid, 0, 0);
    PostSeen(s, u, d, e);
    PostFrame(s, u, d, debt, e);
    var s1 := Post(s, u, d, debt, e);
    PostKeepsIndexes(s, u, d, debt, e, c);
    var q := held.(deposited := held.deposited - seized);
    PutPositionSeen(s1, u, c, q);
    var s2 := PutPosition(s1, u, c, q);
    PutPositionFrame(s1, u, c, q);
    SameMarketTrans(s, s1, s2);
    RealisedAnchors(s, l, c);
    RealisedAnchors(s, u, c);
    var gained := Realised(s2, l, c);
    PutPositionSeen(s2, l, c, gained.(deposited := gained.deposited + seized));
    SameMarketTrans(s, s2, SettleLiquidation(s, l, u, c, d, repaid, seized));
  }

  lemma PostKeepsIndexes(s: State, u: Address, a: Address, p: Position, e: Entry, b: Address)
    ensures AssetOf(Post(s, u, a, p, e), b).interest == AssetOf(s, b).interest
  {
  }

  /** Every realised position is anchored at the simulated indexes, whoever holds it. */
  lemma RealisedAnchors(s: State, u: Address, a: Address)
    requires Sound(s) && Fresh(AssetOf(s, a), s.now)
    ensures Realised(s, u, a).supplySnapshot == SupplyIndex(AssetOf(s, a)) >= RATE_SCALE
    ensures Realised(s, u, a).borrowSnapshot == BorrowIndex(AssetOf(s, a)) >= RATE_SCALE
  {
    hide Sound, Realised;
    RealisedSound(s, u, a);
  }

  /** The totals and the reserve that an asset shows once it is accrued. */
  predicate SameTotals(r: Asset, q: Asset) {
    r.totalDeposited == q.totalDeposited && r.totalBorrowed == q.totalBorrowed && r.balance == q.balance
  }

  /** Only accrual moves totals before the settlement. */
  lemma PrepareTotals(s: State, l: Address, u: Address, c: Address, d: Address)
    ensures var t := PrepareLiquidation(s, l, u, c, d);
      SameTotals(AssetOf(t, c), AssetOf(Accrue(s, c), c)) && SameTotals(AssetOf(t, d), AssetOf(Accrue(s, d), d))
  {
    hide AccrueAsset, Realised;
    AccrueAssetFacts(AssetOf(s, d), s.now);
    var t := Accrue(Accrue(s, d), c);
    TouchTotals(t, u, d, Realised(t, u, d));
    var t1 := Touch(t, u, d, Realised(t, u, d));
    TouchTotals(t1, u, c, Realised(t, u, c));
    var t2 := Touch(t1, u, c, Realised(t, u, c));
    TouchTotals(t2, l, c, Realised(t2, l, c));
  }

  lemma TouchTotals(s: State, u: Address, a: Address, p: Position)
    ensures forall b :: SameTotals(AssetOf(Touch(s, u, a, p), b), AssetOf(s, b))
  {
  }

  lemma SettleTotals(s: State, l: Address, u: Address, c: Address, d: Address, repaid: int, seized: int)
    ensures var t := SettleLiquidation(s, l, u, c, d, repaid, seized);
      && (c != d ==> AssetOf(t, c) == AssetOf(s, c))
      && AssetOf(t, d).totalDeposited == AssetOf(s, d).totalDeposited
      && AssetOf(t, d).totalBorrowed == AssetOf(s, d).totalBorrowed - repaid
      && AssetOf(t, d).balance == AssetOf(s, d).balance + repaid
  {
    hide Realised, PutPosition;
    var debt, held := Realised(s, u, d), Realised(s, u, c);
    var e := Entry(0, -repaid, repaid, 0, 0);
    var s1 := Post(s, u, d, debt, e);
    PostAssets(s, u, d, debt, e);
    var q := held.(deposited := held.deposited - seized);
    PutPositionFrame(s1, u, c, q);
    var s2 := PutPosition(s1, u, c, q);
    var gained := Realised(s2, l, c);
    PutPositionFrame(s2, l, c, gained.(deposited := gained.deposited + seized));
  }

  lemma PostAssets(s: State, u: Address, a: Address, p: Position, e: Entry)
    ensures AssetOf(Post(s, u, a, p, e), a) == PostAsset(AssetOf(s, a), e)
    ensures forall b | b != a :: AssetOf(Post(s, u, a, p, e), b) == AssetOf(s, b)
  {
  }

  /**
   * A liquidation with distinct assets moves value correctly. The debt, the asset's total borrowed and its
   * reserve move by the repaid amount; the seized deposit moves from the user to the liquidator and its sum
   * is kept; nobody else's position and no other total moves; and the amounts respect the close factor, the
   * caller's limit and the user's deposit.
   */
  lemma LiquidationMovesValue(s: State, l: Address, u: Address, c: Address, d: Address, amount: int)
    requires Sound(s) && c != d && Liquidate(s, l, u, c, d, amount).Ok?
    ensures var t := Liquidate(s, l, u, c, d, amount).value;
      var (repaid, seized) := Quoted(s, l, u, c, d, amount);
      && 0 < repaid == Min(amount, Realised(s, u, d).borrowed) && repaid * 10_000 <= Realised(s, u, d).borrowed * s.closeFactorBps
      && 0 <= seized <= Realised(s, u, c).deposited
      && SameMarket(s, t)
      && Realised(t, u, d) == Realised(s, u, d).(borrowed := Realised(s, u, d).borrowed - repaid)
      && (l != u ==>
            && Realised(t, u, c) == Realised(s, u, c).(deposited := Realised(s, u, c).deposited - seized)
            && Realised(t, l, c) == Realised(s, l, c).(deposited := Realised(s, l, c).deposited + seized))
      && (l == u ==> Realised(t, u, c) == Realised(s, u, c))
      && (forall v, b | (v, b) != (u, d) && (v, b) != (u, c) && (v, b) != (l, c) :: Realised(t, v, b) == Realised(s, v, b))
      && SameTotals(AssetOf(t, c), AssetOf(Accrue(s, c), c))
      && AssetOf(t, d).totalDeposited == AssetOf(Accrue(s, d), d).totalDeposited
      && AssetOf(t, d).totalBorrowed == AssetOf(Accrue(s, d), d).totalBorrowed - repaid
      && AssetOf(t, d).balance == AssetOf(Accrue(s, d), d).balance + repaid
  {
    hide Sound, Realised, SameMarket, PrepareLiquidation, QuoteLiquidation, SettleLiquidation, Accrue, AssetOf;
    var t0 := PrepareLiquidation(s, l, u, c, d);
    var (repaid, seized) := Quoted(s, l, u, c, d, amount);
    PrepareLiquidationSound(s, l, u, c, d);
    PrepareUnseen(s, l, u, c, d);
    PrepareTotals(s, l, u, c, d);
    QuoteFacts(t0, u, c, d, amount);
    SameMarketSettings(s, t0);
    SettleSeen(t0, l, u, c, d, repaid, seized);
    SettleTotals(t0, l, u, c, d, repaid, seized);
    SameMarketTrans(s, t0, SettleLiquidation(t0, l, u, c, d, repaid, seized));
  }

  lemma SameMarketSettings(s: State, t: State)
    requires SameMarket(s, t)
    ensures s.listed == t.listed && s.closeFactorBps == t.closeFactorBps && s.discountBps == t.discountBps
  {
  }

  /** The seized deposit, valued at its price, is worth at most the repayment plus the discount. */
  lemma LiquidationWithinDiscount(s: State, l: Address, u: Address, c: Address, d: Address, amount: int)
    requires Sound(s) && Liquidate(s, l, u, c, d, amount).Ok?
    ensures PriceOf(s, c).Ok? && PriceOf(s, d).Ok?
    ensures var (repaid, seized) := Quoted(s, l, u, c, d, amount);
      var scaled := repaid * PriceOf(s, d).value * (10_000 + s.discountBps);
      var debtValue := Realised(s, u, d).borrowed * PriceOf(s, d).value;
      && seized == SeizeAmount(repaid * PriceOf(s, d).value, s.discountBps, PriceOf(s, c).value, Realised(s, u, c).deposited)
      && 0 < repaid == Min(amount, Realised(s, u, d).borrowed) && 0 <= seized <= Realised(s, u, c).deposited
      && (scaled <= I128_MAX ==> seized * PriceOf(s, c).value * 10_000 <= scaled)
      && (debtValue * 10_000 <= I128_MAX && s.closeFactorBps * (10_000 + s.discountBps) <= 100_000_000 ==> scaled <= I128_MAX)
  {
    hide Sound, Realised, SameMarket, PrepareLiquidation, QuoteLiquidation, SettleLiquidation, PriceOf, SeizeAmount;
    var t0 := PrepareLiquidation(s, l, u, c, d);
    PrepareLiquidationSound(s, l, u, c, d);
    PrepareUnseen(s, l, u, c, d);
    SameMarketSettings(s, t0);
    SameMarketReads(s, t0, c, LiquidationThreshold);
    SameMarketReads(s, t0, d, LiquidationThreshold);
    QuoteFacts(t0, u, c, d, amount);
    var (repaid, seized) := Quoted(s, l, u, c, d, amount);
    PricePositive(s, c);
    PricePositive(s, d);
    ScaledWithinRange(repaid, Realised(s, u, d).borrowed, PriceOf(s, d).value, s.closeFactorBps, s.discountBps);
    if repaid * PriceOf(s, d).value * (10_000 + s.discountBps) <= I128_MAX {
      MulMono(0, repaid, PriceOf(s, d).value);
      SeizeWithinDiscount(repaid * PriceOf(s, d).value, s.discountBps, PriceOf(s, c).value, Realised(s, u, c).deposited);
    }
  }

  lemma ScaledWithinRange(repaid: nat, debt: nat, price: nat, closeBps: nat, discountBps: nat)
    requires repaid * 10_000 <= debt * closeBps
    ensures debt * price * 10_000 <= I128_MAX && closeBps * (10_000 + discountBps) <= 100_000_000 ==>
              repaid * price * (10_000 + discountBps) <= I128_MAX
  {
    MulMono(repaid * 10_000, debt * closeBps, price);
    assert repaid * 10_000 * price == repaid * price * 10_000;
    assert debt * closeBps * price == debt * price * closeBps;
    if debt * price * 10_000 <= I128_MAX && closeBps * (10_000 + discountBps) <= 100_000_000 {
      NoSaturation(debt * price, repaid * price, closeBps, discountBps);
    }
  }

  // ---------------------------------------------------------------- the shortfall

  /** The debt value at full weight minus the threshold-weighted collateral; positive means liquidatable. */
  function Shortfall(s: State, u: Address, d: Address): Result<int> {
    var price :- PriceOf(s, d);
    var weighted :- WeightedValue(s, u, s.listed, LiquidationThreshold, NoCut);
    Ok(Realised(s, u, d).borrowed * price * 10_000 - weighted)
  }

  lemma TermDrop(x: int, seized: int, price: int, weight: int)
    ensures (x - seized) * price * weight == x * price * weight - seized * price * weight
  {
    MulDist(x, -seized, price);
    MulDist(x * price, -seized * price, weight);
  }

  /** Taking `seized` out of one asset lowers the weighted value by that asset's term alone. */
  lemma {:induction false} WeightedDrop(s: State, t: State, u: Address, list: seq<Address>, c: Address, seized: nat)
    requires SameMarket(s, t) && NoDuplicates(list)
    requires seized <= Realised(s, u, c).deposited && Realised(t, u, c).deposited == Realised(s, u, c).deposited - seized
    requires forall b | b != c :: Realised(t, u, b).deposited == Realised(s, u, b).deposited
    requires WeightedValue(s, u, list, LiquidationThreshold, NoCut).Ok? && PriceOf(s, c).Ok?
    ensures WeightedValue(t, u, list, LiquidationThreshold, NoCut).Ok?
    ensures WeightedValue(t, u, list, LiquidationThreshold, NoCut).value
              == WeightedValue(s, u, list, LiquidationThreshold, NoCut).value
                 - if c in list then seized * PriceOf(s, c).value * WeightBps(s, c, LiquidationThreshold) else 0
  {
    hide SameMarket, Realised, PriceOf, WeightBps;
    if |list| > 0 {
      var before, b := list[..|list| - 1], list[|list| - 1];
      assert list == before + [b] && b !in before;
      WeightedDrop(s, t, u, before, c, seized);
      SameMarketReads(s, t, b, LiquidationThreshold);
      if b == c {
        var x, price, weight := Realised(s, u, c).deposited, PriceOf(s, c).value, WeightBps(s, c, LiquidationThreshold);
        TermDrop(x, seized, price, weight);
      }
    }
  }

  /** Losing the seized value at the threshold costs no more than the repaid value at full weight. */
  lemma SeizureCostsNoMore(seizedValue: nat, repaidValue: nat, threshold: nat, discountBps: nat)
    requires seizedValue * 10_000 <= repaidValue * (10_000 + discountBps)
    requires threshold + discountBps <= 10_000
    ensures seizedValue * threshold <= repaidValue * 10_000
  {
    MulMono(seizedValue * 10_000, repaidValue * (10_000 + discountBps), threshold);
    MulMono(threshold, 10_000 - discountBps, 10_000 + discountBps);
    assert (10_000 - discountBps) * (10_000 + discountBps) == 100_000_000 - discountBps * discountBps;
    MulMono(0, discountBps, discountBps);
    MulMono((10_000 + discountBps) * threshold, 100_000_000, repaidValue);
    assert repaidValue * (10_000 + discountBps) * threshold == (10_000 + discountBps) * threshold * repaidValue;
    assert seizedValue * 10_000 * threshold == (seizedValue * threshold) * 10_000;
    MulCancel(seizedValue * threshold, repaidValue * 10_000, 10_000);
  }

  /** A supported collateral is one of the assets that the shortfall sums over. */
  lemma SoundListed(s: State, c: Address)
    requires Sound(s) && AssetOf(s, c).supported
    ensures NoDuplicates(s.listed) && c in s.listed
  {
  }

  lemma LiquidateNeedsSupport(s: State, l: Address, u: Address, c: Address, d: Address, amount: int)
    requires Liquidate(s, l, u, c, d, amount).Ok?
    ensures AssetOf(s, c).supported
  {
    hide PrepareLiquidation, QuoteLiquidation;
  }

  /** A liquidation changes the shortfall by exactly what the seizure costs less what the repayment brings. */
  lemma ShortfallChange(s: State, l: Address, u: Address, c: Address, d: Address, amount: int)
    requires Sound(s) && c != d && Liquidate(s, l, u, c, d, amount).Ok?
    ensures PriceOf(s, c).Ok? && PriceOf(s, d).Ok?
    ensures var t := Liquidate(s, l, u, c, d, amount).value;
      var (repaid, seized) := Quoted(s, l, u, c, d, amount);
      && Shortfall(s, u, d).Ok? && Shortfall(t, u, d).Ok? && Shortfall(s, u, d).value > 0
      && Shortfall(t, u, d).value
           == Shortfall(s, u, d).value - repaid * PriceOf(s, d).value * 10_000
              + if l == u then 0 else seized * PriceOf(s, c).value * WeightBps(s, c, LiquidationThreshold)
  {
    hide Sound, Realised, SameMarket, Liquidate, Quoted, Accrue, PriceOf, WeightBps, WeightedValue, SameTotals, AssetOf;
    hide SeizeAmount;
    var t := Liquidate(s, l, u, c, d, amount).value;
    var (repaid, seized) := Quoted(s, l, u, c, d, amount);
    LiquidationMovesValue(s, l, u, c, d, amount);
    LiquidationWithinDiscount(s, l, u, c, d, amount);
    LiquidatedWasShort(s, l, u, c, d, amount);
    LiquidateNeedsSupport(s, l, u, c, d, amount);
    SameMarketReads(s, t, d, LiquidationThreshold);
    SameMarketSettings(s, t);
    SoundListed(s, c);
    WeightedDrop(s, t, u, s.listed, c, if l == u then 0 else seized);
    TermDrop(Realised(s, u, d).borrowed, repaid, PriceOf(s, d).value, 10_000);
  }

  /**
   * When the collateral's threshold leaves room for the discount, exactly when a liquidation leaves the
   * shortfall it was called on no larger: the scaled repayment fits i128, or the most that the saturated
   * formula can seize is covered by the repayment at full weight, or users liquidate themselves. Everything
   * in the condition can be read before the call.
   */
  lemma ShortfallNeverGrowsIff(s: State, l: Address, u: Address, c: Address, d: Address, amount: int)
    requires Sound(s) && c != d && Liquidate(s, l, u, c, d, amount).Ok?
    requires WeightBps(s, c, LiquidationThreshold) + s.discountBps <= 10_000
    ensures PriceOf(s, c).Ok? && PriceOf(s, d).Ok? && PriceOf(s, c).value > 0
    ensures var t := Liquidate(s, l, u, c, d, amount).value;
      var debt, held := Realised(s, u, d).borrowed, Realised(s, u, c).deposited;
      var repaidValue := Min(amount, debt) * PriceOf(s, d).value;
      var price := PriceOf(s, c).value;
      && Shortfall(s, u, d).Ok? && Shortfall(t, u, d).Ok? && Shortfall(s, u, d).value > 0
      && (Shortfall(t, u, d).value <= Shortfall(s, u, d).value <==>
            || l == u
            || repaidValue * (10_000 + s.discountBps) <= I128_MAX
            || Min(I128_MAX / price, held) * price * WeightBps(s, c, LiquidationThreshold) <= repaidValue * 10_000)
  {
    hide Sound, Realised, Liquidate, Quoted, PriceOf, WeightBps, Shortfall, SeizeAmount;
    ShortfallChange(s, l, u, c, d, amount);
    LiquidationWithinDiscount(s, l, u, c, d, amount);
    PricePositive(s, c);
    PricePositive(s, d);
    var (repaid, seized) := Quoted(s, l, u, c, d, amount);
    var price, value, threshold := PriceOf(s, c).value, repaid * PriceOf(s, d).value, WeightBps(s, c, LiquidationThreshold);
    MulNonNeg(repaid, PriceOf(s, d).value);
    MulNonNeg(seized, price);
    if value * (10_000 + s.discountBps) <= I128_MAX {
      SeizureCostsNoMore(seized * price, value, threshold, s.discountBps);
    } else {
      SaturatedSeizure(value, s.discountBps, price, Realised(s, u, c).deposited);
    }
  }

  lemma SaturatedSeizure(repayValue: nat, discountBps: nat, price: int, available: nat)
    requires price > 0 && repayValue * (10_000 + discountBps) > I128_MAX
    ensures SeizeAmount(repayValue, discountBps, price, available) == Min(I128_MAX / price, available)
  {
  }

  /**
   * The form a caller can rely on: if threshold plus discount stay within 100%, close factor times one plus
   * discount does too, and the debt's own value at full weight fits i128, no liquidation with distinct assets
   * leaves a larger shortfall than it found.
   */
  lemma ShortfallNeverGrows(s: State, l: Address, u: Address, c: Address, d: Address, amount: int)
    requires Sound(s) && c != d && Liquidate(s, l, u, c, d, amount).Ok?
    requires WeightBps(s, c, LiquidationThreshold) + s.discountBps <= 10_000
    requires s.closeFactorBps * (10_000 + s.discountBps) <= 100_000_000
    requires PriceOf(s, d).Ok? ==> Realised(s, u, d).borrowed * PriceOf(s, d).value * 10_000 <= I128_MAX
    ensures var t := Liquidate(s, l, u, c, d, amount).value;
      && Shortfall(s, u, d).Ok? && Shortfall(t, u, d).Ok?
      && 0 < Shortfall(s, u, d).value && Shortfall(t, u, d).value <= Shortfall(s, u, d).value
  {
    hide Sound, Realised, Liquidate, Quoted, PriceOf, WeightBps, Shortfall, SeizeAmount;
    LiquidationWithinDiscount(s, l, u, c, d, amount);
    ShortfallNeverGrowsIff(s, l, u, c, d, amount);
  }

  lemma LiquidatedWasShort(s: State, l: Address, u: Address, c: Address, d: Address, amount: int)
    requires Sound(s) && Liquidate(s, l, u, c, d, amount).Ok?
    ensures Shortfall(s, u, d).Ok? && Shortfall(s, u, d).value > 0
  {
    hide Sound, Realised, SameMarket, PrepareLiquidation, SettleLiquidation, PriceOf, SeizeAmount;
    var t0 := PrepareLiquidation(s, l, u, c, d);
    PrepareUnseen(s, l, u, c, d);
    SameMarketSettings(s, t0);
    SameMarketReads(s, t0, d, LiquidationThreshold);
    WeightedValueFrame(s, t0, u, s.listed, LiquidationThreshold, NoCut, NoCut);
  }

  // ---------------------------------------------------------------- one asset on both sides

  lemma SettleInPlaceSeen(s: State, l: Address, u: Address, d: Address, repaid: int, seized: int)
    requires Sound(s) && Fresh(AssetOf(s, d), s.now)
    ensures var t := SettleLiquidation(s, l, u, d, d, repaid, seized);
      && SameMarket(s, t)
      && (l != u ==>
            && Realised(t, u, d) == Realised(s, u, d).(deposited := Realised(s, u, d).deposited - seized)
            && Realised(t, l, d) == Realised(s, l, d).(deposited := Realised(s, l, d).deposited + seized))
      && (l == u ==> Realised(t, u, d) == Realised(s, u, d))
      && (forall v, b | (v, b) != (u, d) && (v, b) != (l, d) :: Realised(t, v, b) == Realised(s, v, b))
  {
    hide Sound, Realised, SameMarket, Post, PutPosition;
    var held := Realised(s, u, d);
    var e := Entry(0, -repaid, repaid, 0, 0);
    PostSeen(s, u, d, e);
    PostFrame(s, u, d, held, e);
    var s1 := Post(s, u, d, held, e);
    PostKeepsIndexes(s, u, d, held, e, d);
    RealisedAnchors(s, l, d);
    RealisedAnchors(s, u, d);
    var q := held.(deposited := held.deposited - seized);
    PutPositionSeen(s1, u, d, q);
    var s2 := PutPosition(s1, u, d, q);
    PutPositionFrame(s1, u, d, q);
    SameMarketTrans(s, s1, s2);
    var gained := Realised(s2, l, d);
    PutPositionSeen(s2, l, d, gained.(deposited := gained.deposited + seized));
    SameMarketTrans(s, s2, SettleLiquidation(s, l, u, d, d, repaid, seized));
  }

  /**
   * A liquidation of an asset against itself pays for nothing: total borrowed falls and the reserve rises by
   * the repaid amount and the deposit is seized, but the user's debt is what it was.
   */
  lemma LiquidationInPlace(s: State, l: Address, u: Address, d: Address, amount: int)
    requires Sound(s) && Liquidate(s, l, u, d, d, amount).Ok?
    ensures var t := Liquidate(s, l, u, d, d, amount).value;
      var (repaid, seized) := Quoted(s, l, u, d, d, amount);
      && 0 < repaid == Min(amount, Realised(s, u, d).borrowed) && 0 <= seized <= Realised(s, u, d).deposited
      && SameMarket(s, t)
      && (l != u ==>
            && Realised(t, u, d) == Realised(s, u, d).(deposited := Realised(s, u, d).deposited - seized)
            && Realised(t, l, d) == Realised(s, l, d).(deposited := Realised(s, l, d).deposited + seized))
      && (l == u ==> Realised(t, u, d) == Realised(s, u, d))
      && (forall v, b | (v, b) != (u, d) && (v, b) != (l, d) :: Realised(t, v, b) == Realised(s, v, b))
      && AssetOf(t, d).totalDeposited == AssetOf(Accrue(s, d), d).totalDeposited
      && AssetOf(t, d).totalBorrowed == AssetOf(Accrue(s, d), d).totalBorrowed - repaid
      && AssetOf(t, d).balance == AssetOf(Accrue(s, d), d).balance + repaid
  {
    hide Sound, Realised, SameMarket, PrepareLiquidation, QuoteLiquidation, SettleLiquidation, Accrue, AssetOf;
    var t0 := PrepareLiquidation(s, l, u, d, d);
    var (repaid, seized) := Quoted(s, l, u, d, d, amount);
    PrepareLiquidationSound(s, l, u, d, d);
    PrepareUnseen(s, l, u, d, d);
    PrepareTotals(s, l, u, d, d);
    QuoteFacts(t0, u, d, d, amount);
    SettleInPlaceSeen(t0, l, u, d, repaid, seized);
    SettleTotals(t0, l, u, d, d, repaid, seized);
    SameMarketTrans(s, t0, SettleLiquidation(t0, l, u, d, d, repaid, seized));
  }

  /** So it never lowers the shortfall: it raises it by what the seized deposit was worth at the threshold. */
  lemma ShortfallInPlace(s: State, l: Address, u: Address, d: Address, amount: int)
    requires Sound(s) && Liquidate(s, l, u, d, d, amount).Ok?
    ensures PriceOf(s, d).Ok?
    ensures var t := Liquidate(s, l, u, d, d, amount).value;
      && Shortfall(s, u, d).Ok? && Shortfall(t, u, d).Ok?
      && Shortfall(t, u, d).value
           == Shortfall(s, u, d).value
              + if l == u then 0
                else Quoted(s, l, u, d, d, amount).1 * PriceOf(s, d).value * WeightBps(s, d, LiquidationThreshold)
  {
    hide Sound, Realised, SameMarket, Liquidate, Quoted, Accrue, PriceOf, WeightBps, WeightedValue, AssetOf, SeizeAmount;
    var t := Liquidate(s, l, u, d, d, amount).value;
    LiquidationInPlace(s, l, u, d, amount);
    LiquidationWithinDiscount(s, l, u, d, d, amount);
    LiquidatedWasShort(s, l, u, d, d, amount);
    LiquidateNeedsSupport(s, l, u, d, d, amount);
    SameMarketReads(s, t, d, LiquidationThreshold);
    SameMarketSettings(s, t);
    SoundListed(s, d);
    WeightedDrop(s, t, u, s.listed, d, if l == u then 0 else Quoted(s, l, u, d, d, amount).1);
  }
}
