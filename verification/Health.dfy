/**
 * Collateral health: the check made before a write equals the check on the written state, an operation that
 * passes it leaves nothing to liquidate, and the fallback weight agrees with the ratio rule it replaces.
 */
module Health {
  import opened Prelude
  import opened Arith
  import opened Interest
  import opened Rewards
  import opened Ledger
  import opened Invariants

  // ---------------------------------------------------------------- what a health check can see

  /** Everything but the deposits and debts that a health computation reads. */
  ghost predicate SameMarket(s: State, t: State) {
    && s.now == t.now && s.listed == t.listed && s.paused == t.paused
    && s.minRatioBps == t.minRatioBps && s.maxOracleAge == t.maxOracleAge
    && s.closeFactorBps == t.closeFactorBps && s.discountBps == t.discountBps
    && forall b :: AssetOf(s, b).oracle == AssetOf(t, b).oracle && AssetOf(s, b).risk == AssetOf(t, b).risk
                   && AssetOf(s, b).supported == AssetOf(t, b).supported
  }

  lemma SameMarketSymmetric(s: State, t: State)
    requires SameMarket(s, t)
    ensures SameMarket(t, s)
  {
  }

  lemma SameMarketReads(s: State, t: State, b: Address, w: Weight)
    requires SameMarket(s, t)
    ensures PriceOf(s, b) == PriceOf(t, b) && WeightBps(s, b, w) == WeightBps(t, b, w)
    ensures RequireSupported(s, b) == RequireSupported(t, b)
  {
  }

  lemma {:induction false} WeightedValueFrame(
    s: State, t: State, u: Address, list: seq<Address>, w: Weight, cut: Cut, tcut: Cut)
    requires SameMarket(s, t)
    requires forall b | b in list :: CutDeposit(s, u, b, cut) == CutDeposit(t, u, b, tcut)
    ensures WeightedValue(s, u, list, w, cut) == WeightedValue(t, u, list, w, tcut)
  {
    hide SameMarket, CutDeposit, PriceOf, WeightBps;
    if |list| > 0 {
      WeightedValueFrame(s, t, u, list[..|list| - 1], w, cut, tcut);
      SameMarketReads(s, t, list[|list| - 1], w);
    }
  }

  lemma PricePositive(s: State, a: Address)
    ensures PriceOf(s, a).Ok? ==> PriceOf(s, a).value > 0
  {
  }

  lemma TermMono(x: int, y: int, price: int, f: int, g: int)
    requires 0 <= x <= y && 0 < price && 0 <= f <= g
    ensures 0 <= x * price * f <= y * price * g
  {
    MulMono(x, y, price);
    MulMono(0, x, price);
    MulMono(f, g, x * price);
    MulMono(x * price, y * price, g);
    MulMono(0, f, x * price);
    assert x * price * f == f * (x * price) && x * price * g == g * (x * price);
  }

  /** More deposits at heavier weights are worth at least as much, and read at least as many prices. */
  lemma {:induction false} WeightedValueMono(
    s: State, t: State, u: Address, list: seq<Address>, w: Weight, tw: Weight, cut: Cut, tcut: Cut)
    requires SameMarket(s, t)
    requires forall b | b in list ::
               CutDeposit(s, u, b, cut) <= CutDeposit(t, u, b, tcut) && WeightBps(s, b, w) <= WeightBps(t, b, tw)
    requires WeightedValue(t, u, list, tw, tcut).Ok?
    ensures WeightedValue(s, u, list, w, cut).Ok?
    ensures 0 <= WeightedValue(s, u, list, w, cut).value <= WeightedValue(t, u, list, tw, tcut).value
  {
    hide SameMarket, CutDeposit, WeightBps;
    if |list| > 0 {
      var b := list[|list| - 1];
      WeightedValueMono(s, t, u, list[..|list| - 1], w, tw, cut, tcut);
      SameMarketReads(s, t, b, w);
      var x, y := CutDeposit(s, u, b, cut), CutDeposit(t, u, b, tcut);
      if x > 0 {
        TermMono(x, y, PriceOf(s, b).value, WeightBps(s, b, w), WeightBps(t, b, tw));
      } else if y > 0 {
        TermMono(0, y, PriceOf(t, b).value, WeightBps(t, b, tw), WeightBps(t, b, tw));
      }
    }
  }

  /** Some deposits may be missing, as long as the assets that still count have readable prices. */
  lemma {:induction false} WeightedValueReadable(s: State, u: Address, list: seq<Address>, w: Weight, cut: Cut)
    ensures WeightedValue(s, u, list, w, cut).Ok?
      <==> forall b | b in list :: CutDeposit(s, u, b, cut) > 0 ==> PriceOf(s, b).Ok?
  {
    if |list| > 0 {
      assert list == list[..|list| - 1] + [list[|list| - 1]];
      WeightedValueReadable(s, u, list[..|list| - 1], w, cut);
    }
  }

  // ---------------------------------------------------------------- operations seen by a health check

  /** Accruing an asset at the current time changes no position that a read returns. */
  lemma AccrueUnseen(s: State, a: Address)
    ensures SameMarket(s, Accrue(s, a))
    ensures forall v, b :: Realised(Accrue(s, a), v, b) == Realised(s, v, b)
  {
    hide ComputeAccrual, ComputeAccruedPosition;
    AccrueAssetFacts(AssetOf(s, a), s.now);
  }

  lemma {:induction false} AccrueAllUnseen(s: State, list: seq<Address>)
    ensures SameMarket(s, AccrueAll(s, list))
    ensures forall v, b :: Realised(AccrueAll(s, list), v, b) == Realised(s, v, b)
  {
    hide Accrue, Realised;
    if |list| > 0 {
      AccrueAllUnseen(s, list[..|list| - 1]);
      AccrueUnseen(AccrueAll(s, list[..|list| - 1]), list[|list| - 1]);
    }
  }

  /** Settling rewards changes neither positions nor prices nor interest. */
  lemma TouchUnseen(s: State, u: Address, a: Address, p: Position)
    ensures SameMarket(s, Touch(s, u, a, p))
    ensures forall v, b :: Realised(Touch(s, u, a, p), v, b) == Realised(s, v, b)
    ensures forall b :: Fresh(AssetOf(s, b), s.now) ==> Fresh(AssetOf(Touch(s, u, a, p), b), s.now)
    ensures AssetOf(Touch(s, u, a, p), a).balance == AssetOf(s, a).balance
  {
    hide ComputeAccrual, ComputeAccruedPosition, ComputeIndexAdvance, AccrueFromIndexes;
  }

  /** A posted entry is what a read returns afterwards, and it changes no other position. */
  lemma PostSeen(s: State, u: Address, a: Address, e: Entry)
    requires Sound(s) && Fresh(AssetOf(s, a), s.now)
    ensures var p := Realised(s, u, a);
      var t := Post(s, u, a, p, e);
      && SameMarket(s, t)
      && Realised(t, u, a) == p.(deposited := p.deposited + e.deposited, borrowed := p.borrowed + e.borrowed)
      && (forall v, b | (v, b) != (u, a) :: Realised(t, v, b) == Realised(s, v, b))
      && AssetOf(t, a).balance == AssetOf(s, a).balance + e.balance
      && (forall b :: Fresh(AssetOf(s, b), s.now) ==> Fresh(AssetOf(t, b), s.now))
  {
    hide Sound, Realised;
    RealisedSound(s, u, a);
    var p := Realised(s, u, a);
    var q := p.(deposited := p.deposited + e.deposited, borrowed := p.borrowed + e.borrowed);
    PutPositionSeen(s, u, a, q);
    PostAssetSeen(s, u, a, p, e);
  }

  lemma PutPositionSeen(s: State, u: Address, a: Address, q: Position)
    requires Fresh(AssetOf(s, a), s.now)
    requires q.supplySnapshot == SupplyIndex(AssetOf(s, a)) >= RATE_SCALE
    requires q.borrowSnapshot == BorrowIndex(AssetOf(s, a)) >= RATE_SCALE
    ensures SameMarket(s, PutPosition(s, u, a, q))
    ensures Realised(PutPosition(s, u, a, q), u, a) == q
    ensures forall v, b | (v, b) != (u, a) :: Realised(PutPosition(s, u, a, q), v, b) == Realised(s, v, b)
  {
    assert q.deposited * (q.supplySnapshot - q.supplySnapshot) == 0;
    assert q.borrowed * (q.borrowSnapshot - q.borrowSnapshot) == 0;
  }

  lemma PostAssetSeen(s: State, u: Address, a: Address, p: Position, e: Entry)
    requires Fresh(AssetOf(s, a), s.now)
    ensures var q := p.(deposited := p.deposited + e.deposited, borrowed := p.borrowed + e.borrowed);
      var t := Post(s, u, a, p, e);
      && SameMarket(s, t)
      && (forall v, b :: Realised(t, v, b) == Realised(PutPosition(s, u, a, q), v, b))
      && AssetOf(t, a).balance == AssetOf(s, a).balance + e.balance
      && (forall b :: Fresh(AssetOf(s, b), s.now) ==> Fresh(AssetOf(t, b), s.now))
  {
    hide ComputeAccruedPosition;
  }

  /** The same for a whole operation body on a freshly accrued asset. */
  lemma TouchAndPostSeen(s: State, u: Address, a: Address, e: Entry)
    requires Sound(s) && Fresh(AssetOf(s, a), s.now)
    ensures var p := Realised(s, u, a);
      var t := TouchAndPost(s, u, a, e);
      && SameMarket(s, t)
      && Realised(t, u, a) == p.(deposited := p.deposited + e.deposited, borrowed := p.borrowed + e.borrowed)
      && (forall v, b | (v, b) != (u, a) :: Realised(t, v, b) == Realised(s, v, b))
      && AssetOf(t, a).balance == AssetOf(s, a).balance + e.balance
      && (forall b :: Fresh(AssetOf(s, b), s.now) ==> Fresh(AssetOf(t, b), s.now))
  {
    hide Sound, Realised, SameMarket, Touch, Post, Fresh;
    var p := Realised(s, u, a);
    RealisedSound(s, u, a);
    TouchSound(s, u, a, p);
    TouchUnseen(s, u, a, p);
    SameMarketTrans(s, Touch(s, u, a, p), TouchAndPost(s, u, a, e));
    PostSeen(Touch(s, u, a, p), u, a, e);
    SameMarketTrans(s, Touch(s, u, a, p), TouchAndPost(s, u, a, e));
  }

  lemma SameMarketTrans(s: State, t: State, r: State)
    ensures SameMarket(s, t) ==> s.now == t.now
    ensures SameMarket(s, t) && SameMarket(t, r) ==> SameMarket(s, r)
  {
  }

  // ---------------------------------------------------------------- pre-write check = post-write check

  /**
   * The check made before a borrow or withdrawal is written, with the pending amount applied on the fly,
   * gives exactly the verdict that a plain check gives on the written state.
   */
  lemma PreWriteCheckIsPostWriteCheck(s: State, u: Address, a: Address, debtAsset: Address, amount: int)
    requires Sound(s) && Fresh(AssetOf(s, a), s.now)
    ensures var p := Realised(s, u, a);
      && CheckHealth(s, u, a, amount, NoCut) == CheckHealth(Post(s, u, a, p, BorrowEntry(amount)), u, a, 0, NoCut)
      && CheckHealth(s, u, debtAsset, 0, Cut(a, amount))
           == CheckHealth(Post(s, u, a, p, WithdrawEntry(amount)), u, debtAsset, 0, NoCut)
  {
    hide Sound, Post, Realised, SameMarket, Fresh;
    var p := Realised(s, u, a);
    PostSeen(s, u, a, BorrowEntry(amount));
    PostSeen(s, u, a, WithdrawEntry(amount));
    var borrowed, withdrawn := Post(s, u, a, p, BorrowEntry(amount)), Post(s, u, a, p, WithdrawEntry(amount));
    SameMarketReads(s, borrowed, a, CollateralFactor);
    SameMarketReads(s, withdrawn, debtAsset, CollateralFactor);
    SameMarketList(s, borrowed);
    SameMarketList(s, withdrawn);
    WeightedValueFrame(s, borrowed, u, s.listed, CollateralFactor, NoCut, NoCut);
    WeightedValueFrame(s, withdrawn, u, s.listed, CollateralFactor, Cut(a, amount), NoCut);
  }

  lemma SameMarketList(s: State, t: State)
    requires SameMarket(s, t)
    ensures s.listed == t.listed && s.now == t.now
  {
  }

  /** Both verdicts about one debt asset agree on states that look the same. */
  lemma CheckHealthFrame(s: State, t: State, u: Address, debtAsset: Address)
    requires SameMarket(s, t) && forall b :: Realised(s, u, b) == Realised(t, u, b)
    ensures CheckHealth(s, u, debtAsset, 0, NoCut) == CheckHealth(t, u, debtAsset, 0, NoCut)
  {
    hide Realised, SameMarket;
    SameMarketReads(s, t, debtAsset, CollateralFactor);
    SameMarketList(s, t);
    WeightedValueFrame(s, t, u, s.listed, CollateralFactor, NoCut, NoCut);
  }

  // ---------------------------------------------------------------- what one operation moves

  /** The change that a successful operation makes to the user's realised balance and to the reserve. */
  predicate Moves(k: Kind, p: Position, q: Position, reserve: int, after: int, amount: int) {
    match k
    case Supplying => q == p.(deposited := p.deposited + amount) && after == reserve + amount
    case Borrowing => q == p.(borrowed := p.borrowed + amount) && after == reserve - amount && amount <= reserve
    case Withdrawing =>
      q == p.(deposited := p.deposited - amount) && after == reserve - amount && amount <= Min(p.deposited, reserve)
    case Repaying =>
      && amount <= p.borrowed && after == reserve + amount && q == p.(borrowed := q.borrowed)
      && (p.borrowed - amount > DUST_THRESHOLD ==> q.borrowed == p.borrowed - amount)
      && (p.borrowed - amount <= DUST_THRESHOLD ==> q.borrowed == 0)
  }

  lemma TouchAndPostTotals(s: State, u: Address, a: Address, e: Entry)
    ensures var t := TouchAndPost(s, u, a, e);
      && AssetOf(t, a).totalDeposited == AssetOf(s, a).totalDeposited + e.deposited
      && AssetOf(t, a).totalBorrowed == AssetOf(s, a).totalBorrowed + e.borrowed
      && AssetOf(t, a).balance == AssetOf(s, a).balance + e.balance
      && forall b | b != a :: AssetOf(t, b) == AssetOf(s, b)
  {
    hide Realised, ComputeIndexAdvance, AccrueFromIndexes;
  }

  /**
   * A deposit, borrow, repayment or withdrawal moves the caller's balance with interest up to now, the
   * asset's aggregate and its reserve by the amount, a repayment that leaves at most 100 units forgives them,
   * and no other position, no other asset and no price, factor or setting changes.
   */
  lemma OperationEffect(k: Kind, s: State, u: Address, a: Address, partner: Address, amount: int)
    requires Sound(s) && Invoke(s, SingleCall(k, u, a, partner, amount)).Ok?
    ensures var t := Invoke(s, SingleCall(k, u, a, partner, amount)).value;
      var r := AssetOf(Accrue(s, a), a);
      && amount > 0 && SameMarket(s, t)
      && Moves(k, Realised(s, u, a), Realised(t, u, a), r.balance, AssetOf(t, a).balance, amount)
      && AssetOf(t, a).totalDeposited - r.totalDeposited == Realised(t, u, a).deposited - Realised(s, u, a).deposited
      && AssetOf(t, a).totalBorrowed - r.totalBorrowed == Realised(t, u, a).borrowed - Realised(s, u, a).borrowed
      && (forall v, b | (v, b) != (u, a) :: Realised(t, v, b) == Realised(s, v, b))
      && (forall b | b != a :: AssetOf(t, b) == AssetOf(s, b))
  {
    hide Sound, Accrue, Realised, TouchAndPost, Invoke, SameMarket, AssetOf;
    SingleForm(k, s, u, a, partner, amount);
    AccrueSound(s, a);
    AccrueUnseen(s, a);
    AccrueElsewhere(s, a);
    var t := Accrue(s, a);
    var e := EntryFor(k, Realised(t, u, a), AssetOf(t, a).balance, amount).value;
    TouchAndPostSeen(t, u, a, e);
    TouchAndPostTotals(t, u, a, e);
    SameMarketTrans(s, t, TouchAndPost(t, u, a, e));
  }

  lemma AccrueElsewhere(s: State, a: Address)
    ensures forall b | b != a :: AssetOf(Accrue(s, a), b) == AssetOf(s, b)
  {
  }

  // ---------------------------------------------------------------- healthy means not liquidatable

  /** The collateral factor never exceeds the liquidation threshold, stored or derived. */
  lemma FactorWithinThreshold(s: State, b: Address)
    requires Sound(s)
    ensures WeightBps(s, b, CollateralFactor) <= WeightBps(s, b, LiquidationThreshold)
  {
    AssetOfSound(s, b);
  }

  /** A user who passes the collateral check for a debt asset cannot be quoted a liquidation of it. */
  lemma HealthyHasNoQuote(s: State, u: Address, collateral: Address, debtAsset: Address, repayAmount: int)
    requires Sound(s) && CheckHealth(s, u, debtAsset, 0, NoCut).Pass?
    ensures QuoteLiquidation(s, u, collateral, debtAsset, repayAmount) == Err(PositionNotLiquidatable)
  {
    hide Sound, SameMarket, Realised, WeightBps, PriceOf;
    if Realised(s, u, debtAsset).borrowed != 0 {
      forall b | b in s.listed
        ensures WeightBps(s, b, CollateralFactor) <= WeightBps(s, b, LiquidationThreshold)
      {
        FactorWithinThreshold(s, b);
      }
      SameMarketReflexive(s);
      ReadableByAnyWeight(s, u, s.listed);
      WeightedValueMono(s, s, u, s.listed, CollateralFactor, LiquidationThreshold, NoCut, NoCut);
    }
  }

  lemma SameMarketReflexive(s: State)
    ensures SameMarket(s, s)
  {
  }

  lemma ReadableByAnyWeight(s: State, u: Address, list: seq<Address>)
    ensures WeightedValue(s, u, list, CollateralFactor, NoCut).Ok?
              == WeightedValue(s, u, list, LiquidationThreshold, NoCut).Ok?
  {
    hide CutDeposit, PriceOf, WeightedValue;
    WeightedValueReadable(s, u, list, CollateralFactor, NoCut);
    WeightedValueReadable(s, u, list, LiquidationThreshold, NoCut);
  }

  /** The accruals and reward settlements in front of a liquidation change nothing that its checks read. */
  lemma PrepareUnseen(s: State, l: Address, u: Address, collateral: Address, debtAsset: Address)
    ensures var t := PrepareLiquidation(s, l, u, collateral, debtAsset);
      SameMarket(s, t) && forall v, b :: Realised(t, v, b) == Realised(s, v, b)
  {
    hide Accrue, Touch, Realised, SameMarket;
    var t0 := Accrue(s, debtAsset);
    AccrueUnseen(s, debtAsset);
    AccrueUnseen(t0, collateral);
    var t := Accrue(t0, collateral);
    SameMarketTrans(s, t0, t);
    var t1 := Touch(t, u, debtAsset, Realised(t, u, debtAsset));
    TouchUnseen(t, u, debtAsset, Realised(t, u, debtAsset));
    SameMarketTrans(s, t, t1);
    var t2 := Touch(t1, u, collateral, Realised(t, u, collateral));
    TouchUnseen(t1, u, collateral, Realised(t, u, collateral));
    SameMarketTrans(s, t1, t2);
    TouchUnseen(t2, l, collateral, Realised(t2, l, collateral));
    SameMarketTrans(s, t2, Touch(t2, l, collateral, Realised(t2, l, collateral)));
  }

  lemma HealthyNotLiquidatable(
    s: State, l: Address, u: Address, collateral: Address, debtAsset: Address, repayAmount: int)
    requires Sound(s) && CheckHealth(s, u, debtAsset, 0, NoCut).Pass?
    ensures Liquidate(s, l, u, collateral, debtAsset, repayAmount).Err?
    ensures AssetOf(s, collateral).supported && AssetOf(s, debtAsset).supported && repayAmount > 0 ==>
      Liquidate(s, l, u, collateral, debtAsset, repayAmount) == Err(PositionNotLiquidatable)
  {
    hide Sound, PrepareLiquidation, QuoteLiquidation, SettleLiquidation, SameMarket, Realised, CheckHealth;
    var t := PrepareLiquidation(s, l, u, collateral, debtAsset);
    PrepareLiquidationSound(s, l, u, collateral, debtAsset);
    PrepareUnseen(s, l, u, collateral, debtAsset);
    CheckHealthFrame(s, t, u, debtAsset);
    HealthyHasNoQuote(t, u, collateral, debtAsset, repayAmount);
  }

  /** The state before an operation's guards, and the one after them. */
  lemma OperationStage(s: State, u: Address, a: Address)
    requires Sound(s)
    ensures var t := Accrue(s, a);
      var touched := Touch(t, u, a, Realised(t, u, a));
      && Sound(touched) && touched.now == s.now && Fresh(AssetOf(touched, a), s.now)
      && Realised(touched, u, a) == Realised(t, u, a)
  {
    hide Sound, Accrue, Touch, Realised, SameMarket, Fresh;
    var t := Accrue(s, a);
    AccrueSound(s, a);
    RealisedSound(t, u, a);
    TouchSound(t, u, a, Realised(t, u, a));
    TouchUnseen(t, u, a, Realised(t, u, a));
    SameMarketList(t, Touch(t, u, a, Realised(t, u, a)));
  }

  /** Success of a borrow or withdrawal leaves the plain check passing on the resulting state. */
  lemma OperationLeavesHealthy(k: Kind, s: State, u: Address, a: Address, partner: Address, amount: int)
    requires Sound(s) && (k.Borrowing? || k.Withdrawing?)
    requires Invoke(s, SingleCall(k, u, a, partner, amount)).Ok?
    ensures var t := Invoke(s, SingleCall(k, u, a, partner, amount)).value;
      CheckHealth(t, u, if k.Borrowing? then a else partner, 0, NoCut).Pass?
  {
    hide Sound, Accrue, Touch, Realised, CheckHealth, Post, CheckBorrowCaps;
    var t := Accrue(s, a);
    var touched := Touch(t, u, a, Realised(t, u, a));
    OperationStage(s, u, a);
    PreWriteCheckIsPostWriteCheck(touched, u, a, partner, amount);
  }

  /**
   * Right after a successful borrow, at the same ledger time and prices, nobody can liquidate any of the
   * borrower's debt in the borrowed asset, whichever collateral they ask for and however little they repay.
   */
  lemma BorrowThenNotLiquidatable(
    s: State, u: Address, a: Address, declared: Address, amount: int,
    l: Address, collateral: Address, repayAmount: int)
    requires Sound(s) && Borrow(s, u, a, declared, amount).Ok?
    ensures var t := Borrow(s, u, a, declared, amount).value;
      && Liquidate(t, l, u, collateral, a, repayAmount).Err?
      && (AssetOf(t, collateral).supported && AssetOf(t, a).supported && repayAmount > 0 ==>
            Liquidate(t, l, u, collateral, a, repayAmount) == Err(PositionNotLiquidatable))
  {
    hide Sound, Borrow, Liquidate, CheckHealth;
    SingleSound(Borrowing, s, u, a, declared, amount);
    OperationLeavesHealthy(Borrowing, s, u, a, declared, amount);
    HealthyNotLiquidatable(Borrow(s, u, a, declared, amount).value, l, u, collateral, a, repayAmount);
  }

  /** The same for a withdrawal and the debt asset it was checked against. */
  lemma WithdrawThenNotLiquidatable(
    s: State, u: Address, a: Address, debtAsset: Address, amount: int,
    l: Address, collateral: Address, repayAmount: int)
    requires Sound(s) && Withdraw(s, u, a, debtAsset, amount).Ok?
    ensures var t := Withdraw(s, u, a, debtAsset, amount).value;
      && Liquidate(t, l, u, collateral, debtAsset, repayAmount).Err?
      && (AssetOf(t, collateral).supported && AssetOf(t, debtAsset).supported && repayAmount > 0 ==>
            Liquidate(t, l, u, collateral, debtAsset, repayAmount) == Err(PositionNotLiquidatable))
  {
    hide Sound, Withdraw, Liquidate, CheckHealth;
    SingleSound(Withdrawing, s, u, a, debtAsset, amount);
    OperationLeavesHealthy(Withdrawing, s, u, a, debtAsset, amount);
    HealthyNotLiquidatable(Withdraw(s, u, a, debtAsset, amount).value, l, u, collateral, debtAsset, repayAmount);
  }

  /** With readable prices, a quote is refused as not liquidatable exactly when the debt is nil or covered. */
  lemma QuoteRefusedIff(s: State, u: Address, c: Address, x: Address, repayAmount: int)
    requires PriceOf(s, x).Ok? && WeightedValue(s, u, s.listed, LiquidationThreshold, NoCut).Ok?
    ensures var debt := Realised(s, u, x).borrowed;
      QuoteLiquidation(s, u, c, x, repayAmount) == Err(PositionNotLiquidatable) <==>
        debt == 0
        || WeightedValue(s, u, s.listed, LiquidationThreshold, NoCut).value >= debt * PriceOf(s, x).value * 10_000
  {
    hide Realised, WeightedValue, SeizeAmount;
  }

  /** What a successful withdrawal leaves of the weighted collateral, of debts and of prices. */
  lemma WithdrawalSeen(s: State, u: Address, a: Address, debtAsset: Address, amount: int, x: Address, w: Weight)
    requires Sound(s) && Withdraw(s, u, a, debtAsset, amount).Ok?
    ensures var t := Withdraw(s, u, a, debtAsset, amount).value;
      && Sound(t) && SameMarket(s, t) && PriceOf(t, x) == PriceOf(s, x)
      && Realised(t, u, x).borrowed == Realised(s, u, x).borrowed
      && WeightedValue(t, u, t.listed, w, NoCut) == WeightedValue(s, u, s.listed, w, Cut(a, amount))
  {
    hide Sound, Withdraw, SameMarket, Realised, PriceOf, WeightBps, WeightedValue, Accrue, AssetOf;
    var t := Withdraw(s, u, a, debtAsset, amount).value;
    SingleSound(Withdrawing, s, u, a, debtAsset, amount);
    OperationEffect(Withdrawing, s, u, a, debtAsset, amount);
    SameMarketReads(s, t, x, w);
    SameMarketList(s, t);
    SameMarketSymmetric(s, t);
    WeightedValueFrame(t, s, u, s.listed, w, NoCut, Cut(a, amount));
  }

  /**
   * The check of a withdrawal looks at the one debt asset that the call names. Any other debt `x` of the user
   * is not liquidatable afterwards if and only if there is none, or the collateral that the withdrawal leaves
   * covers it at the liquidation thresholds, both of which can be read before the call.
   */
  lemma WithdrawLeavesDebtSafeIff(
    s: State, u: Address, a: Address, debtAsset: Address, amount: int, x: Address,
    l: Address, c: Address, repayAmount: int)
    requires Sound(s) && Withdraw(s, u, a, debtAsset, amount).Ok?
    requires AssetOf(s, c).supported && AssetOf(s, x).supported && repayAmount > 0
    requires PriceOf(s, x).Ok? && WeightedValue(s, u, s.listed, LiquidationThreshold, Cut(a, amount)).Ok?
    ensures var t := Withdraw(s, u, a, debtAsset, amount).value;
      var debt := Realised(s, u, x).borrowed;
      Liquidate(t, l, u, c, x, repayAmount) == Err(PositionNotLiquidatable) <==>
        debt == 0
        || WeightedValue(s, u, s.listed, LiquidationThreshold, Cut(a, amount)).value >= debt * PriceOf(s, x).value * 10_000
  {
    hide Sound, Withdraw, SameMarket, Realised, PriceOf, WeightedValue, PrepareLiquidation, SettleLiquidation, QuoteLiquidation;
    var t := Withdraw(s, u, a, debtAsset, amount).value;
    WithdrawalSeen(s, u, a, debtAsset, amount, x, LiquidationThreshold);
    SameMarketReads(s, t, c, LiquidationThreshold);
    SameMarketReads(s, t, x, LiquidationThreshold);
    var r := PrepareLiquidation(t, l, u, c, x);
    PrepareUnseen(t, l, u, c, x);
    SameMarketReads(t, r, x, LiquidationThreshold);
    SameMarketList(t, r);
    WeightedValueFrame(t, r, u, t.listed, LiquidationThreshold, NoCut, NoCut);
    QuoteRefusedIff(r, u, c, x, repayAmount);
  }

  /** A user who owes nothing but the named debt cannot be liquidated at all after a withdrawal. */
  lemma SoleDebtorNotLiquidatable(
    s: State, u: Address, a: Address, debtAsset: Address, amount: int, x: Address,
    l: Address, c: Address, repayAmount: int)
    requires Sound(s) && Withdraw(s, u, a, debtAsset, amount).Ok?
    requires forall b | b != debtAsset :: Realised(s, u, b).borrowed == 0
    ensures Liquidate(Withdraw(s, u, a, debtAsset, amount).value, l, u, c, x, repayAmount).Err?
  {
    hide Sound, Withdraw, Liquidate, SameMarket, Realised, WeightedValue;
    var t := Withdraw(s, u, a, debtAsset, amount).value;
    if x == debtAsset {
      WithdrawThenNotLiquidatable(s, u, a, debtAsset, amount, l, c, repayAmount);
    } else {
      WithdrawalSeen(s, u, a, debtAsset, amount, x, CollateralFactor);
      HealthyNotLiquidatable(t, l, u, c, x, repayAmount);
    }
  }

  // ---------------------------------------------------------------- the fallback factor

  /** The factor is the ceiling of 10^8 over the ratio, and at most 10000 for ratios of 100% and above. */
  lemma FactorIsCeiling(ratio: nat)
    requires ratio >= 10_000
    ensures var f := RatioToFactor(ratio);
      && 1 <= f <= 10_000
      && (f - 1) * ratio < 100_000_000 <= f * ratio <= 100_000_000 + ratio - 1
  {
    DivBounds(100_000_000 + ratio - 1, ratio);
    var f := RatioToFactor(ratio);
    assert (f + 1) * ratio == f * ratio + ratio;
    assert (f - 1) * ratio == f * ratio - ratio;
    MulMono(10_000, ratio, 10_000);
    MulCancelStrict(f, 10_001, ratio);
    DivGe(100_000_000 + ratio - 1, ratio, 1);
  }

  /** Collateral accepted by the ratio rule is accepted by the factor rule; the converse loses at most the ceiling. */
  lemma FactorAgainstRatio(collateral: nat, debt: nat, ratio: nat)
    requires ratio >= 10_000
    ensures collateral * 10_000 >= debt * ratio ==> collateral * RatioToFactor(ratio) >= debt * 10_000
    ensures collateral * RatioToFactor(ratio) >= debt * 10_000 ==>
              debt * ratio * 10_000 <= collateral * (100_000_000 + ratio - 1)
  {
    hide RatioToFactor;
    FactorIsCeiling(ratio);
    FactorCore(collateral, debt, ratio, RatioToFactor(ratio));
  }

  lemma FactorCore(collateral: nat, debt: nat, ratio: nat, f: nat)
    requires 0 < ratio && 100_000_000 <= f * ratio <= 100_000_000 + ratio - 1
    ensures collateral * 10_000 >= debt * ratio ==> collateral * f >= debt * 10_000
    ensures collateral * f >= debt * 10_000 ==> debt * ratio * 10_000 <= collateral * (100_000_000 + ratio - 1)
  {
    MulSwap(debt, ratio, 10_000);
    MulSwap(f, ratio, collateral);
    if collateral * 10_000 >= debt * ratio {
      MulMono(100_000_000, f * ratio, collateral);
      MulCancel(debt * 10_000, f * collateral, ratio);
    }
    if collateral * f >= debt * 10_000 {
      MulMono(debt * 10_000, f * collateral, ratio);
      MulMono(f * ratio, 100_000_000 + ratio - 1, collateral);
    }
  }

  /** The unweighted value of the user's deposits over a list, as the ratio rule summed it. */
  function PlainValue(s: State, u: Address, list: seq<Address>): Result<int> {
    if |list| == 0 then Ok(0)
    else
      var sum :- PlainValue(s, u, list[..|list| - 1]);
      var deposited := Realised(s, u, list[|list| - 1]).deposited;
      if deposited <= 0 then Ok(sum)
      else
        var price :- PriceOf(s, list[|list| - 1]);
        Ok(sum + deposited * price)
  }

  /** Without per-asset risk parameters, the weighted sum is the plain sum times one factor. */
  lemma {:induction false} FallbackWeightIsUniform(s: State, u: Address, list: seq<Address>)
    requires forall b | b in list :: AssetOf(s, b).risk.None?
    ensures WeightedValue(s, u, list, CollateralFactor, NoCut) ==
      match PlainValue(s, u, list)
      case Ok(value) => Ok(value * RatioToFactor(s.minRatioBps))
      case Err(e) => Err(e)
    ensures PlainValue(s, u, list).Ok? ==> PlainValue(s, u, list).value >= 0
  {
    hide RatioToFactor, Realised, PriceOf;
    var f := RatioToFactor(s.minRatioBps);
    if |list| > 0 {
      var b := list[|list| - 1];
      FallbackWeightIsUniform(s, u, list[..|list| - 1]);
      var x := Realised(s, u, b).deposited;
      if PlainValue(s, u, list).Ok? && x > 0 {
        var sum, price := PlainValue(s, u, list[..|list| - 1]).value, PriceOf(s, b).value;
        PricePositive(s, b);
        MulDist(sum, x * price, f);
        MulMono(0, x, price);
      }
    }
  }

  /**
   * The collateral check under the fallback, against the rule `collateral * 10000 >= debt * ratio` over the
   * sum of all deposits: what the ratio rule accepts passes, and what passes misses the ratio rule by less
   * than the rounding of the factor.
   */
  lemma FallbackAgainstRatioRule(s: State, u: Address, debtValue: nat)
    requires Sound(s) && (forall b | b in s.listed :: AssetOf(s, b).risk.None?) && PlainValue(s, u, s.listed).Ok?
    ensures var collateral := PlainValue(s, u, s.listed).value;
      && (collateral * 10_000 >= debtValue * s.minRatioBps ==> CoverDebt(s, u, debtValue, NoCut).Pass?)
      && (CoverDebt(s, u, debtValue, NoCut).Pass? ==>
            debtValue * s.minRatioBps * 10_000 <= collateral * (100_000_000 + s.minRatioBps - 1))
  {
    hide Sound, RatioToFactor, WeightedValue, PlainValue;
    SoundSettings(s);
    FallbackWeightIsUniform(s, u, s.listed);
    FactorAgainstRatio(PlainValue(s, u, s.listed).value, debtValue, s.minRatioBps);
  }

  /**
   * The two rules are the same for every collateral and debt exactly when the ratio divides 10^8. At
   * 133.33%, for one, a debt worth 7501 against a collateral of 10000 passes the factor and fails the ratio.
   */
  lemma FactorMatchesRatioIff(ratio: nat)
    requires ratio >= 10_000
    ensures 100_000_000 % ratio == 0 <==>
      forall collateral: nat, debt: nat ::
        collateral * 10_000 >= debt * ratio <==> collateral * RatioToFactor(ratio) >= debt * 10_000
    ensures RatioToFactor(13_333) == 7_501 && 10_000 * 10_000 < 7_501 * 13_333
  {
    var f := RatioToFactor(ratio);
    FactorIsCeiling(ratio);
    if 100_000_000 % ratio == 0 {
      var q := 100_000_000 / ratio;
      assert q * ratio == 100_000_000;
      DivUnique(100_000_000 + ratio - 1, ratio, q);
      forall collateral: nat, debt: nat
        ensures collateral * 10_000 >= debt * ratio <==> collateral * f >= debt * 10_000
      {
        ExactFactor(collateral, debt, ratio, f);
      }
    } else {
      if f * ratio == 100_000_000 {
        MultipleDivides(f, ratio);
        assert false;
      }
      assert 10_000 * 10_000 < f * ratio && 10_000 * f >= f * 10_000;
    }
  }

  lemma MultipleDivides(q: nat, ratio: nat)
    requires 0 < ratio
    ensures (q * ratio) % ratio == 0
  {
    DivUnique(q * ratio, ratio, q);
  }

  lemma ExactFactor(collateral: nat, debt: nat, ratio: nat, f: nat)
    requires 0 < ratio && f * ratio == 100_000_000
    ensures collateral * 10_000 >= debt * ratio <==> collateral * f >= debt * 10_000
  {
    assert (collateral * f) * ratio == collateral * 100_000_000 by {
      assert (collateral * f) * ratio == collateral * (f * ratio);
    }
    assert (debt * 10_000) * ratio == (debt * ratio) * 10_000;
    if collateral * f >= debt * 10_000 {
      MulMono(debt * 10_000, collateral * f, ratio);
    }
    if collateral * 10_000 >= debt * ratio {
      MulCancel(debt * 10_000, collateral * f, ratio);
    }
  }
}
