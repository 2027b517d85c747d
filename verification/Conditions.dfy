/**
 * Exactly when each entrypoint succeeds, in terms of what is stored: switches, caps, reserves, the age of the
 * prices and the worth of the collateral at the stored prices.
 */
module Conditions {
  import opened Prelude
  import opened Arith
  import opened Interest
  import opened Rewards
  import Oracle
  import opened Ledger
  import opened Invariants
  import opened Health
  import opened Liquidation
  import opened Batches

  // ---------------------------------------------------------------- prices and worth

  /** The asset's stored price is positive and within the age limit. */
  predicate FreshPrice(s: State, a: Address) {
    Oracle.FreshAt(AssetOf(s, a).oracle, s.now, s.maxOracleAge)
  }

  function StoredPrice(s: State, a: Address): int {
    AssetOf(s, a).oracle.price.GetOr(0)
  }

  /** Every asset of the list in which a deposit is left has a fresh price. */
  ghost predicate DepositsPriced(s: State, u: Address, list: seq<Address>, cut: Cut) {
    forall b | b in list :: CutDeposit(s, u, b, cut) > 0 ==> FreshPrice(s, b)
  }

  /** The deposits left, each at its stored price and weight. */
  function Worth(s: State, u: Address, list: seq<Address>, w: Weight, cut: Cut): int {
    if |list| == 0 then 0
    else
      var b := list[|list| - 1];
      Worth(s, u, list[..|list| - 1], w, cut) + Max(CutDeposit(s, u, b, cut), 0) * StoredPrice(s, b) * WeightBps(s, b, w)
  }

  lemma PriceIffFresh(s: State, a: Address)
    ensures PriceOf(s, a).Ok? <==> FreshPrice(s, a)
    ensures FreshPrice(s, a) ==> PriceOf(s, a) == Ok(StoredPrice(s, a)) && StoredPrice(s, a) > 0
  {
    Oracle.ReadPriceIff(AssetOf(s, a).oracle, s.now, s.maxOracleAge);
  }

  lemma {:induction false} WeightedIsWorth(s: State, u: Address, list: seq<Address>, w: Weight, cut: Cut)
    ensures WeightedValue(s, u, list, w, cut).Ok? <==> DepositsPriced(s, u, list, cut)
    ensures DepositsPriced(s, u, list, cut) ==> WeightedValue(s, u, list, w, cut) == Ok(Worth(s, u, list, w, cut))
  {
    hide CutDeposit, PriceOf, FreshPrice, StoredPrice, WeightBps;
    if |list| > 0 {
      var before, b := list[..|list| - 1], list[|list| - 1];
      assert list == before + [b];
      WeightedIsWorth(s, u, before, w, cut);
      PriceIffFresh(s, b);
      assert CutDeposit(s, u, b, cut) <= 0 ==> 0 * StoredPrice(s, b) * WeightBps(s, b, w) == 0;
    }
  }

  /** The collateral check passes exactly when there is no debt, or every price it needs is fresh and they cover it. */
  ghost predicate Covered(s: State, u: Address, d: Address, debt: int, cut: Cut) {
    debt == 0
    || (&& FreshPrice(s, d) && DepositsPriced(s, u, s.listed, cut)
        && Worth(s, u, s.listed, CollateralFactor, cut) >= debt * StoredPrice(s, d) * 10_000)
  }

  lemma CheckIffCovered(s: State, u: Address, d: Address, extra: int, cut: Cut)
    ensures CheckHealth(s, u, d, extra, cut).Pass? <==> Covered(s, u, d, Realised(s, u, d).borrowed + extra, cut)
  {
    hide Realised, PriceOf, FreshPrice, StoredPrice, WeightedValue, Worth, DepositsPriced;
    PriceIffFresh(s, d);
    WeightedIsWorth(s, u, s.listed, CollateralFactor, cut);
  }

  /** The check reads nothing that accrual and reward settlement change. */
  lemma CheckFrame(s: State, t: State, u: Address, d: Address, extra: int, cut: Cut)
    requires SameMarket(s, t) && forall b :: Realised(s, u, b) == Realised(t, u, b)
    ensures CheckHealth(s, u, d, extra, cut) == CheckHealth(t, u, d, extra, cut)
  {
    hide Realised, SameMarket;
    SameMarketReads(s, t, d, CollateralFactor);
    SameMarketList(s, t);
    WeightedValueFrame(s, t, u, s.listed, CollateralFactor, cut, cut);
  }

  // ---------------------------------------------------------------- the four user operations

  /** What the asset's totals would be stays within its caps; -1 and 0 stand for none. */
  predicate CapsAllow(k: Kind, r: Asset, amount: int) {
    && (k.Supplying? ==> (r.depositCap == -1 || r.totalDeposited + amount <= r.depositCap)
                         && (r.supplyCap == 0 || r.totalDeposited + amount <= r.supplyCap))
    && (k.Borrowing? ==> (r.borrowCap == -1 || r.totalBorrowed + amount <= r.borrowCap)
                         && (r.aggregateBorrowCap == 0 || r.totalBorrowed + amount <= r.aggregateBorrowCap))
  }

  lemma DepositIff(s: State, u: Address, a: Address, amount: int)
    ensures Deposit(s, u, a, amount).Ok? <==>
      && !s.paused && AssetOf(s, a).supported && amount > 0
      && CapsAllow(Supplying, AssetOf(Accrue(s, a), a), amount)
  {
    hide Accrue, TouchAndPost;
  }

  lemma RepayIff(s: State, u: Address, a: Address, amount: int)
    ensures Repay(s, u, a, amount).Ok? <==>
      AssetOf(s, a).supported && 0 < amount <= Realised(s, u, a).borrowed
  {
    hide Accrue, TouchAndPost, Realised;
    AccrueUnseen(s, a);
  }

  /** The state in which a risky operation is checked shows what the state before the call shows. */
  lemma StageUnseen(s: State, u: Address, a: Address)
    ensures var t := Accrue(s, a);
      var touched := Touch(t, u, a, Realised(t, u, a));
      && SameMarket(s, touched) && (forall b :: Realised(touched, u, b) == Realised(s, u, b))
      && Realised(t, u, a) == Realised(s, u, a) && AssetOf(touched, a).balance == AssetOf(t, a).balance
  {
    hide Accrue, Touch, Realised, SameMarket;
    var t := Accrue(s, a);
    AccrueUnseen(s, a);
    TouchUnseen(t, u, a, Realised(t, u, a));
    SameMarketTrans(s, t, Touch(t, u, a, Realised(t, u, a)));
  }

  /**
   * A borrow succeeds exactly when nothing is switched off, the caps and the reserve allow it, and the deposits
   * at their stored prices, fresh for every asset that counts and for the borrowed one, cover the new debt.
   */
  lemma BorrowIff(s: State, u: Address, a: Address, collateral: Address, amount: int)
    requires Sound(s)
    ensures Borrow(s, u, a, collateral, amount).Ok? <==>
      && !s.paused && AssetOf(s, a).supported && AssetOf(s, collateral).supported && amount > 0
      && CapsAllow(Borrowing, AssetOf(Accrue(s, a), a), amount) && amount <= AssetOf(Accrue(s, a), a).balance
      && FreshPrice(s, a) && DepositsPriced(s, u, s.listed, NoCut)
      && Worth(s, u, s.listed, CollateralFactor, NoCut)
           >= (Realised(s, u, a).borrowed + amount) * StoredPrice(s, a) * 10_000
  {
    hide Sound, Accrue, Touch, Realised, Post, CheckHealth, FreshPrice, DepositsPriced, Worth, StoredPrice, SameMarket;
    var t := Accrue(s, a);
    var touched := Touch(t, u, a, Realised(t, u, a));
    RealisedSound(s, u, a);
    StageUnseen(s, u, a);
    CheckFrame(s, touched, u, a, amount, NoCut);
    CheckIffCovered(s, u, a, amount, NoCut);
  }

  /** A withdrawal likewise, for the deposits that it leaves and the debt that it names; no pause stops it. */
  lemma WithdrawIff(s: State, u: Address, a: Address, debtAsset: Address, amount: int)
    requires Sound(s)
    ensures Withdraw(s, u, a, debtAsset, amount).Ok? <==>
      && AssetOf(s, a).supported && AssetOf(s, debtAsset).supported
      && 0 < amount <= Realised(s, u, a).deposited && amount <= AssetOf(Accrue(s, a), a).balance
      && Covered(s, u, debtAsset, Realised(s, u, debtAsset).borrowed, Cut(a, amount))
  {
    hide Sound, Accrue, Touch, Realised, Post, CheckHealth, Covered, SameMarket;
    var t := Accrue(s, a);
    var touched := Touch(t, u, a, Realised(t, u, a));
    StageUnseen(s, u, a);
    CheckFrame(s, touched, u, debtAsset, 0, Cut(a, amount));
    CheckIffCovered(s, u, debtAsset, 0, Cut(a, amount));
  }

  // ---------------------------------------------------------------- liquidation

  lemma QuoteIff(s: State, u: Address, c: Address, d: Address, amount: int)
    requires Sound(s) && amount > 0
    ensures var debt := Realised(s, u, d).borrowed;
      QuoteLiquidation(s, u, c, d, amount).Ok? <==>
        && debt > 0 && FreshPrice(s, d) && FreshPrice(s, c) && DepositsPriced(s, u, s.listed, NoCut)
        && Worth(s, u, s.listed, LiquidationThreshold, NoCut) < debt * StoredPrice(s, d) * 10_000
        && Min(amount, debt) * 10_000 <= debt * s.closeFactorBps
  {
    hide Sound, Realised, PriceOf, FreshPrice, StoredPrice, WeightedValue, Worth, DepositsPriced, SeizeAmount;
    var debt := Realised(s, u, d).borrowed;
    RealisedSound(s, u, d);
    PriceIffFresh(s, d);
    PriceIffFresh(s, c);
    WeightedIsWorth(s, u, s.listed, LiquidationThreshold, NoCut);
    CloseFactorIff(debt, s.closeFactorBps, Min(amount, debt));
  }

  lemma CloseFactorIff(debt: nat, closeBps: nat, repaid: int)
    ensures repaid <= TruncDiv(debt * closeBps, 10_000) <==> repaid * 10_000 <= debt * closeBps
  {
    MulNonNeg(debt, closeBps);
    DivBounds(debt * closeBps, 10_000);
  }

  lemma FreshFrame(s: State, t: State, a: Address)
    requires SameMarket(s, t)
    ensures FreshPrice(s, a) == FreshPrice(t, a) && StoredPrice(s, a) == StoredPrice(t, a)
  {
  }

  lemma {:induction false} WorthFrame(s: State, t: State, u: Address, list: seq<Address>, w: Weight, cut: Cut)
    requires SameMarket(s, t) && forall b :: Realised(s, u, b) == Realised(t, u, b)
    ensures Worth(s, u, list, w, cut) == Worth(t, u, list, w, cut)
    ensures DepositsPriced(s, u, list, cut) == DepositsPriced(t, u, list, cut)
  {
    hide SameMarket, Realised, FreshPrice, StoredPrice, WeightBps;
    forall b
      ensures FreshPrice(s, b) == FreshPrice(t, b) && StoredPrice(s, b) == StoredPrice(t, b)
    {
      FreshFrame(s, t, b);
    }
    if |list| > 0 {
      WorthFrame(s, t, u, list[..|list| - 1], w, cut);
      SameMarketReads(s, t, list[|list| - 1], w);
    }
  }

  /**
   * A liquidation succeeds exactly when the debt, at its stored price, outweighs the threshold-weighted deposits
   * at theirs, all of them fresh, the seized asset's too, and the repayment is within the close factor.
   */
  lemma LiquidateIff(s: State, l: Address, u: Address, c: Address, d: Address, amount: int)
    requires Sound(s)
    ensures var debt := Realised(s, u, d).borrowed;
      Liquidate(s, l, u, c, d, amount).Ok? <==>
        && AssetOf(s, c).supported && AssetOf(s, d).supported && amount > 0
        && debt > 0 && FreshPrice(s, d) && FreshPrice(s, c) && DepositsPriced(s, u, s.listed, NoCut)
        && Worth(s, u, s.listed, LiquidationThreshold, NoCut) < debt * StoredPrice(s, d) * 10_000
        && Min(amount, debt) * 10_000 <= debt * s.closeFactorBps
  {
    hide Sound, Realised, PrepareLiquidation, QuoteLiquidation, SettleLiquidation, SameMarket;
    hide FreshPrice, StoredPrice, Worth, DepositsPriced, AssetOf;
    var t := PrepareLiquidation(s, l, u, c, d);
    PrepareLiquidationSound(s, l, u, c, d);
    PrepareUnseen(s, l, u, c, d);
    SameMarketSettings(s, t);
    FreshFrame(s, t, c);
    FreshFrame(s, t, d);
    WorthFrame(s, t, u, s.listed, LiquidationThreshold, NoCut);
    if amount > 0 {
      QuoteIff(t, u, c, d, amount);
    }
  }

  /**
   * What it seizes is the repayment plus the discount at the stored prices, rounded down, unless the deposit is
   * smaller; a scaled repayment that leaves i128 counts as the largest i128 (see `SaturatedSeizure`).
   */
  lemma SeizedBracket(s: State, l: Address, u: Address, c: Address, d: Address, amount: int)
    requires Sound(s) && Liquidate(s, l, u, c, d, amount).Ok?
    ensures var (repaid, seized) := Quoted(s, l, u, c, d, amount);
      var scaled, price := repaid * StoredPrice(s, d) * (10_000 + s.discountBps), StoredPrice(s, c);
      var held := Realised(s, u, c).deposited;
      && repaid == Min(amount, Realised(s, u, d).borrowed) && 0 <= seized <= held
      && (scaled <= I128_MAX ==>
            seized * price * 10_000 <= scaled && (seized < held ==> scaled < (seized + 1) * price * 10_000))
  {
    hide Sound, Realised, Liquidate, Quoted, PriceOf, FreshPrice, StoredPrice, SeizeAmount;
    LiquidationWithinDiscount(s, l, u, c, d, amount);
    PriceIffFresh(s, c);
    PriceIffFresh(s, d);
    var (repaid, seized) := Quoted(s, l, u, c, d, amount);
    MulNonNeg(repaid, StoredPrice(s, d));
    SeizeBracket(repaid * StoredPrice(s, d), s.discountBps, StoredPrice(s, c), Realised(s, u, c).deposited);
  }

  lemma SeizeBracket(value: nat, discountBps: nat, price: int, held: nat)
    requires price > 0
    ensures var seized := SeizeAmount(value, discountBps, price, held);
      value * (10_000 + discountBps) <= I128_MAX && seized < held ==>
        value * (10_000 + discountBps) < (seized + 1) * price * 10_000
  {
    var scaled := value * (10_000 + discountBps);
    MulNonNeg(value, 10_000 + discountBps);
    var worth := scaled / 10_000;
    DivBounds(scaled, 10_000);
    DivNonNeg(scaled, 10_000);
    DivBounds(worth, price);
  }

  // ---------------------------------------------------------------- one asset as collateral

  lemma {:induction false} WorthOfOne(s: State, u: Address, list: seq<Address>, c: Address, w: Weight)
    requires NoDuplicates(list) && forall b | b in list && b != c :: Realised(s, u, b).deposited == 0
    ensures Worth(s, u, list, w, NoCut)
         == if c in list then Max(Realised(s, u, c).deposited, 0) * StoredPrice(s, c) * WeightBps(s, c, w) else 0
  {
    hide Realised, StoredPrice, WeightBps;
    if |list| > 0 {
      var before, b := list[..|list| - 1], list[|list| - 1];
      assert list == before + [b];
      WorthOfOne(s, u, before, c, w);
      assert b != c ==> 0 * StoredPrice(s, b) * WeightBps(s, b, w) == 0;
    }
  }

  /** The only listed asset in which the user has a deposit is `c`, and it carries risk parameters of its own. */
  ghost predicate SoleDeposit(s: State, u: Address, c: Address) {
    && c in s.listed && AssetOf(s, c).risk.Some? && Realised(s, u, c).deposited > 0
    && forall b | b in s.listed && b != c :: Realised(s, u, b).deposited == 0
  }

  lemma SoleWorth(s: State, u: Address, c: Address)
    requires Sound(s) && SoleDeposit(s, u, c)
    ensures var value := Realised(s, u, c).deposited * StoredPrice(s, c);
      && Worth(s, u, s.listed, CollateralFactor, NoCut) == value * AssetOf(s, c).risk.value.collateralFactorBps
      && Worth(s, u, s.listed, LiquidationThreshold, NoCut) == value * AssetOf(s, c).risk.value.liquidationThresholdBps
    ensures DepositsPriced(s, u, s.listed, NoCut) <==> FreshPrice(s, c)
    ensures AssetOf(s, c).supported
  {
    hide Realised, StoredPrice, FreshPrice, AccountSound, AssetSound;
    WorthOfOne(s, u, s.listed, c, CollateralFactor);
    WorthOfOne(s, u, s.listed, c, LiquidationThreshold);
  }

  /** Such a user can borrow up to the collateral factor of that deposit, no more and no less. */
  lemma SoleBorrowIff(s: State, u: Address, c: Address, d: Address, amount: int)
    requires Sound(s) && SoleDeposit(s, u, c) && FreshPrice(s, c) && FreshPrice(s, d)
    requires !s.paused && AssetOf(s, d).supported && amount > 0
    requires CapsAllow(Borrowing, AssetOf(Accrue(s, d), d), amount) && amount <= AssetOf(Accrue(s, d), d).balance
    ensures Borrow(s, u, d, c, amount).Ok? <==>
      (Realised(s, u, d).borrowed + amount) * StoredPrice(s, d) * 10_000
        <= Realised(s, u, c).deposited * StoredPrice(s, c) * AssetOf(s, c).risk.value.collateralFactorBps
  {
    hide Sound, Realised, Borrow, FreshPrice, StoredPrice, Worth, DepositsPriced, Accrue, CapsAllow, SoleDeposit;
    SoleWorth(s, u, c);
    BorrowIff(s, u, d, c, amount);
  }

  /** And such a user can be liquidated exactly when the debt is past the liquidation threshold of that deposit. */
  lemma SoleLiquidateIff(s: State, l: Address, u: Address, c: Address, d: Address, amount: int)
    requires Sound(s) && SoleDeposit(s, u, c) && FreshPrice(s, c) && FreshPrice(s, d) && AssetOf(s, d).supported
    requires 0 < amount && amount * 10_000 <= Realised(s, u, d).borrowed * s.closeFactorBps
    ensures Liquidate(s, l, u, c, d, amount).Ok? <==>
      Realised(s, u, d).borrowed * StoredPrice(s, d) * 10_000
        > Realised(s, u, c).deposited * StoredPrice(s, c) * AssetOf(s, c).risk.value.liquidationThresholdBps
  {
    hide Realised, Liquidate, FreshPrice, StoredPrice, Worth, DepositsPriced, SoleDeposit;
    hide AccountSound, AssetSound, ListSound;
    var debt := Realised(s, u, d).borrowed;
    RealisedSound(s, u, d);
    assert debt > 0 && Min(amount, debt) == amount by {
      MulMono(s.closeFactorBps, 10_000, debt);
      assert amount * 10_000 <= debt * 10_000;
    }
    SoleWorth(s, u, c);
    LiquidateIff(s, l, u, c, d, amount);
  }

  // ---------------------------------------------------------------- the risk-bearing batches

  /** The debts in a list of assets at their stored prices. */
  function Owing(s: State, u: Address, list: seq<Address>): int {
    if |list| == 0 then 0
    else
      var d := list[|list| - 1];
      Owing(s, u, list[..|list| - 1]) + Realised(s, u, d).borrowed * StoredPrice(s, d)
  }

  lemma {:induction false} DebtIsOwing(s: State, u: Address, list: seq<Address>)
    ensures DebtValue(s, u, list).Ok? <==> forall d | d in list :: FreshPrice(s, d)
    ensures (forall d | d in list :: FreshPrice(s, d)) ==> DebtValue(s, u, list) == Ok(Owing(s, u, list))
  {
    hide Realised, PriceOf, FreshPrice, StoredPrice;
    if |list| > 0 {
      assert list == list[..|list| - 1] + [list[|list| - 1]];
      DebtIsOwing(s, u, list[..|list| - 1]);
      PriceIffFresh(s, list[|list| - 1]);
    }
  }

  /** The joint check of a borrow batch, in stored terms. */
  lemma JointCheckIff(s: State, u: Address, list: seq<Address>)
    ensures CheckBatchBorrowHealth(s, u, list).Pass? <==>
      && (forall d | d in list :: FreshPrice(s, d))
      && (Owing(s, u, list) == 0
          || (DepositsPriced(s, u, s.listed, NoCut)
              && Worth(s, u, s.listed, CollateralFactor, NoCut) >= Owing(s, u, list) * 10_000))
  {
    hide Realised, PriceOf, FreshPrice, StoredPrice, WeightedValue, Worth, DepositsPriced, DebtValue, Owing;
    DebtIsOwing(s, u, list);
    WeightedIsWorth(s, u, s.listed, CollateralFactor, NoCut);
  }

  /** A debt that stays means something is owed. */
  lemma {:induction false} OwingPositive(s: State, u: Address, list: seq<Address>, d: Address)
    requires Sound(s) && (forall b | b in list :: FreshPrice(s, b)) && d in list && Realised(s, u, d).borrowed > 0
    ensures Owing(s, u, list) > 0
  {
    hide Sound, Realised, WeightedValue;
    DebtIsOwing(s, u, list);
    DebtWithinSum(s, u, list, d);
    PriceIffFresh(s, d);
    MulMono(1, Realised(s, u, d).borrowed, StoredPrice(s, d));
  }

  /**
   * A borrow batch that succeeds, with all it named borrowed, read only fresh prices: those of every asset it
   * names and of every listed asset in which the user has a deposit, and at these prices the deposits cover all
   * the named debts together.
   */
  lemma BorrowBatchPriced(s: State, u: Address, collateral: Address, ops: seq<BatchOp>)
    requires Sound(s) && |ops| > 0 && BorrowBatch(s, u, collateral, ops).Ok?
    ensures var t := BorrowBatch(s, u, collateral, ops).value;
      && (forall i | 0 <= i < |ops| :: FreshPrice(s, ops[i].asset))
      && DepositsPriced(t, u, t.listed, NoCut)
      && (forall b :: FreshPrice(t, b) == FreshPrice(s, b) && Realised(t, u, b).deposited == Realised(s, u, b).deposited)
      && Owing(t, u, UniqueAssets(ops)) > 0
      && Worth(t, u, t.listed, CollateralFactor, NoCut) >= Owing(t, u, UniqueAssets(ops)) * 10_000
  {
    hide Sound, BorrowBatch, Bodies, Accrue, Realised, FreshPrice, StoredPrice, Worth, Owing, SameMarket, DepositsPriced;
    hide CheckBatchBorrowHealth, UniqueAssets, CapsHold, ValidateOps, Switches;
    BorrowBatchForm(s, u, collateral, ops);
    ValidMeansPositive(s, ops);
    BodiesSound(Borrowing, s, u, ops);
    var end := Bodies(Borrowing, s, u, ops).value;
    var t := Accrue(end, collateral);
    AccrueSound(end, collateral);
    AllLead(Borrowing, s, u, ops);
    AccrueUnseen(end, collateral);
    SameMarketTrans(s, end, t);
    JointCheckFrame(end, u, collateral, UniqueAssets(ops));
    JointCheckIff(t, u, UniqueAssets(ops));
    UniqueAssetsNamed(ops);
    forall b
      ensures FreshPrice(t, b) == FreshPrice(s, b)
    {
      FreshFrame(s, t, b);
    }
    assert Names(ops, ops[0].asset);
    LastDebt(s, u, ops);
    OwingPositive(t, u, UniqueAssets(ops), ops[|ops| - 1].asset);
  }

  /** The user owes the asset that the last operation of the batch borrowed. */
  lemma LastDebt(s: State, u: Address, ops: seq<BatchOp>)
    requires Sound(s) && |ops| > 0 && AllPositive(ops) && Bodies(Borrowing, s, u, ops).Ok?
    ensures Realised(Bodies(Borrowing, s, u, ops).value, u, ops[|ops| - 1].asset).borrowed > 0
    ensures Names(ops, ops[|ops| - 1].asset)
  {
    hide Sound, Accrue, Realised, TouchAndPost, Fresh, SameMarket;
    var before, op := ops[..|ops| - 1], ops[|ops| - 1];
    var t := Bodies(Borrowing, s, u, before).value;
    BodiesSound(Borrowing, s, u, before);
    AccrueSound(t, op.asset);
    RealisedSound(Accrue(t, op.asset), u, op.asset);
    TouchAndPostSeen(Accrue(t, op.asset), u, op.asset, BorrowEntry(op.amount));
  }

  /** From the state before a batch to the one after its operations, balances move one way. */
  lemma {:induction false} AllLead(k: Kind, s: State, u: Address, ops: seq<BatchOp>)
    requires Sound(s) && (k.Borrowing? || k.Withdrawing?) && AllPositive(ops) && Bodies(k, s, u, ops).Ok?
    ensures Leads(k, s, Bodies(k, s, u, ops).value, u)
  {
    hide Sound, Accrue, Body, Leads;
    if |ops| == 0 {
      LeadsReflexive(k, s, u);
    } else {
      var before := ops[..|ops| - 1];
      AllLead(k, s, u, before);
      LastBodyLeads(k, s, u, ops);
      LeadsTrans(k, s, Bodies(k, s, u, before).value, Bodies(k, s, u, ops).value, u);
    }
  }

  /** A withdraw batch leaves the named debt nil or covered, at fresh stored prices of all the deposits it leaves. */
  lemma WithdrawBatchPriced(s: State, u: Address, debtAsset: Address, ops: seq<BatchOp>)
    requires Sound(s) && WithdrawBatch(s, u, debtAsset, ops).Ok?
    ensures var t := WithdrawBatch(s, u, debtAsset, ops).value;
      && (forall b :: FreshPrice(t, b) == FreshPrice(s, b))
      && Realised(t, u, debtAsset).borrowed == Realised(s, u, debtAsset).borrowed
      && Covered(t, u, debtAsset, Realised(t, u, debtAsset).borrowed, NoCut)
  {
    hide Sound, WithdrawBatch, Bodies, Accrue, Realised, FreshPrice, SameMarket, Covered, CheckHealth, ValidateOps, Switches;
    WithdrawBatchForm(s, u, debtAsset, ops);
    ValidMeansPositive(s, ops);
    var end := Bodies(Withdrawing, s, u, ops).value;
    var t := Accrue(end, debtAsset);
    AllLead(Withdrawing, s, u, ops);
    AccrueUnseen(end, debtAsset);
    SameMarketTrans(s, end, t);
    CheckHealthFrame(end, t, u, debtAsset);
    CheckIffCovered(t, u, debtAsset, 0, NoCut);
    forall b
      ensures FreshPrice(t, b) == FreshPrice(s, b)
    {
      FreshFrame(s, t, b);
    }
  }

  // ---------------------------------------------------------------- write-offs, flash loans and fees

  lemma {:induction false} UncollateralisedIff(s: State, u: Address, list: seq<Address>)
    ensures AccrueUncollateralised(s, u, list).Ok? <==> forall b | b in list :: Realised(s, u, b).deposited <= 0
    ensures AccrueUncollateralised(s, u, list).Ok? ==>
      forall v, b :: Realised(AccrueUncollateralised(s, u, list).value, v, b) == Realised(s, v, b)
  {
    hide Accrue, Realised;
    if |list| > 0 {
      var before, b := list[..|list| - 1], list[|list| - 1];
      assert list == before + [b];
      UncollateralisedIff(s, u, before);
      if AccrueUncollateralised(s, u, before).Ok? {
        AccrueUnseen(AccrueUncollateralised(s, u, before).value, b);
      }
    }
  }

  /** A write-off succeeds exactly when there is no debt or no deposit in any listed asset, and then clears the debt. */
  lemma WriteoffIff(s: State, u: Address, d: Address)
    requires Sound(s)
    ensures WriteoffBadDebt(s, u, d).Ok? <==>
      && !s.paused
      && (Realised(s, u, d).borrowed == 0 || forall b | b in s.listed :: Realised(s, u, b).deposited <= 0)
    ensures WriteoffBadDebt(s, u, d).Ok? ==>
      var t := WriteoffBadDebt(s, u, d).value;
      && Realised(t, u, d) == Realised(s, u, d).(borrowed := 0)
      && (forall v, b | (v, b) != (u, d) :: Realised(t, v, b) == Realised(s, v, b))
  {
    hide Sound, Accrue, Realised, Post, AccrueUncollateralised, SameMarket, Fresh;
    var t := Accrue(s, d);
    AccrueSound(s, d);
    AccrueUnseen(s, d);
    UncollateralisedIff(t, u, s.listed);
    if Realised(s, u, d).borrowed != 0 && AccrueUncollateralised(t, u, s.listed).Ok? {
      var end := AccrueUncollateralised(t, u, s.listed).value;
      AccrueUncollateralisedSound(t, u, s.listed);
      PostSeen(end, u, d, Entry(0, -Realised(t, u, d).borrowed, 0, 0, Realised(t, u, d).borrowed));
    }
  }

  lemma PremiumRoundsUp(amount: nat, premiumBps: nat)
    ensures var p := PremiumRoundedUp(amount, premiumBps);
      0 <= p && (p - 1) * 10_000 < amount * premiumBps <= p * 10_000
  {
    MulNonNeg(amount, premiumBps);
    DivBounds(amount * premiumBps + 9_999, 10_000);
    DivNonNeg(amount * premiumBps + 9_999, 10_000);
  }

  lemma ShareIff(amount: int, whole: int, bps: nat)
    requires amount > 0
    ensures amount <= TruncDiv(whole * bps, 10_000) <==> amount * 10_000 <= whole * bps
  {
    if whole * bps >= 0 {
      DivBounds(whole * bps, 10_000);
    } else {
      DivNonNeg(-(whole * bps), 10_000);
    }
  }

  /**
   * A flash loan succeeds exactly within its switches, its share of the reserve and the reserve itself, and
   * leaves the reserve, the fees and total deposited larger by the premium, rounded up.
   */
  lemma FlashLoanIff(s: State, a: Address, amount: int, ok: bool)
    ensures var r, config := AssetOf(Accrue(s, a), a), AssetOf(s, a).flash;
      FlashLoan(s, a, amount, ok).Ok? <==>
        && !s.paused && AssetOf(s, a).supported && amount > 0 && config.Some? && config.value.enabled
        && amount * 10_000 <= r.balance * config.value.maxBps && amount <= r.balance && ok
    ensures FlashLoan(s, a, amount, ok).Ok? ==>
      var r, q := AssetOf(Accrue(s, a), a), AssetOf(FlashLoan(s, a, amount, ok).value, a);
      var premium := q.balance - r.balance;
      && q.fees - r.fees == premium && q.totalDeposited - r.totalDeposited == premium
      && q.totalBorrowed == r.totalBorrowed
      && (premium - 1) * 10_000 < amount * AssetOf(s, a).flash.value.premiumBps <= premium * 10_000
  {
    hide Accrue, PremiumRoundedUp, TruncDiv;
    if amount > 0 && AssetOf(s, a).flash.Some? {
      ShareIff(amount, AssetOf(Accrue(s, a), a).balance, AssetOf(s, a).flash.value.maxBps);
      PremiumRoundsUp(amount, AssetOf(s, a).flash.value.premiumBps);
    }
  }

  /** Fees are recorded within the limit on the net reserve, if there is one, and withdrawn within what is there. */
  lemma FeesIff(s: State, a: Address, to: Address, amount: int, host: Host)
    ensures var r := AssetOf(Accrue(s, a), a);
      ApplyAction(s, RecordFee(a, amount), host).Ok? <==>
        && AssetOf(s, a).supported && amount > 0
        && (s.maxFeeBps == 0 || amount * 10_000 <= (r.balance - r.fees) * s.maxFeeBps)
    ensures ApplyAction(s, WithdrawFees(a, to, amount), host).Ok? <==>
      && AssetOf(s, a).supported && 0 < amount <= AssetOf(s, a).fees && amount <= AssetOf(Accrue(s, a), a).fees
  {
    hide Accrue, TruncDiv;
    if amount > 0 {
      ShareIff(amount, AssetOf(Accrue(s, a), a).balance - AssetOf(Accrue(s, a), a).fees, s.maxFeeBps);
    }
  }

  /** The risk parameters that governance accepts. */
  lemma RiskAcceptedIff(s: State, a: Address, risk: RiskParams, host: Host)
    ensures ApplyAction(s, SetAssetRiskParams(a, risk), host).Ok? <==>
      && AssetOf(s, a).supported
      && risk.collateralFactorBps <= risk.liquidationThresholdBps <= 10_000 && risk.liquidationBonusBps <= 2_000
      && risk.liquidationThresholdBps + risk.liquidationBonusBps <= 10_000
  {
  }

  /** The interest parameters that their setter accepts; they keep every rate within 1000% a year. */
  lemma RatesAcceptedIff(s: State, a: Address, params: InterestParams)
    ensures SetInterestParams(s, a, params).Ok? <==>
      && AssetOf(s, a).supported && !s.paused && 1_000 <= params.kinkUtilBps <= 9_500
      && params.baseRateBps + params.slope1Bps + params.slope2Bps <= 100_000 && params.reserveFactorBps <= 5_000
    ensures SetInterestParams(s, a, params).Ok? ==>
      forall util | 0 <= util <= 10_000 :: BorrowRate(params, util) <= 100_000
  {
    hide Accrue, BorrowRate;
    if SetInterestParams(s, a, params).Ok? {
      forall util | 0 <= util <= 10_000
        ensures BorrowRate(params, util) <= 100_000
      {
        BorrowRateBounded(params, util);
      }
    }
  }

  // ---------------------------------------------------------------- rewards

  /** What one settlement adds to one counter, against the holder's pro-rata share of the emission since the last one. */
  predicate PaidShare(paid: int, balance: int, emitted: int, total: int) {
    && 0 <= paid && paid * total <= balance * emitted
    && balance * emitted * RATE_SCALE < ((paid + 1) * RATE_SCALE + balance) * total
  }

  /**
   * A user settled at the pool's last advance is paid, at the next touch, the pro-rata share of what the speeds
   * emitted in between, on both sides, short of it by the roundings alone.
   */
  lemma TouchPaysShare(s: State, u: Address, a: Address, p: Position)
    requires AssetOf(s, a).rewards.Some? && AssetOf(s, a).rewards.value.lastTs <= s.now
    requires p.deposited >= 0 && p.borrowed >= 0
    requires var st := AssetOf(s, a).rewards.value;
      && st.supplySpeed >= 0 && st.borrowSpeed >= 0
      && AccountOf(s, u, a).rew.supplySnapshot == st.supplyIndex && AccountOf(s, u, a).rew.borrowSnapshot == st.borrowIndex
    ensures var r, t := AssetOf(s, a), Touch(s, u, a, p);
      var elapsed := s.now - r.rewards.value.lastTs;
      var before, after := AccountOf(s, u, a).rew, AccountOf(t, u, a).rew;
      && (r.totalDeposited > 0 ==>
            PaidShare(after.unclaimedSupply - before.unclaimedSupply, p.deposited,
                      r.rewards.value.supplySpeed * elapsed, r.totalDeposited))
      && (r.totalBorrowed > 0 ==>
            PaidShare(after.unclaimedBorrow - before.unclaimedBorrow, p.borrowed,
                      r.rewards.value.borrowSpeed * elapsed, r.totalBorrowed))
  {
    hide IndexDelta, Earned, PaidShare;
    var r := AssetOf(s, a);
    var st, elapsed := r.rewards.value, s.now - r.rewards.value.lastTs;
    if r.totalDeposited > 0 {
      ShareOfEmission(p.deposited, st.supplySpeed, elapsed, r.totalDeposited, st.supplyIndex);
    }
    if r.totalBorrowed > 0 {
      ShareOfEmission(p.borrowed, st.borrowSpeed, elapsed, r.totalBorrowed, st.borrowIndex);
    }
  }

  lemma ShareOfEmission(balance: nat, speed: nat, elapsed: nat, total: int, index: int)
    requires 0 < total
    ensures PaidShare(Earned(balance, index + IndexDelta(speed, elapsed, total), index), balance, speed * elapsed, total)
    ensures elapsed == 0 ==> IndexDelta(speed, elapsed, total) == 0
  {
    HolderEarnsShare(balance, speed, elapsed, total, index);
    if elapsed == 0 {
      assert speed * 0 * RATE_SCALE == 0;
    }
  }
}
