/**
 * Calls worked out to the numbers: a borrow, a price change and the liquidation that follows; a seizure that
 * saturates; and a withdrawal that names another debt than the user's.
 */
module Scenario {
  import opened Prelude
  import opened Arith
  import opened Interest
  import opened Rewards
  import Oracle
  import opened Ledger
  import opened Invariants
  import opened Health
  import opened Liquidation
  import opened Batches

  const COLLATERAL: Address := Address(1)
  const DEBT: Address := Address(2)
  const USER: Address := Address(7)
  const LENDER: Address := Address(8)

  const IDLE: AssetRewards := AssetRewards(0, 0, 0, 0, 0)

  function Listed(price: int, borrowed: int): Asset {
    NO_ASSET.(supported := true, interest := Some(InterestState(RATE_SCALE, RATE_SCALE, 0)),
              totalDeposited := 100, totalBorrowed := borrowed, balance := 100 - borrowed,
              oracle := Oracle.NO_ORACLE.(price := Some(price), lastUpdated := Some(0)))
  }

  function Holds(deposited: int, borrowed: int): Account {
    NO_ACCOUNT.(pos := NO_POSITION.(deposited := deposited, borrowed := borrowed))
  }

  /** Two assets and the 150% rule: the user deposited 100 of one, a lender 100 of the other. */
  function Opening(): State {
    Initial(15_000, 0).(
      listed := [COLLATERAL, DEBT],
      assets := map[COLLATERAL := Listed(1, 0), DEBT := Listed(1, 0)],
      accounts := map[(USER, COLLATERAL) := Holds(100, 0), (LENDER, DEBT) := Holds(100, 0)])
  }

  /** After the user borrowed 60, with the debt asset's price at `price`. */
  function Borrowed(price: int): State {
    var o := if price == 1 then Listed(1, 60).oracle else Listed(price, 60).oracle.(prevPrice := Some(1));
    Opening().(
      assets := map[COLLATERAL := Listed(1, 0), DEBT := Listed(1, 60).(oracle := o, rewards := Some(IDLE))],
      accounts := map[(USER, COLLATERAL) := Holds(100, 0), (LENDER, DEBT) := Holds(100, 0), (USER, DEBT) := Holds(0, 60)])
  }

  lemma ListedSound(price: int, borrowed: int)
    requires price > 0
    ensures AssetSound(Listed(price, borrowed), 0)
  {
  }

  lemma OpeningSound()
    ensures Sound(Opening())
  {
    hide AssetSound;
    ListedSound(1, 0);
  }

  /** A position at the opening indexes is its own realisation. */
  lemma AtOpeningIndexes(s: State, u: Address, a: Address)
    requires AssetOf(s, a).interest == Some(InterestState(RATE_SCALE, RATE_SCALE, 0)) && s.now == 0
    requires AccountOf(s, u, a).pos.supplySnapshot == RATE_SCALE && AccountOf(s, u, a).pos.borrowSnapshot == RATE_SCALE
    ensures Realised(s, u, a) == AccountOf(s, u, a).pos
  {
    assert AccountOf(s, u, a).pos.deposited * 0 == 0 && AccountOf(s, u, a).pos.borrowed * 0 == 0;
  }

  /** The weighted sum over the two listed assets. */
  lemma WeightedPair(s: State, w: Weight)
    requires s.listed == [COLLATERAL, DEBT]
    requires WeightedTerm(s, USER, COLLATERAL, w, NoCut).Ok? && WeightedTerm(s, USER, DEBT, w, NoCut).Ok?
    ensures WeightedValue(s, USER, s.listed, w, NoCut)
              == Ok(WeightedTerm(s, USER, COLLATERAL, w, NoCut).value + WeightedTerm(s, USER, DEBT, w, NoCut).value)
  {
    hide WeightedTerm;
    assert s.listed[..1] == [COLLATERAL] && [COLLATERAL][..0] == [];
    assert WeightedValue(s, USER, [], w, NoCut) == Ok(0);
    assert WeightedValue(s, USER, [COLLATERAL], w, NoCut) == Ok(WeightedTerm(s, USER, COLLATERAL, w, NoCut).value);
  }

  lemma FirstAdvance()
    ensures AdvanceRewards(Listed(1, 0), 0) == Listed(1, 0).(rewards := Some(IDLE))
  {
    var r := Listed(1, 0);
    assert r.book.emittedSupply == 0 && r.book.emittedBorrow == 0 && r.rewards.None?;
  }

  lemma BorrowPosted()
    ensures PostAsset(Listed(1, 0).(rewards := Some(IDLE)), BorrowEntry(60)) == Listed(1, 60).(rewards := Some(IDLE))
  {
    var r := Listed(1, 0);
    assert r.book.repayDust == 0 && r.book.writtenOff == 0 && r.totalDeposited == 100 && r.totalBorrowed == 0;
  }

  lemma NothingEarned()
    ensures AccrueFromIndexes(UserRewards(0, 0, 0, 0), IDLE, 0, 0) == UserRewards(0, 0, 0, 0)
  {
  }

  lemma DebtStored()
    ensures Stored(Position(0, 60, RATE_SCALE, RATE_SCALE)) == Position(0, 60, RATE_SCALE, RATE_SCALE)
  {
  }

  lemma BorrowAccount()
    ensures PostedAccount(NO_ACCOUNT, IDLE, NO_POSITION, BorrowEntry(60)) == Holds(0, 60)
  {
    hide AccrueFromIndexes, Stored;
    NothingEarned();
    DebtStored();
  }

  /** The two records that the borrow writes. */
  lemma BorrowRecords()
    ensures AdvanceRewards(Listed(1, 0), 0).rewards == Some(IDLE)
    ensures PostedAsset(Listed(1, 0), 0, BorrowEntry(60)) == Listed(1, 60).(rewards := Some(IDLE))
    ensures PostedAccount(NO_ACCOUNT, IDLE, NO_POSITION, BorrowEntry(60)) == Holds(0, 60)
  {
    hide AdvanceRewards, PostAsset, PostedAccount, Listed, Holds;
    FirstAdvance();
    BorrowPosted();
    BorrowAccount();
  }

  lemma BorrowBody()
    ensures Body(Borrowing, Accrue(Opening(), DEBT), USER, DEBT, 60) == Ok(Borrowed(1))
  {
    hide Accrue, Realised, TouchAndPost, PostedAsset, PostedAccount, AdvanceRewards, Listed, Holds;
    var s := Opening();
    OpeningReads();
    BorrowRecords();
    TouchAndPostForm(s, USER, DEBT, BorrowEntry(60));
    var t := TouchAndPost(s, USER, DEBT, BorrowEntry(60));
    BorrowedRecord();
    assert t.assets == Borrowed(1).assets;
    assert t.accounts == Borrowed(1).accounts;
  }

  lemma OpeningReads()
    ensures Accrue(Opening(), DEBT) == Opening() && AssetOf(Opening(), DEBT).balance == 100
    ensures Realised(Opening(), USER, DEBT) == NO_POSITION
  {
    AccrueFresh(Opening(), DEBT);
    AtOpeningIndexes(Opening(), USER, DEBT);
  }

  lemma BorrowedRecord()
    ensures Borrowed(1).assets[DEBT] == Listed(1, 60).(rewards := Some(IDLE))
  {
  }

  lemma BorrowedReads(price: int)
    ensures var s := Borrowed(price);
      && Realised(s, USER, COLLATERAL) == NO_POSITION.(deposited := 100)
      && Realised(s, USER, DEBT) == NO_POSITION.(borrowed := 60)
      && (price > 0 ==> PriceOf(s, COLLATERAL) == Ok(1) && PriceOf(s, DEBT) == Ok(price))
  {
    hide Realised;
    AtOpeningIndexes(Borrowed(price), USER, COLLATERAL);
    AtOpeningIndexes(Borrowed(price), USER, DEBT);
  }

  lemma BorrowHealthy()
    ensures CheckHealth(Borrowed(1), USER, DEBT, 0, NoCut).Pass?
  {
    hide Realised, WeightedValue, WeightedTerm, PriceOf;
    BorrowedReads(1);
    TermsWorth(Borrowed(1), 60);
    WeightedPair(Borrowed(1), CollateralFactor);
  }

  lemma BorrowStep()
    ensures Borrow(Opening(), USER, DEBT, COLLATERAL, 60) == Ok(Borrowed(1))
  {
    hide Accrue, Body, CheckHealth, Borrow, Sound, Borrowed;
    OpeningSound();
    BorrowBody();
    BorrowHealthy();
    CapsUnset();
    SingleOkIff(Borrowing, Opening(), USER, DEBT, COLLATERAL, 60);
    SingleForm(Borrowing, Opening(), USER, DEBT, COLLATERAL, 60);
  }

  lemma CapsUnset()
    ensures CheckCaps(Borrowing, AssetOf(Accrue(Opening(), DEBT), DEBT), 60).Pass?
  {
    AccrueFresh(Opening(), DEBT);
  }

  lemma PriceStep()
    ensures SetOraclePrice(Borrowed(1), DEBT, 2) == Ok(Borrowed(2))
  {
    assert Borrowed(1).assets[DEBT := Borrowed(2).assets[DEBT]] == Borrowed(2).assets;
  }

  /** At price 2 the debt outweighs the collateral: 60 * 2 * 10000 against 100 * 6667. */
  lemma QuoteStep(s: State)
    requires SameMarket(Borrowed(2), s) && forall b :: Realised(s, USER, b) == Realised(Borrowed(2), USER, b)
    ensures QuoteLiquidation(s, USER, COLLATERAL, DEBT, 30) == Ok((30, 63))
  {
    hide Realised, WeightedValue, WeightedTerm, PriceOf, SameMarket;
    BorrowedReads(2);
    SameMarketSettings(Borrowed(2), s);
    SameMarketReads(Borrowed(2), s, DEBT, LiquidationThreshold);
    SameMarketReads(Borrowed(2), s, COLLATERAL, LiquidationThreshold);
    TermsWorth(Borrowed(2), 60);
    WeightedPair(Borrowed(2), LiquidationThreshold);
    WeightedValueFrame(Borrowed(2), s, USER, s.listed, LiquidationThreshold, NoCut, NoCut);
    assert SeizeAmount(60, 500, 1, 100) == 63;
  }

  /**
   * The user borrows 60 against 100, the price of the debt doubles, and the lender repays 30 for 63 of the
   * collateral; before the price moved nobody could liquidate.
   */
  lemma LiquidationHappens()
    ensures Sound(Opening()) && Borrow(Opening(), USER, DEBT, COLLATERAL, 60) == Ok(Borrowed(1))
    ensures Liquidate(Borrowed(1), LENDER, USER, COLLATERAL, DEBT, 30).Err?
    ensures SetOraclePrice(Borrowed(1), DEBT, 2) == Ok(Borrowed(2))
    ensures Liquidate(Borrowed(2), LENDER, USER, COLLATERAL, DEBT, 30).Ok?
    ensures Quoted(Borrowed(2), LENDER, USER, COLLATERAL, DEBT, 30) == (30, 63)
  {
    hide Sound, Borrow, PrepareLiquidation, QuoteLiquidation, SettleLiquidation, SameMarket, Realised, SetOraclePrice;
    OpeningSound();
    BorrowStep();
    PriceStep();
    BorrowThenNotLiquidatable(Opening(), USER, DEBT, COLLATERAL, 60, LENDER, COLLATERAL, 30);
    PrepareUnseen(Borrowed(2), LENDER, USER, COLLATERAL, DEBT);
    QuoteStep(PrepareLiquidation(Borrowed(2), LENDER, USER, COLLATERAL, DEBT));
  }

  /** 100 units at price 1 and the factor of the 150% rule. */
  lemma TermsWorth(s: State, borrowed: int)
    requires Realised(s, USER, COLLATERAL).deposited == 100 && Realised(s, USER, DEBT).deposited == 0
    requires PriceOf(s, COLLATERAL) == Ok(1) && AssetOf(s, COLLATERAL).risk.None? && s.minRatioBps == 15_000
    ensures forall w :: WeightedTerm(s, USER, COLLATERAL, w, NoCut) == Ok(666_700)
                        && WeightedTerm(s, USER, DEBT, w, NoCut) == Ok(0)
  {
    assert RatioToFactor(15_000) == 6_667;
  }

  // ---------------------------------------------------------------- a saturated seizure

  /** The largest debt whose value at full weight fits i128. */
  const LARGEST: int := I128_MAX / 10_000

  function Funded(deposited: int, borrowed: int, risk: Option<RiskParams>): Asset {
    Listed(1, 0).(totalDeposited := deposited, totalBorrowed := borrowed, balance := deposited - borrowed, risk := risk)
  }

  /**
   * The user owes the largest debt against a deposit of almost twice as much at a threshold of 50%; 70% may be
   * repaid at once, at a discount of 50%.
   */
  function Overextended(): State {
    Opening().(
      closeFactorBps := 7_000, discountBps := 5_000,
      assets := map[COLLATERAL := Funded(2 * LARGEST - 1, 0, Some(RiskParams(5_000, 5_000, 0))),
                    DEBT := Funded(LARGEST, LARGEST, None)],
      accounts := map[(USER, COLLATERAL) := Holds(2 * LARGEST - 1, 0), (LENDER, DEBT) := Holds(LARGEST, 0),
                      (USER, DEBT) := Holds(0, LARGEST)])
  }

  lemma FundedSound(deposited: int, borrowed: int, risk: Option<RiskParams>)
    requires risk.Some? ==> CheckRisk(risk.value).Pass?
    ensures AssetSound(Funded(deposited, borrowed, risk), 0)
  {
  }

  lemma OverextendedSound()
    ensures Sound(Overextended())
  {
    hide AssetSound;
    FundedSound(2 * LARGEST - 1, 0, Some(RiskParams(5_000, 5_000, 0)));
    FundedSound(LARGEST, LARGEST, None);
  }

  lemma OverextendedReads()
    ensures var s := Overextended();
      && Realised(s, USER, COLLATERAL) == NO_POSITION.(deposited := 2 * LARGEST - 1)
      && Realised(s, USER, DEBT) == NO_POSITION.(borrowed := LARGEST)
      && PriceOf(s, COLLATERAL) == Ok(1) && PriceOf(s, DEBT) == Ok(1)
      && WeightBps(s, COLLATERAL, LiquidationThreshold) == 5_000
  {
    hide Realised;
    AtOpeningIndexes(Overextended(), USER, COLLATERAL);
    AtOpeningIndexes(Overextended(), USER, DEBT);
  }

  lemma OverextendedWeighted()
    ensures WeightedValue(Overextended(), USER, Overextended().listed, LiquidationThreshold, NoCut)
              == Ok((2 * LARGEST - 1) * 5_000)
  {
    hide Realised, WeightedValue, PriceOf, WeightBps;
    OverextendedReads();
    WeightedPair(Overextended(), LiquidationThreshold);
  }

  lemma OverextendedQuote(s: State)
    requires SameMarket(Overextended(), s)
    requires forall b :: Realised(s, USER, b) == Realised(Overextended(), USER, b)
    ensures QuoteLiquidation(s, USER, COLLATERAL, DEBT, LARGEST * 7_000 / 10_000)
              == Ok((LARGEST * 7_000 / 10_000, 2 * LARGEST - 1))
  {
    hide Realised, WeightedValue, PriceOf, SameMarket, WeightBps;
    OverextendedReads();
    OverextendedWeighted();
    SameMarketSettings(Overextended(), s);
    SameMarketReads(Overextended(), s, DEBT, LiquidationThreshold);
    SameMarketReads(Overextended(), s, COLLATERAL, LiquidationThreshold);
    WeightedValueFrame(Overextended(), s, USER, s.listed, LiquidationThreshold, NoCut, NoCut);
  }

  /**
   * Every product the checks compute fits i128, and so does the threshold plus the discount in 100%; yet the
   * liquidation takes the whole deposit for a part of the debt, and the shortfall grows from 5000 to more than
   * a hundred thousand times that.
   */
  lemma SaturatedLiquidationWorsens()
    ensures var s := Overextended();
      && Sound(s) && WeightBps(s, COLLATERAL, LiquidationThreshold) + s.discountBps == 10_000
      && LARGEST * 10_000 <= I128_MAX && (2 * LARGEST - 1) * 5_000 <= I128_MAX
      && Liquidate(s, LENDER, USER, COLLATERAL, DEBT, LARGEST * 7_000 / 10_000).Ok?
      && Quoted(s, LENDER, USER, COLLATERAL, DEBT, LARGEST * 7_000 / 10_000) == (LARGEST * 7_000 / 10_000, 2 * LARGEST - 1)
      && var t := Liquidate(s, LENDER, USER, COLLATERAL, DEBT, LARGEST * 7_000 / 10_000).value;
         && Shortfall(s, USER, DEBT) == Ok(5_000)
         && Shortfall(t, USER, DEBT).Ok? && Shortfall(t, USER, DEBT).value > 100_000 * 5_000
  {
    hide Sound, Realised, PrepareLiquidation, QuoteLiquidation, SettleLiquidation, SameMarket, WeightedValue, PriceOf, WeightBps;
    var s := Overextended();
    OverextendedSound();
    OverextendedReads();
    OverextendedWeighted();
    PrepareUnseen(s, LENDER, USER, COLLATERAL, DEBT);
    OverextendedQuote(PrepareLiquidation(s, LENDER, USER, COLLATERAL, DEBT));
    ShortfallChange(s, LENDER, USER, COLLATERAL, DEBT, LARGEST * 7_000 / 10_000);
  }

  // ---------------------------------------------------------------- a withdrawal that names another debt

  /** Owing 60 of one asset, the user withdraws all 100 of the collateral by naming an asset they do not owe. */
  lemma WithdrawalNamingAnotherDebt()
    ensures Withdraw(Borrowed(1), USER, COLLATERAL, COLLATERAL, 100).Ok?
    ensures var t := Withdraw(Borrowed(1), USER, COLLATERAL, COLLATERAL, 100).value;
      && Realised(t, USER, COLLATERAL).deposited == 0 && Realised(t, USER, DEBT).borrowed == 60
      && Liquidate(t, LENDER, USER, COLLATERAL, DEBT, 30).Ok?
      && Quoted(t, LENDER, USER, COLLATERAL, DEBT, 30) == (30, 0)
  {
    hide Sound, Realised, Withdraw, PrepareLiquidation, QuoteLiquidation, SettleLiquidation, SameMarket, AssetOf;
    WithdrawalPasses();
    BorrowedSound();
    BorrowedReads(1);
    var s, t := Borrowed(1), Withdraw(Borrowed(1), USER, COLLATERAL, COLLATERAL, 100).value;
    OperationEffect(Withdrawing, s, USER, COLLATERAL, COLLATERAL, 100);
    BothSupported(t);
    var r := PrepareLiquidation(t, LENDER, USER, COLLATERAL, DEBT);
    PrepareUnseen(t, LENDER, USER, COLLATERAL, DEBT);
    SameMarketTrans(s, t, r);
    StrippedQuote(r);
  }

  lemma BorrowedSound()
    ensures Sound(Borrowed(1))
  {
    hide Sound, Borrowed, Borrow;
    OpeningSound();
    BorrowStep();
    SingleSound(Borrowing, Opening(), USER, DEBT, COLLATERAL, 60);
  }

  lemma BothSupported(t: State)
    requires SameMarket(Borrowed(1), t)
    ensures AssetOf(t, COLLATERAL).supported && AssetOf(t, DEBT).supported
  {
    assert AssetOf(Borrowed(1), COLLATERAL).supported && AssetOf(Borrowed(1), DEBT).supported;
  }

  lemma WithdrawalPasses()
    ensures Withdraw(Borrowed(1), USER, COLLATERAL, COLLATERAL, 100).Ok?
  {
    hide Accrue, Body, CheckHealth, Withdraw, Sound, TouchAndPost, Realised;
    var s := Borrowed(1);
    BorrowedSound();
    BorrowedReads(1);
    CollateralFresh();
    TouchAndPostSeen(s, USER, COLLATERAL, WithdrawEntry(100));
    var t := TouchAndPost(s, USER, COLLATERAL, WithdrawEntry(100));
    WithdrawalBody();
    NoDebtIsHealthy(t, COLLATERAL);
    SingleOkIff(Withdrawing, s, USER, COLLATERAL, COLLATERAL, 100);
  }

  lemma CollateralFresh()
    ensures Accrue(Borrowed(1), COLLATERAL) == Borrowed(1) && AssetOf(Borrowed(1), COLLATERAL).balance == 100
    ensures Fresh(AssetOf(Borrowed(1), COLLATERAL), 0)
  {
    AccrueFresh(Borrowed(1), COLLATERAL);
  }

  lemma WithdrawalBody()
    ensures Body(Withdrawing, Borrowed(1), USER, COLLATERAL, 100)
              == Ok(TouchAndPost(Borrowed(1), USER, COLLATERAL, WithdrawEntry(100)))
  {
    hide Realised, TouchAndPost;
    BorrowedReads(1);
    CollateralFresh();
  }

  lemma NoDebtIsHealthy(s: State, d: Address)
    requires Realised(s, USER, d).borrowed == 0
    ensures CheckHealth(s, USER, d, 0, NoCut).Pass?
  {
  }

  lemma StrippedQuote(s: State)
    requires SameMarket(Borrowed(1), s)
    requires Realised(s, USER, COLLATERAL).deposited == 0
    requires Realised(s, USER, DEBT) == NO_POSITION.(borrowed := 60)
    ensures QuoteLiquidation(s, USER, COLLATERAL, DEBT, 30) == Ok((30, 0))
  {
    hide Realised, WeightedValue, PriceOf, SameMarket, WeightBps;
    BorrowedReads(1);
    SameMarketSettings(Borrowed(1), s);
    SameMarketReads(Borrowed(1), s, DEBT, LiquidationThreshold);
    SameMarketReads(Borrowed(1), s, COLLATERAL, LiquidationThreshold);
    WeightedPair(s, LiquidationThreshold);
    assert SeizeAmount(30, 500, 1, 0) == 0;
  }
}
