/** One run worked out to the numbers: an asset liquidated against itself, and the rewards that it overpays. */
module InPlace {
  import opened Prelude
  import opened Interest
  import opened Rewards
  import Oracle
  import opened Ledger
  import opened Invariants
  import opened Health
  import opened Batches
  import opened Scenario
  import opened Overdraft
  import Governance
  import Solvency

  /** Ten reward units a second to borrowers, none to suppliers, and no interest. */
  const PAYING: AssetRewards := AssetRewards(0, 0, 0, 10, 0)

  function PayAsset(deposited: int, borrowed: int, balance: int): Asset {
    NO_ASSET.(supported := true, interest := Some(START),
              totalDeposited := deposited, totalBorrowed := borrowed, balance := balance, rewards := Some(PAYING),
              oracle := Oracle.NO_ORACLE.(price := Some(1), lastUpdated := Some(0)))
  }

  function Paying(ratio: nat, r: Asset, accounts: map<(Address, Address), Account>): State {
    Solo(0, r, accounts).(minRatioBps := ratio)
  }

  function Mine(deposited: int, borrowed: int): Account {
    SoloAccount(Position(deposited, borrowed, RATE_SCALE, RATE_SCALE))
  }

  function PayBefore(): State {
    Paying(15_000, PayAsset(0, 0, 0), map[])
  }

  function PayDeposited(): State {
    Paying(15_000, PayAsset(150, 0, 150), map[(USER, DEBT) := Mine(150, 0)])
  }

  function PayBorrowed(ratio: nat): State {
    Paying(ratio, PayAsset(150, 100, 50), map[(USER, DEBT) := Mine(150, 100)])
  }

  /** The lender exists for the rewards, not yet for the positions. */
  function PayTouched(): State {
    Paying(20_000, PayAsset(150, 100, 50), map[(USER, DEBT) := Mine(150, 100), (LENDER, DEBT) := Mine(0, 0)])
  }

  /** Half of the debt is repaid, and still owed. */
  function PayLiquidated(now: nat): State {
    Paying(20_000, PayAsset(150, 50, 100), map[(USER, DEBT) := Mine(98, 100), (LENDER, DEBT) := Mine(52, 0)]).(now := now)
  }

  /** At the time of the last advance a touch changes nothing but the account's existence. */
  lemma PayTouch(s: State, r: Asset, u: Address, p: Position, c: Account)
    requires s.now == 0 && s.assets == map[DEBT := r] && r.rewards == Some(PAYING)
    requires AccountOf(s, u, DEBT) == c && c.rew == UserRewards(0, 0, 0, 0)
    ensures Touch(s, u, DEBT, p) == s.(accounts := s.accounts[(u, DEBT) := c])
  {
    assert AccrueFromIndexes(c.rew, PAYING, p.deposited, p.borrowed) == c.rew;
    assert AdvanceRewards(r, 0) == r;
    assert s.assets[DEBT := r] == s.assets;
  }

  lemma PostedWithPay(p: Position, e: Entry)
    requires p.deposited + e.deposited != 0 || p.borrowed + e.borrowed != 0
    ensures Stored(p.(deposited := p.deposited + e.deposited, borrowed := p.borrowed + e.borrowed))
              == p.(deposited := p.deposited + e.deposited, borrowed := p.borrowed + e.borrowed)
  {
  }

  lemma PayPost(s: State, r: Asset, u: Address, p: Position, e: Entry, c: Account)
    requires s.assets == map[DEBT := r] && AccountOf(s, u, DEBT) == c
    requires p.deposited + e.deposited != 0 || p.borrowed + e.borrowed != 0
    ensures var q := p.(deposited := p.deposited + e.deposited, borrowed := p.borrowed + e.borrowed);
      Post(s, u, DEBT, p, e) == s.(assets := map[DEBT := PostAsset(r, e)], accounts := s.accounts[(u, DEBT) := c.(pos := q)])
  {
    hide Stored;
    PostedWithPay(p, e);
    assert s.assets[DEBT := PostAsset(r, e)] == map[DEBT := PostAsset(r, e)];
  }

  lemma PayRealised(s: State, r: Asset, u: Address)
    requires s.now == 0 && s.assets == map[DEBT := r] && r.interest == Some(START)
    requires AccountOf(s, u, DEBT).pos.supplySnapshot == RATE_SCALE && AccountOf(s, u, DEBT).pos.borrowSnapshot == RATE_SCALE
    ensures Realised(s, u, DEBT) == AccountOf(s, u, DEBT).pos && Accrue(s, DEBT) == s
  {
    AtOpeningIndexes(s, u, DEBT);
    AccrueFresh(s, DEBT);
  }

  lemma SpeedsStep()
    ensures SetRewardSpeeds(Priced(), DEBT, 0, 10) == Ok(PayBefore())
  {
    var r := AssetOf(Priced(), DEBT);
    assert AdvanceRewards(r, 0) == r.(rewards := Some(IDLE));
    assert Priced().assets[DEBT := PayAsset(0, 0, 0)] == PayBefore().assets;
  }

  lemma PayPosted(deposited: int, borrowed: int, balance: int, e: Entry)
    requires e.dust == 0 && e.writtenOff == 0
    ensures PostAsset(PayAsset(deposited, borrowed, balance), e)
              == PayAsset(deposited + e.deposited, borrowed + e.borrowed, balance + e.balance)
  {
    var r := PayAsset(deposited, borrowed, balance);
    assert r.book.(repayDust := r.book.repayDust + 0, writtenOff := r.book.writtenOff + 0) == r.book;
  }

  lemma PayDepositStep()
    ensures Deposit(PayBefore(), USER, DEBT, 150) == Ok(PayDeposited())
  {
    hide Realised, Accrue, Touch, Post, PostAsset;
    var s := PayBefore();
    PayRealised(s, PayAsset(0, 0, 0), USER);
    PayTouch(s, PayAsset(0, 0, 0), USER, NO_POSITION, Mine(0, 0));
    PayPost(s.(accounts := map[(USER, DEBT) := Mine(0, 0)]), PayAsset(0, 0, 0), USER, NO_POSITION, DepositEntry(150), Mine(0, 0));
    PayPosted(0, 0, 0, DepositEntry(150));
    assert s.accounts[(USER, DEBT) := Mine(0, 0)] == map[(USER, DEBT) := Mine(0, 0)];
    assert map[(USER, DEBT) := Mine(0, 0)][(USER, DEBT) := Mine(150, 0)] == PayDeposited().accounts;
  }

  lemma PayBorrowBody()
    ensures Body(Borrowing, Accrue(PayDeposited(), DEBT), USER, DEBT, 100) == Ok(PayBorrowed(15_000))
  {
    hide Realised, Accrue, Touch, Post, PostAsset;
    var s := PayDeposited();
    var p := Mine(150, 0).pos;
    PayRealised(s, PayAsset(150, 0, 150), USER);
    PayTouch(s, PayAsset(150, 0, 150), USER, p, Mine(150, 0));
    assert s.accounts[(USER, DEBT) := Mine(150, 0)] == s.accounts;
    PayPost(s, PayAsset(150, 0, 150), USER, p, BorrowEntry(100), Mine(150, 0));
    PayPosted(150, 0, 150, BorrowEntry(100));
    assert s.accounts[(USER, DEBT) := Mine(150, 100)] == PayBorrowed(15_000).accounts;
  }

  /** One asset, so the weighted sum is one term. */
  lemma PayWeighted(s: State, deposited: int, factor: nat, w: Weight)
    requires s.listed == [DEBT] && Realised(s, USER, DEBT).deposited == deposited > 0
    requires PriceOf(s, DEBT) == Ok(1) && AssetOf(s, DEBT).risk.None? && RatioToFactor(s.minRatioBps) == factor
    ensures WeightedValue(s, USER, s.listed, w, NoCut) == Ok(deposited * factor)
  {
    hide Realised, PriceOf, RatioToFactor;
    assert s.listed[..0] == [];
    assert WeightedValue(s, USER, [], w, NoCut) == Ok(0);
    assert deposited * 1 * factor == deposited * factor;
  }

  lemma PayHealthy()
    ensures CheckHealth(PayBorrowed(15_000), USER, DEBT, 0, NoCut).Pass?
  {
    hide Realised, PriceOf, WeightedValue;
    var s := PayBorrowed(15_000);
    PayRealised(s, PayAsset(150, 100, 50), USER);
    PayPrice(s, PayAsset(150, 100, 50));
    assert RatioToFactor(15_000) == 6_667;
    PayWeighted(s, 150, 6_667, CollateralFactor);
  }

  lemma PayPrice(s: State, r: Asset)
    requires s.now == 0 && s.assets == map[DEBT := r] && r.oracle == PayAsset(0, 0, 0).oracle
    ensures PriceOf(s, DEBT) == Ok(1)
  {
  }

  lemma PayAssetSound(deposited: int, borrowed: int)
    ensures AssetSound(PayAsset(deposited, borrowed, deposited - borrowed), 0)
  {
  }

  lemma PayDepositedSound()
    ensures Sound(PayDeposited()) && CheckCaps(Borrowing, AssetOf(Accrue(PayDeposited(), DEBT), DEBT), 100).Pass?
    ensures Switches(Borrowing, PayDeposited(), DEBT) && AssetOf(PayDeposited(), DEBT).supported
  {
    hide AssetSound;
    PayAssetSound(150, 0);
    AccrueFresh(PayDeposited(), DEBT);
  }

  lemma PayBorrowStep()
    ensures Borrow(PayDeposited(), USER, DEBT, DEBT, 100) == Ok(PayBorrowed(15_000))
  {
    hide Accrue, Body, CheckHealth, Borrow, Sound, PayDeposited, PayBorrowed, CheckCaps, Switches, AssetOf;
    PayDepositedSound();
    PayBorrowBody();
    PayHealthy();
    SingleOkIff(Borrowing, PayDeposited(), USER, DEBT, DEBT, 100);
    SingleForm(Borrowing, PayDeposited(), USER, DEBT, DEBT, 100);
  }

  lemma PayPrepared()
    ensures PrepareLiquidation(PayBorrowed(20_000), LENDER, USER, DEBT, DEBT) == PayTouched()
  {
    hide Realised, Accrue, Touch;
    var s := PayBorrowed(20_000);
    var r, p := PayAsset(150, 100, 50), Mine(150, 100).pos;
    PayRealised(s, r, USER);
    PayTouch(s, r, USER, p, Mine(150, 100));
    assert s.accounts[(USER, DEBT) := Mine(150, 100)] == s.accounts;
    PayRealised(s, r, LENDER);
    PayTouch(s, r, LENDER, Mine(0, 0).pos, Mine(0, 0));
    assert s.accounts[(LENDER, DEBT) := Mine(0, 0)] == PayTouched().accounts;
  }

  lemma PayQuote()
    ensures QuoteLiquidation(PayTouched(), USER, DEBT, DEBT, 50) == Ok((50, 52))
  {
    hide Realised, PriceOf, WeightedValue;
    var s := PayTouched();
    PayRealised(s, PayAsset(150, 100, 50), USER);
    PayPrice(s, PayAsset(150, 100, 50));
    assert RatioToFactor(20_000) == 5_000;
    PayWeighted(s, 150, 5_000, LiquidationThreshold);
    assert SeizeAmount(50, 500, 1, 150) == 52;
  }

  lemma PayPut(s: State, u: Address, q: Position, c: Account)
    requires AccountOf(s, u, DEBT) == c && (q.deposited != 0 || q.borrowed != 0)
    ensures PutPosition(s, u, DEBT, q) == s.(accounts := s.accounts[(u, DEBT) := c.(pos := q)])
  {
  }

  lemma PaySettled()
    ensures SettleLiquidation(PayTouched(), LENDER, USER, DEBT, DEBT, 50, 52) == PayLiquidated(0)
  {
    hide Realised, Post, PutPosition, PostAsset;
    var s := PayTouched();
    var r, p := PayAsset(150, 100, 50), Mine(150, 100).pos;
    var e := Entry(0, -50, 50, 0, 0);
    PayRealised(s, r, USER);
    PayPost(s, r, USER, p, e, Mine(150, 100));
    PayPosted(150, 100, 50, e);
    var s1 := Post(s, USER, DEBT, p, e);
    PayPut(s1, USER, Mine(98, 100).pos, Mine(150, 50));
    var s2 := PutPosition(s1, USER, DEBT, Mine(98, 100).pos);
    PayRealised(s2, PayAsset(150, 50, 100), LENDER);
    PayPut(s2, LENDER, Mine(52, 0).pos, Mine(0, 0));
    assert PutPosition(s2, LENDER, DEBT, Mine(52, 0).pos).accounts == PayLiquidated(0).accounts;
  }

  lemma PayLiquidateStep()
    ensures Liquidate(PayBorrowed(20_000), LENDER, USER, DEBT, DEBT, 50) == Ok(PayLiquidated(0))
  {
    hide PrepareLiquidation, QuoteLiquidation, SettleLiquidation;
    PayPrepared();
    PayQuote();
    PaySettled();
  }

  /** Ten seconds later: a hundred units emitted, at two index units for each unit of the halved total. */
  function PayAdvanced(): Asset {
    var r := PayAsset(150, 50, 100).(interest := Some(InterestState(RATE_SCALE, RATE_SCALE, 10)));
    r.(rewards := Some(AssetRewards(0, 2 * RATE_SCALE, 0, 10, 10)), book := r.book.(emittedBorrow := 100))
  }

  lemma PayAccrued()
    ensures AccrueAsset(PayAsset(150, 50, 100), 10)
              == PayAsset(150, 50, 100).(interest := Some(InterestState(RATE_SCALE, RATE_SCALE, 10)))
  {
    hide ComputeAccrual;
    var r := PayAsset(150, 50, 100);
    Solvency.FlatAccrue(r, 10);
    IdleInterest(150, 50, 10);
    PayInterest(r);
  }

  lemma PayInterest(r: Asset)
    requires r == PayAsset(150, 50, 100)
    ensures AccrueAsset(r, 10).interest == Some(ComputeAccrual(START, DEFAULT_PARAMS, 150, 50, 10).state)
  {
    hide ComputeAccrual;
  }

  lemma IdleInterest(s: int, b: int, now: nat)
    requires now > 0
    ensures ComputeAccrual(START, DEFAULT_PARAMS, s, b, now) == AccrualResult(InterestState(RATE_SCALE, RATE_SCALE, now), 0, 0)
  {
    var util := UtilizationRatio(s, b);
    assert BorrowRate(DEFAULT_PARAMS, util) == 0;
    assert SupplyRate(DEFAULT_PARAMS, util, 0) == 0;
    assert Growth(0, now) == 0;
  }

  lemma PayIndexes()
    ensures ComputeIndexAdvance(PAYING, 150, 50, 10) == AssetRewards(0, 2 * RATE_SCALE, 0, 10, 10)
  {
    assert IndexDelta(10, 10, 50) == 2 * RATE_SCALE && IndexDelta(0, 10, 150) == 0;
  }

  lemma PayAdvance(r: Asset)
    requires r == PayAsset(150, 50, 100).(interest := Some(InterestState(RATE_SCALE, RATE_SCALE, 10)))
    ensures AdvanceRewards(r, 10) == PayAdvanced()
  {
    hide ComputeIndexAdvance;
    PayIndexes();
    assert r.rewards == Some(PAYING) && r.book == EMPTY_BOOK && r.totalDeposited == 150 && r.totalBorrowed == 50;
    assert r.book.(emittedSupply := 0 + PAYING.supplySpeed * 10, emittedBorrow := 0 + PAYING.borrowSpeed * 10)
        == r.book.(emittedBorrow := 100);
  }

  /** The debtor, still holding the whole debt, earns for all of it. */
  lemma PayFolded()
    ensures AccrueFromIndexes(UserRewards(0, 0, 0, 0), PayAdvanced().rewards.value, 98, 100)
              == UserRewards(0, 2 * RATE_SCALE, 0, 200)
  {
  }

  /** The claim's touch, on the records. */
  lemma PayClaimTouch()
    ensures var s := PayLiquidated(10);
      var t := Accrue(s, DEBT);
      var touched := Touch(t, USER, DEBT, Realised(t, USER, DEBT));
      && AssetOf(touched, DEBT) == PayAdvanced() && touched.assets.Keys == {DEBT} && touched.grantedTotal == 0
      && AccountOf(touched, USER, DEBT).rew == UserRewards(0, 2 * RATE_SCALE, 0, 200)
  {
    hide AccrueAsset, AdvanceRewards, AccrueFromIndexes, PayAdvanced, Realised, PayAsset;
    var s, r := PayLiquidated(10), PayAsset(150, 50, 100);
    PayAccrued();
    PayAdvance(r.(interest := Some(InterestState(RATE_SCALE, RATE_SCALE, 10))));
    PayFolded();
    PayFlat();
    Solvency.FlatRealised(s, USER, DEBT);
    AccrueUnseen(s, DEBT);
    PayBook();
    assert AccountOf(s, USER, DEBT) == Mine(98, 100);
  }

  lemma PayFlat()
    ensures Solvency.Flat(PayLiquidated(10))
  {
  }

  lemma PayBook()
    ensures PayAdvanced().book == EMPTY_BOOK.(emittedBorrow := 100) && PayAdvanced().rewards.Some?
  {
  }

  lemma PayClaim()
    ensures var (t, amount) := RealizeUnclaimed(PayLiquidated(10), USER, DEBT);
      && amount == 200 && t.assets.Keys == {DEBT} && t.grantedTotal == 0
      && AssetOf(t, DEBT).book.grantedBorrow == 200 && AssetOf(t, DEBT).book.grantedSupply == 0
      && AssetOf(t, DEBT).book.emittedBorrow == 100 && AssetOf(t, DEBT).book.emittedSupply == 0
  {
    hide Accrue, Touch, Realised, PayAdvanced, PayLiquidated;
    PayClaimTouch();
    PayBook();
  }

  function InPlaceCalls(): seq<Call> {
    LendingCalls()
    + [DoAction(SetMinCollateralRatio(20_000), Host(None, 0))] + [DoLiquidate(LENDER, USER, DEBT, DEBT, 50)]
    + [Wait(10)] + [DoClaimAsset(USER, DEBT)]
  }

  lemma RatioStep()
    ensures ApplyAction(PayBorrowed(15_000), SetMinCollateralRatio(20_000), Host(None, 0)) == Ok(PayBorrowed(20_000))
  {
  }

  function LendingCalls(): seq<Call> {
    [DoAction(ConfigureAsset(DEBT, true), Host(None, 0))] + [DoSetOraclePrice(DEBT, 1)] + [DoSetRewardSpeeds(DEBT, 0, 10)]
    + [DoDeposit(USER, DEBT, 150)] + [DoBorrow(USER, DEBT, DEBT, 100)]
  }

  lemma PayBorrowedReached()
    ensures Run(Initial(15_000, 0), LendingCalls()) == PayBorrowed(15_000)
  {
    hide Run, Initial, Deposit, Borrow, SetOraclePrice, SetRewardSpeeds, ApplyAction;
    hide Configured, Priced, PayBefore, PayDeposited, PayBorrowed;
    var s0 := Initial(15_000, 0);
    var c1 := [DoAction(ConfigureAsset(DEBT, true), Host(None, 0))];
    var c2 := c1 + [DoSetOraclePrice(DEBT, 1)];
    var c3 := c2 + [DoSetRewardSpeeds(DEBT, 0, 10)];
    var c4 := c3 + [DoDeposit(USER, DEBT, 150)];
    Governance.RunNothing(s0);
    ConfigureStep();
    Governance.RunAppend(s0, [], c1[0]);
    assert [] + c1 == c1;
    PricedStep();
    Governance.RunAppend(s0, c1, DoSetOraclePrice(DEBT, 1));
    SpeedsStep();
    Governance.RunAppend(s0, c2, DoSetRewardSpeeds(DEBT, 0, 10));
    PayDepositStep();
    Governance.RunAppend(s0, c3, DoDeposit(USER, DEBT, 150));
    PayBorrowStep();
    Governance.RunAppend(s0, c4, DoBorrow(USER, DEBT, DEBT, 100));
  }

  lemma LiquidatedReached()
    ensures Run(Initial(15_000, 0), InPlaceCalls()[..8]) == PayLiquidated(10)
  {
    hide Run, Initial, Liquidate, ApplyAction, PayBorrowed, LendingCalls;
    var s0 := Initial(15_000, 0);
    var c5 := LendingCalls();
    var c6 := c5 + [DoAction(SetMinCollateralRatio(20_000), Host(None, 0))];
    var c7 := c6 + [DoLiquidate(LENDER, USER, DEBT, DEBT, 50)];
    PayBorrowedReached();
    RatioStep();
    Governance.RunAppend(s0, c5, DoAction(SetMinCollateralRatio(20_000), Host(None, 0)));
    PayLiquidateStep();
    Governance.RunAppend(s0, c6, DoLiquidate(LENDER, USER, DEBT, DEBT, 50));
    Governance.RunAppend(s0, c7, Wait(10));
    EightCalls();
  }

  lemma EightCalls()
    ensures InPlaceCalls()[..8]
      == LendingCalls() + [DoAction(SetMinCollateralRatio(20_000), Host(None, 0))]
         + [DoLiquidate(LENDER, USER, DEBT, DEBT, 50)] + [Wait(10)]
  {
  }

  /**
   * Why reward solvency excludes such liquidations: at zero interest, after one of them, a borrower claims
   * twice what the speeds have emitted, for the debt that the total no longer counts.
   */
  lemma InPlaceLiquidationOverpays()
    ensures var s := Run(Initial(15_000, 0), InPlaceCalls());
      && s.grantedTotal == 200 && s.assets.Keys == {DEBT}
      && AssetOf(s, DEBT).book.grantedBorrow == 200
      && AssetOf(s, DEBT).book.emittedBorrow == 100 && AssetOf(s, DEBT).book.emittedSupply == 0
  {
    hide Run, Initial, RealizeUnclaimed, PayLiquidated;
    LiquidatedReached();
    PayClaim();
    Governance.RunAppend(Initial(15_000, 0), InPlaceCalls()[..8], DoClaimAsset(USER, DEBT));
    assert InPlaceCalls() == InPlaceCalls()[..8] + [DoClaimAsset(USER, DEBT)];
  }
}
