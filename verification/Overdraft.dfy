/** One run worked out to the numbers: accruals that round to nothing and a repayment leave a total below zero. */
module Overdraft {
  import opened Prelude
  import opened Arith
  import opened Interest
  import opened Rewards
  import Oracle
  import opened Ledger
  import opened Invariants
  import opened Batches
  import opened Scenario
  import Governance

  /** 500% a year up to the kink, 1000% at full utilisation. */
  const STEEP: InterestParams := InterestParams(50_000, 8_000, 0, 50_000, 1_000)
  /** 12% of a year, in seconds. */
  const SPELL: nat := 3_784_320

  /** One asset, lent to and borrowed by the same user. */
  function Solo(now: nat, r: Asset, accounts: map<(Address, Address), Account>): State {
    Initial(15_000, 0).(now := now, listed := [DEBT], assets := map[DEBT := r], accounts := accounts)
  }

  function SoloAsset(interest: InterestState, deposited: int, borrowed: int, balance: int, rewards: Option<AssetRewards>): Asset {
    NO_ASSET.(supported := true, interest := Some(interest), params := Some(STEEP),
              totalDeposited := deposited, totalBorrowed := borrowed, balance := balance, rewards := rewards,
              oracle := Oracle.NO_ORACLE.(price := Some(1), lastUpdated := Some(0)))
  }

  function SoloAccount(p: Position): Account {
    Account(p, UserRewards(0, 0, 0, 0))
  }

  const START: InterestState := InterestState(RATE_SCALE, RATE_SCALE, 0)
  const MIDWAY: InterestState := InterestState(1_270_000_000, 1_600_000_000, SPELL)
  const LATE: InterestState := InterestState(1_612_900_000, 2_560_000_000, 2 * SPELL)

  function Prepared(): State {
    Solo(0, SoloAsset(START, 0, 0, 0, None), map[])
  }

  function Deposited(): State {
    Solo(0, SoloAsset(START, 2, 0, 2, Some(IDLE)), map[(USER, DEBT) := SoloAccount(Position(2, 0, RATE_SCALE, RATE_SCALE))])
  }

  function Indebted(now: nat, interest: InterestState): State {
    Solo(now, SoloAsset(interest, 2, 1, 1, Some(IDLE)),
         map[(USER, DEBT) := SoloAccount(Position(2, 1, RATE_SCALE, RATE_SCALE))])
  }

  /** The user has repaid the two units that one unit of debt has become; the aggregate had one. */
  function Overdrawn(): State {
    Solo(2 * SPELL, SoloAsset(LATE, 2, -1, 3, Some(IDLE.(lastTs := 2 * SPELL))),
         map[(USER, DEBT) := SoloAccount(Position(3, 0, 1_612_900_000, 2_560_000_000))])
  }

  function SetupCalls(): seq<Call> {
    [DoAction(ConfigureAsset(DEBT, true), Host(None, 0)), DoSetOraclePrice(DEBT, 1), DoSetInterestParams(DEBT, STEEP)]
  }

  /** The whole run, from the constructor. */
  function OverdrawingCalls(): seq<Call> {
    SetupCalls() + [DoDeposit(USER, DEBT, 2)] + [DoBorrow(USER, DEBT, DEBT, 1)] + [Wait(SPELL)] + [DoAccrueInterest(DEBT)]
    + [Wait(SPELL)] + [DoRepay(USER, DEBT, 2)]
  }

  function Configured(): State {
    Solo(0, NO_ASSET.(supported := true, interest := Some(START)), map[])
  }

  function Priced(): State {
    Solo(0, NO_ASSET.(supported := true, interest := Some(START),
                      oracle := Oracle.NO_ORACLE.(price := Some(1), lastUpdated := Some(0))), map[])
  }

  lemma ConfigureStep()
    ensures Invoke(Initial(15_000, 0), DoAction(ConfigureAsset(DEBT, true), Host(None, 0))) == Ok(Configured())
  {
    var s := Initial(15_000, 0);
    assert [] + [DEBT] == [DEBT];
    assert ApplyConfigureAsset(s, DEBT, true).value.assets == Configured().assets;
  }

  lemma PricedStep()
    ensures SetOraclePrice(Configured(), DEBT, 1) == Ok(Priced())
  {
    assert Configured().assets[DEBT := Priced().assets[DEBT]] == Priced().assets;
  }

  lemma ParamsStep()
    ensures SetInterestParams(Priced(), DEBT, STEEP) == Ok(Prepared())
  {
    AccrueFresh(Priced(), DEBT);
    assert Priced().assets[DEBT := Prepared().assets[DEBT]] == Prepared().assets;
  }

  lemma SetupSteps()
    ensures var s1 := After(Initial(15_000, 0), DoAction(ConfigureAsset(DEBT, true), Host(None, 0)));
      var s2 := After(s1, DoSetOraclePrice(DEBT, 1));
      After(s2, DoSetInterestParams(DEBT, STEEP)) == Prepared()
  {
    hide ApplyAction, SetOraclePrice, SetInterestParams, Configured, Priced, Prepared, Initial;
    ConfigureStep();
    PricedStep();
    ParamsStep();
  }

  lemma SetupReached()
    ensures Run(Initial(15_000, 0), SetupCalls()) == Prepared()
  {
    hide After, Run, Initial, Prepared;
    var s0 := Initial(15_000, 0);
    var a, b, c := SetupCalls()[0], SetupCalls()[1], SetupCalls()[2];
    Governance.RunNothing(s0);
    Governance.RunAppend(s0, [], a);
    Governance.RunAppend(s0, [] + [a], b);
    Governance.RunAppend(s0, [] + [a] + [b], c);
    assert SetupCalls() == [] + [a] + [b] + [c];
    SetupSteps();
  }

  /** The records that an operation on the one asset writes. */
  lemma SoloPost(s: State, e: Entry, r: Asset, c: Account)
    requires s.assets.Keys == {DEBT} && s.accounts.Keys <= {(USER, DEBT)}
    requires AdvanceRewards(AssetOf(s, DEBT), s.now).rewards.Some?
    requires PostedAsset(AssetOf(s, DEBT), s.now, e) == r
    requires PostedAccount(AccountOf(s, USER, DEBT), AdvanceRewards(AssetOf(s, DEBT), s.now).rewards.value,
                           Realised(s, USER, DEBT), e) == c
    ensures TouchAndPost(s, USER, DEBT, e) == s.(assets := map[DEBT := r], accounts := map[(USER, DEBT) := c])
  {
    hide TouchAndPost, PostedAsset, PostedAccount, AdvanceRewards, Realised;
    TouchAndPostForm(s, USER, DEBT, e);
    assert s.assets[DEBT := r] == map[DEBT := r];
    assert s.accounts[(USER, DEBT) := c] == map[(USER, DEBT) := c];
  }

  predicate IdleSince(r: Asset, now: nat) {
    r.rewards.None? || (r.rewards.value.lastTs <= now && r.rewards.value == IDLE.(lastTs := r.rewards.value.lastTs))
  }

  /** A reward program without speeds only notes the time. */
  lemma IdleAdvance(r: Asset, now: nat)
    requires IdleSince(r, now)
    ensures AdvanceRewards(r, now) == r.(rewards := Some(IDLE.(lastTs := now)))
  {
  }

  lemma SoloAccountAfter(q: Position, now: nat, p: Position, e: Entry)
    requires p.deposited + e.deposited != 0 || p.borrowed + e.borrowed != 0
    ensures PostedAccount(SoloAccount(q), IDLE.(lastTs := now), p, e)
              == SoloAccount(p.(deposited := p.deposited + e.deposited, borrowed := p.borrowed + e.borrowed))
  {
  }

  /** One operation on the one asset, written out. */
  lemma SoloStep(s: State, r: Asset, q: Position, p: Position, e: Entry)
    requires s.assets == map[DEBT := r] && IdleSince(r, s.now)
    requires s.accounts == map[(USER, DEBT) := SoloAccount(q)] || (s.accounts == map[] && q == NO_POSITION)
    requires Realised(s, USER, DEBT) == p
    requires p.deposited + e.deposited != 0 || p.borrowed + e.borrowed != 0
    ensures TouchAndPost(s, USER, DEBT, e) == s.(
      assets := map[DEBT := PostAsset(r.(rewards := Some(IDLE.(lastTs := s.now))), e)],
      accounts := map[(USER, DEBT) :=
        SoloAccount(p.(deposited := p.deposited + e.deposited, borrowed := p.borrowed + e.borrowed))])
  {
    hide TouchAndPost, PostAsset, PostedAccount, AdvanceRewards, Realised, IdleSince;
    IdleAdvance(r, s.now);
    SoloAccountAfter(q, s.now, p, e);
    SoloPost(s, e, PostAsset(r.(rewards := Some(IDLE.(lastTs := s.now))), e),
      SoloAccount(p.(deposited := p.deposited + e.deposited, borrowed := p.borrowed + e.borrowed)));
  }

  lemma PreparedReads()
    ensures Accrue(Prepared(), DEBT) == Prepared() && Realised(Prepared(), USER, DEBT) == NO_POSITION
    ensures CheckSupplyCaps(AssetOf(Prepared(), DEBT), 2).Pass? && RequireSupported(Prepared(), DEBT).Pass?
  {
    AccrueFresh(Prepared(), DEBT);
    AtOpeningIndexes(Prepared(), USER, DEBT);
  }

  lemma DepositStep()
    ensures Deposit(Prepared(), USER, DEBT, 2) == Ok(Deposited())
  {
    hide Realised, TouchAndPost, Accrue, PostAsset, CheckSupplyCaps, AssetOf, RequireSupported, SoloAsset, SoloAccount, IdleSince;
    PreparedReads();
    DepositRecord();
    assert IdleSince(SoloAsset(START, 0, 0, 0, None), 0) by { SoloIdle(0, 0, 0, None); }
    SoloStep(Prepared(), SoloAsset(START, 0, 0, 0, None), NO_POSITION, NO_POSITION, DepositEntry(2));
  }

  lemma SoloIdle(deposited: int, borrowed: int, balance: int, rewards: Option<AssetRewards>)
    requires rewards == None || rewards == Some(IDLE)
    ensures IdleSince(SoloAsset(START, deposited, borrowed, balance, rewards), 0)
  {
  }

  lemma DepositRecord()
    ensures PostAsset(SoloAsset(START, 0, 0, 0, None).(rewards := Some(IDLE.(lastTs := 0))), DepositEntry(2))
              == SoloAsset(START, 2, 0, 2, Some(IDLE))
  {
  }

  lemma DepositedReads()
    ensures Accrue(Deposited(), DEBT) == Deposited() && AssetOf(Deposited(), DEBT).balance == 2
    ensures Realised(Deposited(), USER, DEBT) == Position(2, 0, RATE_SCALE, RATE_SCALE)
  {
    AccrueFresh(Deposited(), DEBT);
    AtOpeningIndexes(Deposited(), USER, DEBT);
  }

  lemma SoloBorrowBody()
    ensures Body(Borrowing, Accrue(Deposited(), DEBT), USER, DEBT, 1) == Ok(Indebted(0, START))
  {
    hide Realised, TouchAndPost, Accrue, PostAsset, AssetOf, SoloAsset, SoloAccount, IdleSince;
    var p := Position(2, 0, RATE_SCALE, RATE_SCALE);
    DepositedReads();
    BorrowRecord();
    SoloIdle(2, 0, 2, Some(IDLE));
    SoloStep(Deposited(), SoloAsset(START, 2, 0, 2, Some(IDLE)), p, p, BorrowEntry(1));
  }

  lemma BorrowRecord()
    ensures PostAsset(SoloAsset(START, 2, 0, 2, Some(IDLE)).(rewards := Some(IDLE.(lastTs := 0))), BorrowEntry(1))
              == SoloAsset(START, 2, 1, 1, Some(IDLE))
  {
  }

  lemma SoloHealthy()
    ensures CheckHealth(Indebted(0, START), USER, DEBT, 0, NoCut).Pass?
  {
    hide Realised, PriceOf;
    var s := Indebted(0, START);
    AtOpeningIndexes(s, USER, DEBT);
    assert PriceOf(s, DEBT) == Ok(1) by { SoloPrice(); }
    assert RatioToFactor(15_000) == 6_667;
    assert s.listed[..0] == [];
    assert WeightedValue(s, USER, [], CollateralFactor, NoCut) == Ok(0);
    assert WeightedValue(s, USER, s.listed, CollateralFactor, NoCut) == Ok(2 * 6_667);
  }

  lemma SoloPrice()
    ensures PriceOf(Indebted(0, START), DEBT) == Ok(1)
  {
  }

  lemma SoloAssetSound(r: Asset)
    requires r == SoloAsset(START, 2, 0, 2, Some(IDLE))
    ensures AssetSound(r, 0)
  {
  }

  lemma DepositedSound()
    ensures Sound(Deposited())
  {
    hide AssetSound;
    SoloAssetSound(SoloAsset(START, 2, 0, 2, Some(IDLE)));
  }

  lemma SoloCaps()
    ensures CheckCaps(Borrowing, AssetOf(Accrue(Deposited(), DEBT), DEBT), 1).Pass?
    ensures Switches(Borrowing, Deposited(), DEBT) && AssetOf(Deposited(), DEBT).supported
  {
    AccrueFresh(Deposited(), DEBT);
  }

  lemma SoloBorrowStep()
    ensures Borrow(Deposited(), USER, DEBT, DEBT, 1) == Ok(Indebted(0, START))
  {
    hide Accrue, Body, CheckHealth, Borrow, Sound, Deposited, Indebted, CheckCaps, Switches, AssetOf;
    DepositedSound();
    SoloBorrowBody();
    SoloHealthy();
    SoloCaps();
    SingleOkIff(Borrowing, Deposited(), USER, DEBT, DEBT, 1);
    SingleForm(Borrowing, Deposited(), USER, DEBT, DEBT, 1);
  }

  /** Growth factors of 60% for the debt and 27% for the deposit. */
  lemma SpellGrowth()
    ensures UtilizationRatio(2, 1) == 5_000
    ensures BorrowGrowth(STEEP, 5_000, SPELL) == 600_000_000 && SupplyGrowth(STEEP, 5_000, SPELL) == 270_000_000
  {
    assert BorrowRate(STEEP, 5_000) == 50_000;
    assert SupplyRate(STEEP, 5_000, 50_000) == 22_500;
  }

  /** Too small for the totals to feel it, not for the indexes. */
  lemma SpellAccruals()
    ensures ComputeAccrual(START, STEEP, 2, 1, SPELL) == AccrualResult(MIDWAY, 0, 0)
    ensures ComputeAccrual(MIDWAY, STEEP, 2, 1, 2 * SPELL) == AccrualResult(LATE, 0, 0)
  {
    hide UtilizationRatio, BorrowGrowth, SupplyGrowth;
    SpellGrowth();
  }

  lemma IndebtedAccrues(now: nat, before: InterestState, after: InterestState)
    requires before.lastAccrual < now && ComputeAccrual(before, STEEP, 2, 1, now) == AccrualResult(after, 0, 0)
    ensures Accrue(Indebted(now, before), DEBT) == Indebted(now, after)
    ensures AssetOf(Indebted(now, before), DEBT).supported
  {
    hide ComputeAccrual;
    var r := SoloAsset(before, 2, 1, 1, Some(IDLE));
    assert AccrueAsset(r, now) == SoloAsset(after, 2, 1, 1, Some(IDLE));
    assert Indebted(now, before).assets[DEBT := AccrueAsset(r, now)] == Indebted(now, after).assets;
  }

  lemma AccrueStep()
    ensures AccrueInterest(Indebted(SPELL, START), DEBT) == Ok(Indebted(SPELL, MIDWAY))
  {
    hide Accrue;
    SpellAccruals();
    IndebtedAccrues(SPELL, START, MIDWAY);
  }

  /** The position catches up with the indexes: three units deposited, two owed. */
  lemma LateRealised()
    ensures Realised(Indebted(2 * SPELL, LATE), USER, DEBT) == Position(3, 2, 1_612_900_000, 2_560_000_000)
  {
    assert Simulate(AssetOf(Indebted(2 * SPELL, LATE), DEBT), 2 * SPELL) == LATE by {
      hide ComputeAccruedPosition;
    }
    assert 2 * (1_612_900_000 - RATE_SCALE) / RATE_SCALE == 1;
    assert 1 * (2_560_000_000 - RATE_SCALE) / RATE_SCALE == 1;
  }

  lemma RepayRecord()
    ensures PostAsset(SoloAsset(LATE, 2, 1, 1, Some(IDLE)).(rewards := Some(IDLE.(lastTs := 2 * SPELL))), RepayEntry(2, 2))
              == SoloAsset(LATE, 2, -1, 3, Some(IDLE.(lastTs := 2 * SPELL)))
  {
  }

  lemma RepayStep()
    ensures Repay(Indebted(2 * SPELL, MIDWAY), USER, DEBT, 2) == Ok(Overdrawn())
  {
    hide Accrue, Realised, TouchAndPost, PostAsset;
    SpellAccruals();
    IndebtedAccrues(2 * SPELL, MIDWAY, LATE);
    LateRealised();
    RepayRecord();
    SoloStep(Indebted(2 * SPELL, LATE), SoloAsset(LATE, 2, 1, 1, Some(IDLE)), Position(2, 1, RATE_SCALE, RATE_SCALE),
      Position(3, 2, 1_612_900_000, 2_560_000_000), RepayEntry(2, 2));
  }

  lemma OverdrawnReached()
    ensures Run(Initial(15_000, 0), OverdrawingCalls()) == Overdrawn()
  {
    hide Run, Initial, Prepared, SetupCalls, Deposit, Borrow, Repay, AccrueInterest;
    var s0 := Initial(15_000, 0);
    var c1 := SetupCalls() + [DoDeposit(USER, DEBT, 2)];
    var c2 := c1 + [DoBorrow(USER, DEBT, DEBT, 1)];
    var c3 := c2 + [Wait(SPELL)];
    var c4 := c3 + [DoAccrueInterest(DEBT)];
    var c5 := c4 + [Wait(SPELL)];
    SetupReached();
    DepositStep();
    Governance.RunAppend(s0, SetupCalls(), DoDeposit(USER, DEBT, 2));
    SoloBorrowStep();
    Governance.RunAppend(s0, c1, DoBorrow(USER, DEBT, DEBT, 1));
    Governance.RunAppend(s0, c2, Wait(SPELL));
    AccrueStep();
    Governance.RunAppend(s0, c3, DoAccrueInterest(DEBT));
    Governance.RunAppend(s0, c4, Wait(SPELL));
    RepayStep();
    Governance.RunAppend(s0, c5, DoRepay(USER, DEBT, 2));
  }

  /**
   * From the constructor, with accepted parameters: two accruals too small for the total but not for the
   * index, and a repayment of what the user owes, leave total borrowed at -1. The 32-bit cast then shows a
   * utilisation of more than four billion; the borrow rate passes 214 million percent, leaves i128 within a
   * 64-bit time span, and one more second credits suppliers far more than borrowers pay.
   */
  lemma TotalBelowZero()
    ensures STEEP.Valid()
    ensures var r := AssetOf(Run(Initial(15_000, 0), OverdrawingCalls()), DEBT);
      && r.Params() == STEEP && r.interest == Some(LATE) && r.totalDeposited == 2 && r.totalBorrowed == -1
      && var util := UtilizationRatio(r.totalDeposited, r.totalBorrowed);
         && util == 4_294_962_296 && BorrowRate(STEEP, util) == 21_474_821_480
         && BorrowRate(STEEP, util) * U64_MAX * RATE_SCALE > I128_MAX
         && var next := ComputeAccrual(LATE, STEEP, 2, -1, 2 * SPELL + 1);
            next.toSuppliers > 50_000 && next.toBorrowers == 0
  {
    hide Run, OverdrawingCalls;
    OverdrawnReached();
    WrappedRates();
  }

  lemma WrappedRates()
    ensures UtilizationRatio(2, -1) == 4_294_962_296 && BorrowRate(STEEP, 4_294_962_296) == 21_474_821_480
    ensures var next := ComputeAccrual(LATE, STEEP, 2, -1, 2 * SPELL + 1);
      next.toSuppliers > 50_000 && next.toBorrowers == 0
  {
    var util := 4_294_962_296;
    assert UtilizationRatio(2, -1) == util;
    assert BorrowRate(STEEP, util) == 21_474_821_480;
    var bg, sg := BorrowGrowth(STEEP, util, 1), SupplyGrowth(STEEP, util, 1);
    assert 0 <= bg < RATE_SCALE;
    assert sg > 26_000_000_000_000;
  }
}
