/**
 * The lending ledger: what the contract stores, and every entrypoint as a function from the stored state to
 * the next one. `Contract` holds the imperative form and is proved to compute these functions.
 */
module Ledger {
  import opened Prelude
  import opened Arith
  import opened Interest
  import opened Rewards
  import opened Vesting
  import opened Oracle

  /** Debts at or below this after a repayment are rounded away. */
  const DUST_THRESHOLD: int := 100

  datatype RiskParams = RiskParams(collateralFactorBps: nat, liquidationThresholdBps: nat, liquidationBonusBps: nat)

  datatype FlashConfig = FlashConfig(enabled: bool, premiumBps: nat, maxBps: nat)

  /**
   * Running totals per asset, kept only so that the conservation laws can be stated; no entrypoint reads them.
   */
  datatype Book = Book(
    toSuppliers: int, toBorrowers: int, backing: int,
    feesRecorded: int, premiums: int, feesWithdrawn: int, repayDust: int, writtenOff: int,
    emittedSupply: int, emittedBorrow: int, grantedSupply: int, grantedBorrow: int)

  const EMPTY_BOOK: Book := Book(0, 0, 0, 0, 0, 0, 0, 0, 0, 0, 0, 0)

  /** Everything stored under one asset's keys. A cap of -1 (deposit, borrow) or 0 (aggregate) is unlimited. */
  datatype Asset = Asset(
    supported: bool,
    interest: Option<InterestState>, params: Option<InterestParams>,
    totalDeposited: int, totalBorrowed: int,
    balance: int, fees: int, lifetimeFees: int,
    depositCap: int, borrowCap: int, supplyCap: int, aggregateBorrowCap: int,
    oracle: OracleRecord, risk: Option<RiskParams>, flash: Option<FlashConfig>,
    rewards: Option<AssetRewards>,
    book: Book)
  {
    function Params(): InterestParams {
      params.GetOr(DEFAULT_PARAMS)
    }
  }

  const NO_ASSET: Asset :=
    Asset(false, None, None, 0, 0, 0, 0, 0, -1, -1, 0, 0, NO_ORACLE, None, None, None, EMPTY_BOOK)

  /** One user's holding in one asset: the position and the reward counters. */
  datatype Account = Account(pos: Position, rew: UserRewards)

  const NO_POSITION: Position := Position(0, 0, RATE_SCALE, RATE_SCALE)
  const NO_ACCOUNT: Account := Account(NO_POSITION, UserRewards(0, 0, 0, 0))

  datatype State = State(
    now: nat, paused: bool,
    listed: seq<Address>,
    assets: map<Address, Asset>,
    accounts: map<(Address, Address), Account>,
    grants: map<Address, seq<Grant>>, vestCliff: nat, vestDuration: nat,
    grantedTotal: int, paidTotal: int,
    minRatioBps: nat, closeFactorBps: nat, discountBps: nat, maxOracleAge: nat, maxFeeBps: nat)

  /** What the constructor stores. */
  function Initial(minRatioBps: nat, now: nat): State {
    State(now, false, [], map[], map[], map[], 0, 0, 0, 0, minRatioBps, 5_000, 500, DEFAULT_MAX_AGE, 0)
  }

  // ---------------------------------------------------------------- storage reads

  function AssetOf(s: State, a: Address): Asset {
    if a in s.assets then s.assets[a] else NO_ASSET
  }

  function AccountOf(s: State, u: Address, a: Address): Account {
    if (u, a) in s.accounts then s.accounts[(u, a)] else NO_ACCOUNT
  }

  function GrantsOf(s: State, u: Address): seq<Grant> {
    if u in s.grants then s.grants[u] else []
  }

  function PutAsset(s: State, a: Address, r: Asset): State {
    s.(assets := s.assets[a := r])
  }

  function PutAccount(s: State, u: Address, a: Address, c: Account): State {
    s.(accounts := s.accounts[(u, a) := c])
  }

  /** An empty position is removed from storage, so it reads back as a fresh one. */
  function PutPosition(s: State, u: Address, a: Address, p: Position): State {
    PutAccount(s, u, a, AccountOf(s, u, a).(pos := Stored(p)))
  }

  function Stored(p: Position): Position {
    if p.deposited == 0 && p.borrowed == 0 then NO_POSITION else p
  }

  // ---------------------------------------------------------------- accrual

  function InterestOf(r: Asset, now: nat): InterestState {
    r.interest.GetOr(InterestState(RATE_SCALE, RATE_SCALE, now))
  }

  /** Interest simulated up to `now`, without persisting anything. */
  function Simulate(r: Asset, now: nat): InterestState {
    ComputeAccrual(InterestOf(r, now), r.Params(), r.totalDeposited, r.totalBorrowed, now).state
  }

  function AccrueAsset(r: Asset, now: nat): Asset {
    if r.interest.Some? && now <= r.interest.value.lastAccrual then r
    else
      var result := ComputeAccrual(InterestOf(r, now), r.Params(), r.totalDeposited, r.totalBorrowed, now);
      var retained := Max(result.Dust(), 0);
      var skim := if r.Params().reserveFactorBps > 0 then retained else 0;
      r.(interest := Some(result.state),
         totalDeposited := r.totalDeposited + result.toSuppliers,
         totalBorrowed := r.totalBorrowed + result.toBorrowers,
         balance := r.balance + result.toSuppliers + retained,
         fees := r.fees + skim,
         lifetimeFees := r.lifetimeFees + skim,
         book := r.book.(toSuppliers := r.book.toSuppliers + result.toSuppliers,
                         toBorrowers := r.book.toBorrowers + result.toBorrowers,
                         backing := r.book.backing + Max(result.toSuppliers, result.toBorrowers)))
  }

  function Accrue(s: State, a: Address): State {
    PutAsset(s, a, AccrueAsset(AssetOf(s, a), s.now))
  }

  /** The user's position with interest up to now, as `read_accrued_position` computes it. */
  function Realised(s: State, u: Address, a: Address): Position {
    ComputeAccruedPosition(AccountOf(s, u, a).pos, Simulate(AssetOf(s, a), s.now))
  }

  // ---------------------------------------------------------------- rewards

  function AdvanceRewards(r: Asset, now: nat): Asset {
    var st := r.rewards.GetOr(AssetRewards(0, 0, 0, 0, now));
    if r.rewards.Some? && now <= st.lastTs then r
    else
      var elapsed := if now <= st.lastTs then 0 else now - st.lastTs;
      r.(rewards := Some(ComputeIndexAdvance(st, r.totalDeposited, r.totalBorrowed, now)),
         book := r.book.(emittedSupply := r.book.emittedSupply + st.supplySpeed * elapsed,
                         emittedBorrow := r.book.emittedBorrow + st.borrowSpeed * elapsed))
  }

  /** Snapshot on touch: advance the pool, then fold the pre-mutation position `p` into the user's counters. */
  function Touch(s: State, u: Address, a: Address, p: Position): State {
    var r := AdvanceRewards(AssetOf(s, a), s.now);
    var c := AccountOf(s, u, a);
    PutAccount(PutAsset(s, a, r), u, a,
      c.(rew := AccrueFromIndexes(c.rew, r.rewards.value, p.deposited, p.borrowed)))
  }

  // ---------------------------------------------------------------- guards

  function RequireSupported(s: State, a: Address): Check {
    Require(AssetOf(s, a).supported, UnsupportedAsset)
  }

  function RequirePositive(amount: int): Check {
    if amount == 0 then Fail(ZeroAmount) else Require(amount > 0, InvalidAmount)
  }

  function CheckSupplyCaps(r: Asset, amount: int): Check {
    if r.depositCap != -1 && r.totalDeposited + amount > r.depositCap then Fail(CapExceeded)
    else if r.supplyCap != 0 && r.totalDeposited + amount > r.supplyCap then Fail(SeizeExceedsCollateral)
    else Pass
  }

  function CheckBorrowCaps(r: Asset, amount: int): Check {
    if r.borrowCap != -1 && r.totalBorrowed + amount > r.borrowCap then Fail(InvalidLiquidationParams)
    else if r.aggregateBorrowCap != 0 && r.totalBorrowed + amount > r.aggregateBorrowCap then
      Fail(InvalidLiquidationParams)
    else Pass
  }

  // ---------------------------------------------------------------- collateral health

  /** Ceiling division of 10^8 by the ratio. */
  function RatioToFactor(ratio: nat): nat {
    if ratio == 0 then 10_000 else (100_000_000 + ratio - 1) / ratio
  }

  /** Which per-asset weight a health computation uses. */
  datatype Weight = CollateralFactor | LiquidationThreshold

  function WeightBps(s: State, a: Address, w: Weight): nat {
    match AssetOf(s, a).risk
    case None => RatioToFactor(s.minRatioBps)
    case Some(risk) => if w.CollateralFactor? then risk.collateralFactorBps else risk.liquidationThresholdBps
  }

  function PriceOf(s: State, a: Address): Result<int> {
    ReadPrice(AssetOf(s, a).oracle, s.now, s.maxOracleAge)
  }

  /** The pending withdrawal that a health check subtracts before it is written. */
  datatype Cut = NoCut | Cut(asset: Address, amount: int)

  function CutDeposit(s: State, u: Address, a: Address, cut: Cut): int {
    Realised(s, u, a).deposited - if cut.Cut? && cut.asset == a then cut.amount else 0
  }

  function WeightedTerm(s: State, u: Address, a: Address, w: Weight, cut: Cut): Result<int> {
    var deposited := CutDeposit(s, u, a, cut);
    if deposited <= 0 then Ok(0)
    else
      var price :- PriceOf(s, a);
      Ok(deposited * price * WeightBps(s, a, w))
  }

  /** The weighted value of the user's deposits over a list of assets. */
  function WeightedValue(s: State, u: Address, list: seq<Address>, w: Weight, cut: Cut): Result<int> {
    if |list| == 0 then Ok(0)
    else
      var sum :- WeightedValue(s, u, list[..|list| - 1], w, cut);
      var term :- WeightedTerm(s, u, list[|list| - 1], w, cut);
      Ok(sum + term)
  }

  /** Does the weighted collateral cover a debt of this value? */
  function CoverDebt(s: State, u: Address, debtValue: int, cut: Cut): Check {
    match WeightedValue(s, u, s.listed, CollateralFactor, cut)
    case Err(e) => Fail(e)
    case Ok(weighted) => Require(weighted >= debtValue * 10_000, InsufficientCollateral)
  }

  /** `assert_collateralized`, with the pending borrow or withdrawal applied on the fly. */
  function CheckHealth(s: State, u: Address, debtAsset: Address, borrowing: int, cut: Cut): Check {
    var debt := Realised(s, u, debtAsset).borrowed + borrowing;
    if debt == 0 then Pass
    else
      match PriceOf(s, debtAsset)
      case Err(e) => Fail(e)
      case Ok(price) => CoverDebt(s, u, debt * price, cut)
  }

  // ---------------------------------------------------------------- user operations

  /** How an operation moves one user's balances together with the asset's aggregates. */
  datatype Entry = Entry(deposited: int, borrowed: int, balance: int, dust: int, writtenOff: int)

  /** Writes the position and the aggregates of one operation. */
  function Post(s: State, u: Address, a: Address, p: Position, e: Entry): State {
    var r := AssetOf(s, a);
    PutAsset(
      PutPosition(s, u, a, p.(deposited := p.deposited + e.deposited, borrowed := p.borrowed + e.borrowed)), a,
      r.(totalDeposited := r.totalDeposited + e.deposited,
         totalBorrowed := r.totalBorrowed + e.borrowed,
         balance := r.balance + e.balance,
         book := r.book.(repayDust := r.book.repayDust + e.dust, writtenOff := r.book.writtenOff + e.writtenOff)))
  }

  /** Realise the position, settle its rewards, and post the entry. */
  function TouchAndPost(s: State, u: Address, a: Address, e: Entry): State {
    var p := Realised(s, u, a);
    Post(Touch(s, u, a, p), u, a, p, e)
  }

  function DepositEntry(amount: int): Entry {
    Entry(amount, 0, amount, 0, 0)
  }

  function BorrowEntry(amount: int): Entry {
    Entry(0, amount, -amount, 0, 0)
  }

  function WithdrawEntry(amount: int): Entry {
    Entry(-amount, 0, -amount, 0, 0)
  }

  /** What is left of a debt after a repayment, when it is small enough to be rounded away. */
  function RepayDust(borrowed: int, amount: int): int {
    if 0 < borrowed - amount <= DUST_THRESHOLD then borrowed - amount else 0
  }

  function RepayEntry(borrowed: int, amount: int): Entry {
    var dust := RepayDust(borrowed, amount);
    Entry(0, -amount - dust, amount, dust, 0)
  }

  datatype Kind = Supplying | Borrowing | Repaying | Withdrawing

  /** The entry of an operation on a position `p`, or why the position or the reserve cannot bear it. */
  function EntryFor(k: Kind, p: Position, reserve: int, amount: int): Result<Entry> {
    match k
    case Supplying => Ok(DepositEntry(amount))
    case Borrowing => if amount > reserve then Err(InsufficientReserve) else Ok(BorrowEntry(amount))
    case Repaying => if amount > p.borrowed then Err(RepayTooLarge) else Ok(RepayEntry(p.borrowed, amount))
    case Withdrawing =>
      if amount > p.deposited then Err(InsufficientDeposit)
      else if amount > reserve then Err(InsufficientReserve)
      else Ok(WithdrawEntry(amount))
  }

  /** What an operation does to an accrued asset, once its outer guards have passed. */
  function Body(k: Kind, s: State, u: Address, a: Address, amount: int): Result<State> {
    var e :- EntryFor(k, Realised(s, u, a), AssetOf(s, a).balance, amount);
    Ok(TouchAndPost(s, u, a, e))
  }

  function Deposit(s: State, u: Address, a: Address, amount: int): Result<State> {
    var t := Accrue(s, a);
    :- Require(!s.paused, ContractPaused);
    :- RequireSupported(s, a);
    :- RequirePositive(amount);
    :- CheckSupplyCaps(AssetOf(t, a), amount);
    Ok(TouchAndPost(t, u, a, DepositEntry(amount)))
  }

  function Borrow(s: State, u: Address, a: Address, collateral: Address, amount: int): Result<State> {
    var t := Accrue(s, a);
    :- Require(!s.paused, ContractPaused);
    :- RequireSupported(s, a);
    :- RequireSupported(s, collateral);
    :- RequirePositive(amount);
    :- CheckBorrowCaps(AssetOf(t, a), amount);
    var p := Realised(t, u, a);
    var touched := Touch(t, u, a, p);
    :- Require(amount <= AssetOf(touched, a).balance, InsufficientReserve);
    :- CheckHealth(touched, u, a, amount, NoCut);
    Ok(Post(touched, u, a, p, BorrowEntry(amount)))
  }

  function Repay(s: State, u: Address, a: Address, amount: int): Result<State> {
    var t := Accrue(s, a);
    :- RequireSupported(s, a);
    :- RequirePositive(amount);
    Body(Repaying, t, u, a, amount)
  }

  function Withdraw(s: State, u: Address, a: Address, debtAsset: Address, amount: int): Result<State> {
    var t := Accrue(s, a);
    :- RequireSupported(s, a);
    :- RequireSupported(s, debtAsset);
    :- RequirePositive(amount);
    var p := Realised(t, u, a);
    var touched := Touch(t, u, a, p);
    :- Require(amount <= p.deposited, InsufficientDeposit);
    :- Require(amount <= AssetOf(touched, a).balance, InsufficientReserve);
    :- CheckHealth(touched, u, debtAsset, 0, Cut(a, amount));
    Ok(Post(touched, u, a, p, WithdrawEntry(amount)))
  }

  function AccrueInterest(s: State, a: Address): Result<State> {
    var t := Accrue(s, a);
    :- Require(!s.paused, ContractPaused);
    :- RequireSupported(s, a);
    Ok(t)
  }

  // ---------------------------------------------------------------- batches

  datatype BatchOp = BatchOp(asset: Address, amount: int)

  /** Every asset of the batch once, in order of first appearance. */
  function UniqueAssets(ops: seq<BatchOp>): seq<Address> {
    if |ops| == 0 then []
    else AddAsset(UniqueAssets(ops[..|ops| - 1]), ops[|ops| - 1].asset)
  }

  function AddAsset(list: seq<Address>, a: Address): seq<Address> {
    if a in list then list else list + [a]
  }

  function AccrueAll(s: State, list: seq<Address>): State {
    if |list| == 0 then s else Accrue(AccrueAll(s, list[..|list| - 1]), list[|list| - 1])
  }

  function ValidateOps(s: State, ops: seq<BatchOp>): Check {
    if |ops| == 0 then Pass
    else
      match ValidateOps(s, ops[..|ops| - 1])
      case Fail(e) => Fail(e)
      case Pass =>
        match RequireSupported(s, ops[|ops| - 1].asset)
        case Fail(e) => Fail(e)
        case Pass => RequirePositive(ops[|ops| - 1].amount)
  }

  /** What a batch moves in one asset. */
  function TotalFor(ops: seq<BatchOp>, a: Address): int {
    if |ops| == 0 then 0
    else TotalFor(ops[..|ops| - 1], a) + if ops[|ops| - 1].asset == a then ops[|ops| - 1].amount else 0
  }

  /** Every touched asset's batch total must fit its caps, in order of first appearance. */
  function CheckBatchCaps(s: State, ops: seq<BatchOp>, list: seq<Address>, supply: bool): Check {
    if |list| == 0 then Pass
    else
      match CheckBatchCaps(s, ops, list[..|list| - 1], supply)
      case Fail(e) => Fail(e)
      case Pass =>
        var a := list[|list| - 1];
        if supply then CheckSupplyCaps(AssetOf(s, a), TotalFor(ops, a))
        else CheckBorrowCaps(AssetOf(s, a), TotalFor(ops, a))
  }

  /** The operations of a batch in turn, each after accruing its own asset. */
  function Bodies(k: Kind, s: State, u: Address, ops: seq<BatchOp>): Result<State> {
    if |ops| == 0 then Ok(s)
    else
      var op := ops[|ops| - 1];
      var t :- Bodies(k, s, u, ops[..|ops| - 1]);
      Body(k, Accrue(t, op.asset), u, op.asset, op.amount)
  }

  function DepositBatch(s: State, u: Address, ops: seq<BatchOp>): Result<State> {
    var t := AccrueAll(s, UniqueAssets(ops));
    :- Require(!s.paused, ContractPaused);
    :- ValidateOps(t, ops);
    :- CheckBatchCaps(t, ops, UniqueAssets(ops), true);
    Bodies(Supplying, t, u, ops)
  }

  function RepayBatch(s: State, u: Address, ops: seq<BatchOp>): Result<State> {
    var t := AccrueAll(s, UniqueAssets(ops));
    :- ValidateOps(t, ops);
    Bodies(Repaying, t, u, ops)
  }

  function WithdrawBatch(s: State, u: Address, debtAsset: Address, ops: seq<BatchOp>): Result<State> {
    var t := AccrueAll(s, AddAsset(UniqueAssets(ops), debtAsset));
    :- RequireSupported(s, debtAsset);
    :- ValidateOps(t, ops);
    var end :- Bodies(Withdrawing, t, u, ops);
    :- CheckHealth(end, u, debtAsset, 0, NoCut);
    Ok(end)
  }

  /** The value of the user's debts over a list of assets. */
  function DebtValue(s: State, u: Address, list: seq<Address>): Result<int> {
    if |list| == 0 then Ok(0)
    else
      var sum :- DebtValue(s, u, list[..|list| - 1]);
      var price :- PriceOf(s, list[|list| - 1]);
      Ok(sum + Realised(s, u, list[|list| - 1]).borrowed * price)
  }

  function CheckBatchBorrowHealth(s: State, u: Address, list: seq<Address>): Check {
    match DebtValue(s, u, list)
    case Err(e) => Fail(e)
    case Ok(value) => if value == 0 then Pass else CoverDebt(s, u, value, NoCut)
  }

  function BorrowBatch(s: State, u: Address, collateral: Address, ops: seq<BatchOp>): Result<State> {
    var t := AccrueAll(s, AddAsset(UniqueAssets(ops), collateral));
    :- Require(!s.paused, ContractPaused);
    :- RequireSupported(s, collateral);
    :- ValidateOps(t, ops);
    :- CheckBatchCaps(t, ops, UniqueAssets(ops), false);
    var end :- Bodies(Borrowing, t, u, ops);
    :- CheckBatchBorrowHealth(end, u, UniqueAssets(ops));
    Ok(end)
  }

  // ---------------------------------------------------------------- liquidation and write-off

  /** The value seized for a repayment: a product that leaves i128 saturates to the largest i128. */
  function SeizeValue(repayValue: int, discountBps: nat): int {
    var scaled := repayValue * (10_000 + discountBps);
    if scaled > I128_MAX then I128_MAX else TruncDiv(scaled, 10_000)
  }

  function SeizeAmount(repayValue: int, discountBps: nat, collateralPrice: int, available: int): int
    requires collateralPrice > 0
  {
    Min(TruncDiv(SeizeValue(repayValue, discountBps), collateralPrice), available)
  }

  /** All accruals and reward settlements that precede the liquidation checks. */
  function PrepareLiquidation(s: State, liquidator: Address, u: Address, collateral: Address, debtAsset: Address): State {
    var t := Accrue(Accrue(s, debtAsset), collateral);
    var t1 := Touch(t, u, debtAsset, Realised(t, u, debtAsset));
    var t2 := Touch(t1, u, collateral, Realised(t, u, collateral));
    Touch(t2, liquidator, collateral, Realised(t2, liquidator, collateral))
  }

  /** How much a liquidation would repay and seize, or why it is refused. */
  function QuoteLiquidation(s: State, u: Address, collateral: Address, debtAsset: Address, repayAmount: int)
    : Result<(int, int)>
  {
    var debt := Realised(s, u, debtAsset).borrowed;
    :- Require(debt != 0, PositionNotLiquidatable);
    var debtPrice :- PriceOf(s, debtAsset);
    var weighted :- WeightedValue(s, u, s.listed, LiquidationThreshold, NoCut);
    :- Require(weighted < debt * debtPrice * 10_000, PositionNotLiquidatable);
    var repaid := Min(repayAmount, debt);
    :- Require(repaid <= TruncDiv(debt * s.closeFactorBps, 10_000), LiquidationTooLarge);
    :- Require(repaid > 0, ZeroAmount);
    var collateralPrice :- PriceOf(s, collateral);
    Ok((repaid, SeizeAmount(repaid * debtPrice, s.discountBps, collateralPrice, Realised(s, u, collateral).deposited)))
  }

  /** Repays on the debt leg, then moves the seized deposit; both collateral writes use positions read beforehand. */
  function SettleLiquidation(
    s: State, liquidator: Address, u: Address, collateral: Address, debtAsset: Address, repaid: int, seized: int): State
  {
    var debt := Realised(s, u, debtAsset);
    var held := Realised(s, u, collateral);
    var s1 := Post(s, u, debtAsset, debt, Entry(0, -repaid, repaid, 0, 0));
    var s2 := PutPosition(s1, u, collateral, held.(deposited := held.deposited - seized));
    var gained := Realised(s2, liquidator, collateral);
    PutPosition(s2, liquidator, collateral, gained.(deposited := gained.deposited + seized))
  }

  function Liquidate(
    s: State, liquidator: Address, u: Address, collateral: Address, debtAsset: Address, repayAmount: int): Result<State>
  {
    var t := PrepareLiquidation(s, liquidator, u, collateral, debtAsset);
    :- RequireSupported(s, collateral);
    :- RequireSupported(s, debtAsset);
    :- RequirePositive(repayAmount);
    var quote :- QuoteLiquidation(t, u, collateral, debtAsset, repayAmount);
    Ok(SettleLiquidation(t, liquidator, u, collateral, debtAsset, quote.0, quote.1))
  }

  /** Accrues every listed asset in turn; fails at the first one in which the user still holds a deposit. */
  function AccrueUncollateralised(s: State, u: Address, list: seq<Address>): Result<State> {
    if |list| == 0 then Ok(s)
    else
      var t :- AccrueUncollateralised(s, u, list[..|list| - 1]);
      var next := Accrue(t, list[|list| - 1]);
      :- Require(Realised(next, u, list[|list| - 1]).deposited <= 0, BadDebtStillCollateralized);
      Ok(next)
  }

  function WriteoffBadDebt(s: State, u: Address, debtAsset: Address): Result<State> {
    var t := Accrue(s, debtAsset);
    :- Require(!s.paused, ContractPaused);
    var debt := Realised(t, u, debtAsset);
    if debt.borrowed == 0 then Ok(t)
    else
      var end :- AccrueUncollateralised(t, u, s.listed);
      Ok(Post(end, u, debtAsset, debt, Entry(0, -debt.borrowed, 0, 0, debt.borrowed)))
  }

  // ---------------------------------------------------------------- flash loans and protocol fees

  function PremiumRoundedUp(amount: int, premiumBps: nat): int {
    TruncDiv(amount * premiumBps + 9_999, 10_000)
  }

  /** The receiver's callback either returns or makes the whole call fail; it cannot re-enter. */
  function FlashLoan(s: State, a: Address, amount: int, callbackReturns: bool): Result<State> {
    var flash := AssetOf(s, a).flash;
    :- Require(!s.paused, ContractPaused);
    :- RequireSupported(s, a);
    :- RequirePositive(amount);
    :- Require(flash.Some?, FlashLoanNotConfigured);
    var config := flash.value;
    :- Require(config.enabled, FlashLoanDisabled);
    var t := Accrue(s, a);
    var r := AssetOf(t, a);
    :- Require(amount <= TruncDiv(r.balance * config.maxBps, 10_000), FlashLoanExceedsMaxBps);
    :- Require(amount <= r.balance, InsufficientReserve);
    var premium := PremiumRoundedUp(amount, config.premiumBps);
    :- Require(callbackReturns, FlashLoanCallbackFailed);
    Ok(PutAsset(t, a,
      r.(balance := r.balance - amount + (amount + premium),
         fees := r.fees + premium,
         totalDeposited := r.totalDeposited - amount + (amount + premium),
         book := r.book.(premiums := r.book.premiums + premium))))
  }

  function RecordProtocolFee(s: State, a: Address, amount: int): Result<State> {
    var t := Accrue(s, a);
    var r := AssetOf(t, a);
    :- Require(s.maxFeeBps == 0 || amount <= TruncDiv((r.balance - r.fees) * s.maxFeeBps, 10_000),
               ProtocolFeeExceedsLimit);
    Ok(PutAsset(t, a, r.(balance := r.balance + amount, fees := r.fees + amount,
                         book := r.book.(feesRecorded := r.book.feesRecorded + amount))))
  }

  function WithdrawReserves(s: State, a: Address, amount: int): Result<State> {
    var t := Accrue(s, a);
    var r := AssetOf(t, a);
    :- Require(amount <= r.fees, InsufficientReserve);
    Ok(PutAsset(t, a, r.(balance := r.balance - amount, fees := r.fees - amount,
                         book := r.book.(feesWithdrawn := r.book.feesWithdrawn + amount))))
  }

  // ---------------------------------------------------------------- reward claims

  function Cleared(c: Account): Account {
    c.(rew := c.rew.(unclaimedSupply := 0, unclaimedBorrow := 0))
  }

  function Credited(r: Asset, rew: UserRewards): Asset {
    r.(book := r.book.(grantedSupply := r.book.grantedSupply + rew.unclaimedSupply,
                       grantedBorrow := r.book.grantedBorrow + rew.unclaimedBorrow))
  }

  /** The user's counters go to zero; the book notes what they held. */
  function ClearCounters(s: State, u: Address, a: Address): State {
    PutAsset(PutAccount(s, u, a, Cleared(AccountOf(s, u, a))), a, Credited(AssetOf(s, a), AccountOf(s, u, a).rew))
  }

  /** Moves the user's unclaimed rewards in one asset out of the counters; returns the amount moved. */
  function RealizeUnclaimed(s: State, u: Address, a: Address): (State, int) {
    var t := Accrue(s, a);
    var touched := Touch(t, u, a, Realised(t, u, a));
    var c := AccountOf(touched, u, a);
    var amount := c.rew.unclaimedSupply + c.rew.unclaimedBorrow;
    if amount <= 0 then (touched, amount)
    else
      (ClearCounters(touched, u, a), amount)
  }

  function PushGrant(s: State, u: Address, amount: int): State {
    s.(grants := s.grants[u := GrantsOf(s, u) + [Grant(amount, 0, s.now, s.vestCliff, s.vestDuration)]],
       grantedTotal := s.grantedTotal + amount)
  }

  function ClaimAsset(s: State, u: Address, a: Address): Result<State> {
    var (t, amount) := RealizeUnclaimed(s, u, a);
    :- Require(amount != 0, ZeroAmount);
    Ok(PushGrant(t, u, amount))
  }

  function RealizeAll(s: State, u: Address, list: seq<Address>): (State, int) {
    if |list| == 0 then (s, 0)
    else
      var (t, total) := RealizeAll(s, u, list[..|list| - 1]);
      var (next, amount) := RealizeUnclaimed(t, u, list[|list| - 1]);
      (next, total + amount)
  }

  function ClaimAll(s: State, u: Address): Result<State> {
    var (t, total) := RealizeAll(s, u, s.listed);
    :- Require(total != 0, ZeroAmount);
    Ok(PushGrant(t, u, total))
  }

  /** `available` is the contract's reward-token balance, held by the token contract. */
  function VestClaimable(s: State, u: Address, available: int): Result<State> {
    var payout := TotalReleasable(GrantsOf(s, u), s.now);
    :- Require(payout != 0, ZeroAmount);
    :- Require(payout <= available, InsufficientReserve);
    Ok(s.(grants := s.grants[u := Remaining(GrantsOf(s, u), s.now)], paidTotal := s.paidTotal + payout))
  }

  // ---------------------------------------------------------------- administration

  function SetInterestParams(s: State, a: Address, params: InterestParams): Result<State> {
    var t := Accrue(s, a);
    :- RequireSupported(s, a);
    :- Require(!s.paused, ContractPaused);
    :- Require(params.Valid(), InvalidInterestParams);
    Ok(PutAsset(t, a, AssetOf(t, a).(params := Some(params))))
  }

  function SetRewardSpeeds(s: State, a: Address, supplySpeed: int, borrowSpeed: int): Result<State> {
    var r := AdvanceRewards(AssetOf(s, a), s.now);
    :- RequireSupported(s, a);
    :- Require(!s.paused, ContractPaused);
    :- Require(supplySpeed >= 0 && borrowSpeed >= 0, InvalidAmount);
    Ok(PutAsset(s, a, r.(rewards := Some(r.rewards.value.(supplySpeed := supplySpeed, borrowSpeed := borrowSpeed)))))
  }

  function SetVestingParams(s: State, cliff: nat, duration: nat): Result<State> {
    var ordered := duration == 0 || cliff <= duration;
    :- Require(!s.paused, ContractPaused);
    :- Require(ordered, InvalidCap);
    Ok(s.(vestCliff := cliff, vestDuration := duration))
  }

  function SetLiquidationParams(s: State, closeBps: nat, discountBps: nat): Result<State> {
    var withinAll := closeBps <= 10_000 && discountBps <= 10_000;
    :- Require(!s.paused, ContractPaused);
    :- Require(withinAll, InvalidLiquidationParams);
    Ok(s.(closeFactorBps := closeBps, discountBps := discountBps))
  }

  /** `set_supply_cap` when `supply`, otherwise `set_borrow_cap`. */
  function SetAggregateCap(s: State, a: Address, supply: bool, cap: int): Result<State> {
    var r := AssetOf(s, a);
    :- RequireSupported(s, a);
    :- Require(!s.paused, ContractPaused);
    :- Require(cap >= 0, InvalidCap);
    Ok(PutAsset(s, a, if supply then r.(supplyCap := cap) else r.(aggregateBorrowCap := cap)))
  }

  function ConfigureFlashLoan(s: State, a: Address, config: FlashConfig): Result<State> {
    var r := AssetOf(s, a);
    :- RequireSupported(s, a);
    :- Require(!s.paused, ContractPaused);
    :- Require(1 <= config.premiumBps <= 1_000 && 1 <= config.maxBps <= 10_000, InvalidFlashLoanParams);
    Ok(PutAsset(s, a, r.(flash := Some(config))))
  }

  function ApplyOraclePrice(s: State, a: Address, price: int): Result<State> {
    var o :- SetPrice(AssetOf(s, a).oracle, price, s.now);
    Ok(PutAsset(s, a, AssetOf(s, a).(oracle := o)))
  }

  /** The immediate price setter. */
  function SetOraclePrice(s: State, a: Address, price: int): Result<State> {
    var next := ApplyOraclePrice(s, a, price);
    :- RequireSupported(s, a);
    :- Require(!s.paused, ContractPaused);
    next
  }

  function SetOracleBounds(s: State, a: Address, min: int, max: int): Result<State> {
    var r := AssetOf(s, a);
    :- RequireSupported(s, a);
    :- Require(!s.paused, ContractPaused);
    var o :- SetBounds(r.oracle, min, max);
    Ok(PutAsset(s, a, r.(oracle := o)))
  }

  function SetOracleMaxChange(s: State, a: Address, bps: nat): Result<State> {
    var r := AssetOf(s, a);
    :- RequireSupported(s, a);
    :- Require(!s.paused, ContractPaused);
    Ok(PutAsset(s, a, r.(oracle := r.oracle.(maxChangeBps := Some(bps)))))
  }

  // ---------------------------------------------------------------- timelocked actions

  datatype ActionPayload =
    | ConfigureAsset(asset: Address, supported: bool)
    | SetOraclePriceTo(asset: Address, price: int)
    | UpdateAssetCaps(asset: Address, depositCap: int, borrowCap: int)
    | SetMinCollateralRatio(bps: nat)
    | SetPaused(paused: bool)
    | RecordFee(asset: Address, amount: int)
    | WithdrawFees(asset: Address, to: Address, amount: int)
    | Upgrade(wasmHash: nat)
    | SetAssetRiskParams(asset: Address, risk: RiskParams)
    | RecoverRewards(to: Address, amount: int)

  const CONTRACT_VERSION: nat := 11

  /** What foreign contracts answer while an action is applied. */
  datatype Host = Host(probedVersion: Option<nat>, rewardTokenBalance: int)

  function CheckRisk(risk: RiskParams): Check {
    if risk.collateralFactorBps > risk.liquidationThresholdBps then Fail(CollateralFactorExceedsThreshold)
    else if risk.liquidationThresholdBps > 10_000 then Fail(LiquidationThresholdExceedsMax)
    else if risk.liquidationBonusBps > 2_000 then Fail(InvalidLiquidationBonus)
    else Require(risk.liquidationThresholdBps + risk.liquidationBonusBps <= 10_000,
                 LiquidationThresholdPlusBonusExceedsMax)
  }

  function Both(first: Check, second: Check): Check {
    if first.Fail? then first else second
  }

  function ValidatePayload(s: State, payload: ActionPayload): Check {
    match payload
    case ConfigureAsset(_, _) => Pass
    case SetOraclePriceTo(_, price) => Require(price > 0, InvalidAmount)
    case UpdateAssetCaps(a, depositCap, borrowCap) =>
      Both(Require((depositCap == -1 || depositCap > 0) && (borrowCap == -1 || borrowCap > 0), InvalidCap),
           RequireSupported(s, a))
    case SetMinCollateralRatio(bps) => Require(bps >= 10_000, InvalidCollateralRatio)
    case SetPaused(_) => Pass
    case RecordFee(a, amount) => Both(RequireSupported(s, a), RequirePositive(amount))
    case WithdrawFees(a, _, amount) =>
      Both(Both(RequireSupported(s, a), RequirePositive(amount)),
           Require(amount <= AssetOf(s, a).fees, InsufficientReserve))
    case Upgrade(_) => Pass
    case SetAssetRiskParams(a, risk) => Both(RequireSupported(s, a), CheckRisk(risk))
    case RecoverRewards(_, amount) => RequirePositive(amount)
  }

  function Without(list: seq<Address>, a: Address): seq<Address> {
    if |list| == 0 then []
    else Without(list[..|list| - 1], a) + if list[|list| - 1] == a then [] else [list[|list| - 1]]
  }

  function ApplyConfigureAsset(s: State, a: Address, supported: bool): Result<State> {
    var r := AssetOf(s, a);
    :- Require(supported || (r.totalDeposited == 0 && r.totalBorrowed == 0), AssetHasActivePositions);
    if supported then
      Ok(PutAsset(s, a, r.(supported := true, interest := Some(InterestOf(r, s.now)))).(listed := AddAsset(s.listed, a)))
    else
      Ok(PutAsset(s, a, r.(supported := false)).(listed := Without(s.listed, a)))
  }

  function ApplyAssetCaps(s: State, a: Address, depositCap: int, borrowCap: int): Result<State> {
    var r := AssetOf(s, a);
    :- Require(depositCap == -1 || r.totalDeposited <= depositCap, CapBelowOutstanding);
    :- Require(borrowCap == -1 || r.totalBorrowed <= borrowCap, CapBelowOutstanding);
    Ok(PutAsset(s, a, r.(depositCap := depositCap, borrowCap := borrowCap)))
  }

  /** The wasm swap and the reward-token transfer happen outside the ledger; only their guards show here. */
  function ApplyAction(s: State, payload: ActionPayload, host: Host): Result<State> {
    var valid := ValidatePayload(s, payload);
    :- valid;
    match payload
    case ConfigureAsset(a, supported) => ApplyConfigureAsset(s, a, supported)
    case SetOraclePriceTo(a, price) => ApplyOraclePrice(s, a, price)
    case UpdateAssetCaps(a, depositCap, borrowCap) => ApplyAssetCaps(s, a, depositCap, borrowCap)
    case SetMinCollateralRatio(bps) => Ok(s.(minRatioBps := bps))
    case SetPaused(paused) => Ok(s.(paused := paused))
    case RecordFee(a, amount) => RecordProtocolFee(s, a, amount)
    case WithdrawFees(a, _, amount) => WithdrawReserves(s, a, amount)
    case Upgrade(_) =>
      if host.probedVersion.Some? && host.probedVersion.value >= CONTRACT_VERSION then Ok(s)
      else Err(InvalidUpgradeVersion)
    case SetAssetRiskParams(a, risk) => Ok(PutAsset(s, a, AssetOf(s, a).(risk := Some(risk))))
    case RecoverRewards(_, amount) =>
      if amount > host.rewardTokenBalance then Err(InsufficientReserve) else Ok(s)
  }

  // ---------------------------------------------------------------- runs

  datatype Call =
    | Wait(seconds: nat)
    | DoDeposit(user: Address, asset: Address, amount: int)
    | DoBorrow(user: Address, asset: Address, collateral: Address, amount: int)
    | DoRepay(user: Address, asset: Address, amount: int)
    | DoWithdraw(user: Address, asset: Address, debtAsset: Address, amount: int)
    | DoDepositBatch(user: Address, ops: seq<BatchOp>)
    | DoBorrowBatch(user: Address, collateral: Address, ops: seq<BatchOp>)
    | DoRepayBatch(user: Address, ops: seq<BatchOp>)
    | DoWithdrawBatch(user: Address, debtAsset: Address, ops: seq<BatchOp>)
    | DoAccrueInterest(asset: Address)
    | DoLiquidate(liquidator: Address, user: Address, collateral: Address, debtAsset: Address, amount: int)
    | DoWriteoff(user: Address, debtAsset: Address)
    | DoFlashLoan(asset: Address, amount: int, callbackReturns: bool)
    | DoClaimAsset(user: Address, asset: Address)
    | DoClaimAll(user: Address)
    | DoVestClaimable(user: Address, available: int)
    | DoSetInterestParams(asset: Address, params: InterestParams)
    | DoSetRewardSpeeds(asset: Address, supplySpeed: int, borrowSpeed: int)
    | DoSetVestingParams(cliff: nat, duration: nat)
    | DoSetLiquidationParams(closeBps: nat, discountBps: nat)
    | DoSetAggregateCap(asset: Address, supply: bool, cap: int)
    | DoConfigureFlashLoan(asset: Address, config: FlashConfig)
    | DoSetOraclePrice(asset: Address, price: int)
    | DoSetOracleBounds(asset: Address, min: int, max: int)
    | DoSetOracleMaxChange(asset: Address, bps: nat)
    | DoSetMaxOracleAge(seconds: nat)
    | DoSetMaxProtocolFee(bps: nat)
    | DoUnpause
    | DoAction(payload: ActionPayload, host: Host)

  function Invoke(s: State, call: Call): Result<State> {
    match call
    case Wait(seconds) => Ok(s.(now := s.now + seconds))
    case DoDeposit(u, a, amount) => Deposit(s, u, a, amount)
    case DoBorrow(u, a, collateral, amount) => Borrow(s, u, a, collateral, amount)
    case DoRepay(u, a, amount) => Repay(s, u, a, amount)
    case DoWithdraw(u, a, debtAsset, amount) => Withdraw(s, u, a, debtAsset, amount)
    case DoDepositBatch(u, ops) => DepositBatch(s, u, ops)
    case DoBorrowBatch(u, collateral, ops) => BorrowBatch(s, u, collateral, ops)
    case DoRepayBatch(u, ops) => RepayBatch(s, u, ops)
    case DoWithdrawBatch(u, debtAsset, ops) => WithdrawBatch(s, u, debtAsset, ops)
    case DoAccrueInterest(a) => AccrueInterest(s, a)
    case DoLiquidate(l, u, collateral, debtAsset, amount) => Liquidate(s, l, u, collateral, debtAsset, amount)
    case DoWriteoff(u, debtAsset) => WriteoffBadDebt(s, u, debtAsset)
    case DoFlashLoan(a, amount, ok) => FlashLoan(s, a, amount, ok)
    case DoClaimAsset(u, a) => ClaimAsset(s, u, a)
    case DoClaimAll(u) => ClaimAll(s, u)
    case DoVestClaimable(u, available) => VestClaimable(s, u, available)
    case DoSetInterestParams(a, params) => SetInterestParams(s, a, params)
    case DoSetRewardSpeeds(a, supplySpeed, borrowSpeed) => SetRewardSpeeds(s, a, supplySpeed, borrowSpeed)
    case DoSetVestingParams(cliff, duration) => SetVestingParams(s, cliff, duration)
    case DoSetLiquidationParams(closeBps, discountBps) => SetLiquidationParams(s, closeBps, discountBps)
    case DoSetAggregateCap(a, supply, cap) => SetAggregateCap(s, a, supply, cap)
    case DoConfigureFlashLoan(a, config) => ConfigureFlashLoan(s, a, config)
    case DoSetOraclePrice(a, price) => SetOraclePrice(s, a, price)
    case DoSetOracleBounds(a, min, max) => SetOracleBounds(s, a, min, max)
    case DoSetOracleMaxChange(a, bps) => SetOracleMaxChange(s, a, bps)
    case DoSetMaxOracleAge(seconds) => if s.paused then Err(ContractPaused) else Ok(s.(maxOracleAge := seconds))
    case DoSetMaxProtocolFee(bps) =>
      if s.paused then Err(ContractPaused) else if bps > 5_000 then Err(InvalidCap) else Ok(s.(maxFeeBps := bps))
    case DoUnpause => Ok(s.(paused := false))
    case DoAction(payload, host) => ApplyAction(s, payload, host)
  }

  /** A failing call reverts. */
  function After(s: State, call: Call): State {
    match Invoke(s, call)
    case Ok(t) => t
    case Err(_) => s
  }

  function Run(s: State, calls: seq<Call>): State {
    if |calls| == 0 then s else After(Run(s, calls[..|calls| - 1]), calls[|calls| - 1])
  }
}
