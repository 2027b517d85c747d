/** What settings, pauses and governance actions can and cannot do to users. */
module Settings {
  import opened Prelude
  import opened Interest
  import opened Rewards
  import opened Vesting
  import Oracle
  import opened Ledger
  import opened Invariants
  import opened Health

  // ---------------------------------------------------------------- settings work forwards only

  predicate IsSetting(call: Call) {
    || call.DoAccrueInterest? || call.DoSetInterestParams? || call.DoSetRewardSpeeds? || call.DoSetVestingParams?
    || call.DoSetLiquidationParams? || call.DoSetAggregateCap? || call.DoConfigureFlashLoan? || call.DoSetOraclePrice?
    || call.DoSetOracleBounds? || call.DoSetOracleMaxChange? || call.DoSetMaxOracleAge? || call.DoSetMaxProtocolFee?
    || call.DoUnpause? || call.DoAction?
  }

  /** Both records show their holders the same indexes now. */
  predicate ShowsAlike(r: Asset, q: Asset, now: nat) {
    Simulate(q, now) == Simulate(r, now)
  }

  lemma NoTimeNoInterest(q: Asset, now: nat)
    requires Fresh(q, now)
    ensures Simulate(q, now) == q.interest.value
  {
  }

  /** New rates apply to the time to come: what has accrued so far is fixed by the old ones. */
  lemma AccruedShowsAlike(r: Asset, q: Asset, now: nat)
    requires q.interest == AccrueAsset(r, now).interest
    ensures ShowsAlike(r, q, now)
  {
    hide Simulate;
    AccrueAssetFacts(r, now);
    NoTimeNoInterest(q, now);
  }

  lemma SameTotalsShowAlike(r: Asset, q: Asset, now: nat)
    requires InterestOf(q, now) == InterestOf(r, now) && q.params == r.params
    requires q.totalDeposited == r.totalDeposited && q.totalBorrowed == r.totalBorrowed
    ensures ShowsAlike(r, q, now)
  {
    hide ComputeAccrual;
  }

  ghost predicate OnlyShownAlike(s: State, t: State, a: Address) {
    && s.now == t.now && t.accounts == s.accounts && (forall b | b != a :: AssetOf(t, b) == AssetOf(s, b))
    && ShowsAlike(AssetOf(s, a), AssetOf(t, a), s.now)
  }

  lemma AlikeMeansUnmoved(s: State, t: State, a: Address)
    requires OnlyShownAlike(s, t, a)
    ensures forall v, b :: Realised(t, v, b) == Realised(s, v, b)
  {
    hide Simulate, ComputeAccruedPosition;
  }

  /** Everything but the interest, the rates and the totals of one asset, and the global settings, is out of view. */
  lemma UnseenTerms(s: State, t: State, a: Address)
    requires s.now == t.now && t.accounts == s.accounts && (forall b | b != a :: AssetOf(t, b) == AssetOf(s, b))
    requires InterestOf(AssetOf(t, a), s.now) == InterestOf(AssetOf(s, a), s.now)
    requires AssetOf(t, a).params == AssetOf(s, a).params
    requires AssetOf(t, a).totalDeposited == AssetOf(s, a).totalDeposited
    requires AssetOf(t, a).totalBorrowed == AssetOf(s, a).totalBorrowed
    ensures forall v, b :: Realised(t, v, b) == Realised(s, v, b)
  {
    hide Realised, InterestOf, ShowsAlike, AssetOf;
    SameTotalsShowAlike(AssetOf(s, a), AssetOf(t, a), s.now);
    AlikeMeansUnmoved(s, t, a);
  }

  /** And so is whatever follows an accrual. */
  lemma UnseenAccrual(s: State, t: State, a: Address)
    requires s.now == t.now && t.accounts == s.accounts && (forall b | b != a :: AssetOf(t, b) == AssetOf(s, b))
    requires AssetOf(t, a).interest == AccrueAsset(AssetOf(s, a), s.now).interest
    ensures forall v, b :: Realised(t, v, b) == Realised(s, v, b)
  {
    hide Realised, AccrueAsset, ShowsAlike, AssetOf;
    AccruedShowsAlike(AssetOf(s, a), AssetOf(t, a), s.now);
    AlikeMeansUnmoved(s, t, a);
  }

  lemma ConfigureUnseen(s: State, a: Address, supported: bool)
    requires ApplyConfigureAsset(s, a, supported).Ok?
    ensures var t := ApplyConfigureAsset(s, a, supported).value;
      t.now == s.now && forall v, b :: Realised(t, v, b) == Realised(s, v, b)
  {
    hide Realised, AddAsset, Without;
    UnseenTerms(s, ApplyConfigureAsset(s, a, supported).value, a);
  }

  lemma ActionUnseen(s: State, payload: ActionPayload, host: Host)
    requires ApplyAction(s, payload, host).Ok?
    ensures var t := ApplyAction(s, payload, host).value;
      t.now == s.now && forall v, b :: Realised(t, v, b) == Realised(s, v, b)
  {
    hide Realised, AccrueAsset, ApplyConfigureAsset, ValidatePayload;
    var t := ApplyAction(s, payload, host).value;
    match payload {
      case ConfigureAsset(a, supported) => ConfigureUnseen(s, a, supported);
      case SetOraclePriceTo(a, _) => UnseenTerms(s, t, a);
      case UpdateAssetCaps(a, _, _) => UnseenTerms(s, t, a);
      case RecordFee(a, _) => UnseenAccrual(s, t, a);
      case WithdrawFees(a, _, _) => UnseenAccrual(s, t, a);
      case SetAssetRiskParams(a, _) => UnseenTerms(s, t, a);
      case _ => UnseenTerms(s, t, Address(0));
    }
  }

  predicate IsGlobalSetting(call: Call) {
    || call.DoSetVestingParams? || call.DoSetLiquidationParams? || call.DoSetMaxOracleAge? || call.DoSetMaxProtocolFee?
    || call.DoUnpause?
  }

  lemma GlobalSettingUnseen(s: State, call: Call)
    requires IsGlobalSetting(call)
    ensures After(s, call).now == s.now && forall v, b :: Realised(After(s, call), v, b) == Realised(s, v, b)
  {
    hide Realised;
    UnseenTerms(s, After(s, call), Address(0));
  }

  lemma AssetSettingUnseen(s: State, call: Call)
    requires call.DoSetAggregateCap? || call.DoConfigureFlashLoan? || call.DoSetOraclePrice? || call.DoSetOracleBounds?
          || call.DoSetOracleMaxChange?
    ensures After(s, call).now == s.now && forall v, b :: Realised(After(s, call), v, b) == Realised(s, v, b)
  {
    hide Realised, Oracle.SetPrice, Oracle.SetBounds;
    UnseenTerms(s, After(s, call), call.asset);
  }

  lemma RatesUnseen(s: State, a: Address, params: InterestParams)
    ensures var t := AccrueInterest(s, a);
      t.Ok? ==> t.value.now == s.now && forall v, b :: Realised(t.value, v, b) == Realised(s, v, b)
    ensures var t := SetInterestParams(s, a, params);
      t.Ok? ==> t.value.now == s.now && forall v, b :: Realised(t.value, v, b) == Realised(s, v, b)
  {
    hide Realised, AccrueAsset;
    if AccrueInterest(s, a).Ok? {
      UnseenAccrual(s, AccrueInterest(s, a).value, a);
    }
    if SetInterestParams(s, a, params).Ok? {
      UnseenAccrual(s, SetInterestParams(s, a, params).value, a);
    }
  }

  lemma SpeedsUnseen(s: State, a: Address, supplySpeed: int, borrowSpeed: int)
    requires SetRewardSpeeds(s, a, supplySpeed, borrowSpeed).Ok?
    ensures var t := SetRewardSpeeds(s, a, supplySpeed, borrowSpeed).value;
      t.now == s.now && forall v, b :: Realised(t, v, b) == Realised(s, v, b)
  {
    hide Realised, AdvanceRewards;
    AdvanceKeepsTerms(AssetOf(s, a), s.now);
    UnseenTerms(s, SetRewardSpeeds(s, a, supplySpeed, borrowSpeed).value, a);
  }

  /**
   * No setting and no governance action moves anyone's balances: interest up to now stays at the old rates, new
   * ones count from now on.
   */
  lemma SettingsAreProspective(s: State, call: Call)
    requires IsSetting(call)
    ensures After(s, call).now == s.now && forall v, b :: Realised(After(s, call), v, b) == Realised(s, v, b)
  {
    hide Realised, AccrueAsset, ApplyAction, SetRewardSpeeds, SetOraclePrice, SetOracleBounds, SetOracleMaxChange;
    hide SetAggregateCap, ConfigureFlashLoan, SetVestingParams, SetLiquidationParams;
    hide Deposit, Borrow, Repay, Withdraw, DepositBatch, BorrowBatch, RepayBatch, WithdrawBatch, Liquidate;
    hide WriteoffBadDebt, FlashLoan, ClaimAsset, ClaimAll, VestClaimable, AccrueInterest, SetInterestParams;
    if Invoke(s, call).Ok? {
      match call {
        case DoAction(payload, host) => ActionUnseen(s, payload, host);
        case DoAccrueInterest(a) => RatesUnseen(s, a, DEFAULT_PARAMS);
        case DoSetInterestParams(a, params) => RatesUnseen(s, a, params);
        case DoSetRewardSpeeds(a, supplySpeed, borrowSpeed) => SpeedsUnseen(s, a, supplySpeed, borrowSpeed);
        case _ =>
          if IsGlobalSetting(call) {
            GlobalSettingUnseen(s, call);
          } else {
            AssetSettingUnseen(s, call);
          }
      }
    }
  }

  lemma AdvanceKeepsTerms(r: Asset, now: nat)
    ensures var q := AdvanceRewards(r, now);
      q.interest == r.interest && q.params == r.params && q.totalDeposited == r.totalDeposited
      && q.totalBorrowed == r.totalBorrowed
  {
    hide ComputeIndexAdvance;
  }

  /** New reward speeds likewise: both indexes stand where the old speeds have taken them, and move on from now. */
  lemma SpeedsAreProspective(s: State, a: Address, supplySpeed: int, borrowSpeed: int)
    requires SetRewardSpeeds(s, a, supplySpeed, borrowSpeed).Ok?
    requires AssetOf(s, a).rewards.Some? ==> AssetOf(s, a).rewards.value.lastTs <= s.now
    ensures var r, t := AssetOf(s, a), SetRewardSpeeds(s, a, supplySpeed, borrowSpeed).value;
      var was, q := r.rewards.GetOr(AssetRewards(0, 0, 0, 0, s.now)), AssetOf(t, a);
      var elapsed := s.now - was.lastTs;
      && q.rewards == Some(AssetRewards(
           was.supplyIndex + IndexDelta(was.supplySpeed, elapsed, r.totalDeposited),
           was.borrowIndex + IndexDelta(was.borrowSpeed, elapsed, r.totalBorrowed),
           supplySpeed, borrowSpeed, s.now))
      && AdvanceRewards(q, s.now) == q
  {
  }

  // ---------------------------------------------------------------- pauses

  predicate StopsWhenPaused(call: Call) {
    || call.DoDeposit? || call.DoBorrow? || call.DoDepositBatch? || call.DoBorrowBatch? || call.DoAccrueInterest?
    || call.DoWriteoff? || call.DoFlashLoan? || (IsSetting(call) && !call.DoUnpause? && !call.DoAction?)
  }

  predicate RunsWhenPaused(call: Call) {
    || call.DoRepay? || call.DoRepayBatch? || call.DoWithdraw? || call.DoWithdrawBatch? || call.DoLiquidate?
    || call.DoClaimAsset? || call.DoClaimAll? || call.DoVestClaimable? || call.Wait?
  }

  function WithPause(s: State, on: bool): State {
    s.(paused := on)
  }

  function PausedResult(r: Result<State>, on: bool): Result<State> {
    match r
    case Ok(t) => Ok(WithPause(t, on))
    case Err(e) => Err(e)
  }

  lemma PauseReads(s: State, on: bool)
    ensures var p := WithPause(s, on);
      && (forall a :: AssetOf(p, a) == AssetOf(s, a) && Accrue(p, a) == WithPause(Accrue(s, a), on))
      && (forall u, a :: Realised(p, u, a) == Realised(s, u, a))
      && (forall a :: PriceOf(p, a) == PriceOf(s, a))
  {
    hide AccrueAsset, Simulate, ComputeAccruedPosition, Oracle.ReadPrice;
  }

  lemma PauseWrites(s: State, u: Address, a: Address, p: Position, e: Entry, on: bool)
    ensures Touch(WithPause(s, on), u, a, p) == WithPause(Touch(s, u, a, p), on)
    ensures Post(WithPause(s, on), u, a, p, e) == WithPause(Post(s, u, a, p, e), on)
  {
    hide AdvanceRewards, AccrueFromIndexes;
  }

  lemma {:induction false} PauseLists(s: State, u: Address, list: seq<Address>, w: Weight, cut: Cut, on: bool)
    ensures WeightedValue(WithPause(s, on), u, list, w, cut) == WeightedValue(s, u, list, w, cut)
    ensures AccrueAll(WithPause(s, on), list) == WithPause(AccrueAll(s, list), on)
  {
    hide Realised, PriceOf, Accrue;
    if |list| > 0 {
      PauseLists(s, u, list[..|list| - 1], w, cut, on);
      PauseReads(s, on);
      PauseReads(AccrueAll(s, list[..|list| - 1]), on);
    }
  }

  lemma PauseHealth(s: State, u: Address, d: Address, extra: int, cut: Cut, on: bool)
    ensures CheckHealth(WithPause(s, on), u, d, extra, cut) == CheckHealth(s, u, d, extra, cut)
  {
    hide Realised, PriceOf, Accrue, WeightedValue, AccrueAll;
    PauseReads(s, on);
    PauseLists(s, u, s.listed, CollateralFactor, cut, on);
  }

  lemma PauseTouchAndPost(s: State, u: Address, a: Address, e: Entry, on: bool)
    ensures TouchAndPost(WithPause(s, on), u, a, e) == WithPause(TouchAndPost(s, u, a, e), on)
  {
    hide Realised, Touch, Post, Accrue, PriceOf;
    var p := Realised(s, u, a);
    PauseReads(s, on);
    PauseWrites(s, u, a, p, e, on);
    PauseWrites(Touch(s, u, a, p), u, a, p, e, on);
  }

  lemma PauseBody(k: Kind, s: State, u: Address, a: Address, amount: int, on: bool)
    ensures Body(k, WithPause(s, on), u, a, amount) == PausedResult(Body(k, s, u, a, amount), on)
  {
    hide Realised, TouchAndPost, Accrue, PriceOf, EntryFor;
    PauseReads(s, on);
    var e := EntryFor(k, Realised(s, u, a), AssetOf(s, a).balance, amount);
    if e.Ok? {
      PauseTouchAndPost(s, u, a, e.value, on);
    }
  }

  lemma {:induction false} PauseBodies(k: Kind, s: State, u: Address, ops: seq<BatchOp>, on: bool)
    ensures Bodies(k, WithPause(s, on), u, ops) == PausedResult(Bodies(k, s, u, ops), on)
    ensures ValidateOps(WithPause(s, on), ops) == ValidateOps(s, ops)
  {
    hide Realised, Accrue, PriceOf, Body;
    if |ops| > 0 {
      var before, op := ops[..|ops| - 1], ops[|ops| - 1];
      PauseBodies(k, s, u, before, on);
      PauseReads(s, on);
      if Bodies(k, s, u, before).Ok? {
        var t := Bodies(k, s, u, before).value;
        PauseReads(t, on);
        PauseBody(k, Accrue(t, op.asset), u, op.asset, op.amount, on);
      }
    }
  }

  lemma PauseRepay(s: State, u: Address, a: Address, amount: int, on: bool)
    ensures Repay(WithPause(s, on), u, a, amount) == PausedResult(Repay(s, u, a, amount), on)
  {
    hide Realised, Accrue, PriceOf, Body;
    PauseReads(s, on);
    PauseBody(Repaying, Accrue(s, a), u, a, amount, on);
  }

  lemma PauseWithdraw(s: State, u: Address, a: Address, d: Address, amount: int, on: bool)
    ensures Withdraw(WithPause(s, on), u, a, d, amount) == PausedResult(Withdraw(s, u, a, d, amount), on)
  {
    hide Realised, Accrue, PriceOf, Touch, Post, CheckHealth;
    var t := Accrue(s, a);
    var p := Realised(t, u, a);
    var touched := Touch(t, u, a, p);
    PauseReads(s, on);
    PauseReads(t, on);
    PauseReads(touched, on);
    PauseWrites(t, u, a, p, WithdrawEntry(amount), on);
    PauseWrites(touched, u, a, p, WithdrawEntry(amount), on);
    PauseHealth(touched, u, d, 0, Cut(a, amount), on);
  }

  lemma PauseBatches(s: State, u: Address, d: Address, ops: seq<BatchOp>, on: bool)
    ensures RepayBatch(WithPause(s, on), u, ops) == PausedResult(RepayBatch(s, u, ops), on)
    ensures WithdrawBatch(WithPause(s, on), u, d, ops) == PausedResult(WithdrawBatch(s, u, d, ops), on)
  {
    hide Realised, Accrue, PriceOf, Bodies, AccrueAll, ValidateOps, CheckHealth, WeightedValue;
    PauseReads(s, on);
    PauseLists(s, u, UniqueAssets(ops), CollateralFactor, NoCut, on);
    PauseLists(s, u, AddAsset(UniqueAssets(ops), d), CollateralFactor, NoCut, on);
    PauseBodies(Repaying, AccrueAll(s, UniqueAssets(ops)), u, ops, on);
    var t := AccrueAll(s, AddAsset(UniqueAssets(ops), d));
    PauseBodies(Withdrawing, t, u, ops, on);
    if Bodies(Withdrawing, t, u, ops).Ok? {
      PauseHealth(Bodies(Withdrawing, t, u, ops).value, u, d, 0, NoCut, on);
    }
  }

  lemma PausePrepare(s: State, l: Address, u: Address, c: Address, d: Address, on: bool)
    ensures PrepareLiquidation(WithPause(s, on), l, u, c, d) == WithPause(PrepareLiquidation(s, l, u, c, d), on)
  {
    hide Realised, Accrue, PriceOf, Touch, Post;
    var e := WithdrawEntry(0);
    var t0 := Accrue(s, d);
    var t := Accrue(t0, c);
    PauseReads(s, on);
    PauseReads(t0, on);
    PauseReads(t, on);
    PauseWrites(t, u, d, Realised(t, u, d), e, on);
    var t1 := Touch(t, u, d, Realised(t, u, d));
    PauseWrites(t1, u, c, Realised(t, u, c), e, on);
    var t2 := Touch(t1, u, c, Realised(t, u, c));
    PauseReads(t2, on);
    PauseWrites(t2, l, c, Realised(t2, l, c), e, on);
  }

  lemma PauseSettle(s: State, l: Address, u: Address, c: Address, d: Address, repaid: int, seized: int, on: bool)
    ensures SettleLiquidation(WithPause(s, on), l, u, c, d, repaid, seized)
         == WithPause(SettleLiquidation(s, l, u, c, d, repaid, seized), on)
  {
    hide Realised, Accrue, PriceOf, Post, Stored;
    var e := Entry(0, -repaid, repaid, 0, 0);
    PauseReads(s, on);
    PauseWrites(s, u, d, Realised(s, u, d), e, on);
    var s1 := Post(s, u, d, Realised(s, u, d), e);
    var held := Realised(s, u, c);
    var s2 := PutPosition(s1, u, c, held.(deposited := held.deposited - seized));
    PauseReads(s2, on);
  }

  lemma PauseLiquidate(s: State, l: Address, u: Address, c: Address, d: Address, amount: int, on: bool)
    ensures Liquidate(WithPause(s, on), l, u, c, d, amount) == PausedResult(Liquidate(s, l, u, c, d, amount), on)
  {
    hide Realised, Accrue, PriceOf, PrepareLiquidation, SettleLiquidation, WeightedValue, AccrueAll, SeizeAmount;
    var t := PrepareLiquidation(s, l, u, c, d);
    PauseReads(s, on);
    PausePrepare(s, l, u, c, d, on);
    PauseReads(t, on);
    PauseLists(t, u, t.listed, LiquidationThreshold, NoCut, on);
    var quote := QuoteLiquidation(t, u, c, d, amount);
    if quote.Ok? {
      PauseSettle(t, l, u, c, d, quote.value.0, quote.value.1, on);
    }
  }

  lemma PauseRealize(s: State, u: Address, a: Address, on: bool)
    ensures var r := RealizeUnclaimed(s, u, a);
      RealizeUnclaimed(WithPause(s, on), u, a) == (WithPause(r.0, on), r.1)
  {
    hide Realised, Accrue, PriceOf, Touch, Post;
    PauseReads(s, on);
    PauseReads(Accrue(s, a), on);
    PauseWrites(Accrue(s, a), u, a, Realised(Accrue(s, a), u, a), WithdrawEntry(0), on);
  }

  lemma {:induction false} PauseRealizeAll(s: State, u: Address, list: seq<Address>, on: bool)
    ensures var r := RealizeAll(s, u, list);
      RealizeAll(WithPause(s, on), u, list) == (WithPause(r.0, on), r.1)
  {
    hide RealizeUnclaimed;
    if |list| > 0 {
      PauseRealizeAll(s, u, list[..|list| - 1], on);
      PauseRealize(RealizeAll(s, u, list[..|list| - 1]).0, u, list[|list| - 1], on);
    }
  }

  lemma PauseClaims(s: State, u: Address, a: Address, available: int, on: bool)
    ensures ClaimAsset(WithPause(s, on), u, a) == PausedResult(ClaimAsset(s, u, a), on)
    ensures ClaimAll(WithPause(s, on), u) == PausedResult(ClaimAll(s, u), on)
    ensures VestClaimable(WithPause(s, on), u, available) == PausedResult(VestClaimable(s, u, available), on)
  {
    hide RealizeUnclaimed, RealizeAll, TotalReleasable, Remaining;
    PauseRealize(s, u, a, on);
    PauseRealizeAll(s, u, s.listed, on);
  }

  /**
   * A pause leaves every way out as it was: repaying, withdrawing, liquidating and claiming give the same result,
   * error or effect, whether or not it is on.
   */
  lemma PauseSparesExits(s: State, call: Call, on: bool)
    requires RunsWhenPaused(call)
    ensures Invoke(WithPause(s, on), call) == PausedResult(Invoke(s, call), on)
  {
    hide Repay, Withdraw, RepayBatch, WithdrawBatch, Liquidate, ClaimAsset, ClaimAll, VestClaimable;
    match call {
      case DoRepay(u, a, amount) => PauseRepay(s, u, a, amount, on);
      case DoWithdraw(u, a, d, amount) => PauseWithdraw(s, u, a, d, amount, on);
      case DoRepayBatch(u, ops) => PauseBatches(s, u, Address(0), ops, on);
      case DoWithdrawBatch(u, d, ops) => PauseBatches(s, u, d, ops, on);
      case DoLiquidate(l, u, c, d, amount) => PauseLiquidate(s, l, u, c, d, amount, on);
      case DoClaimAsset(u, a) => PauseClaims(s, u, a, 0, on);
      case DoClaimAll(u) => PauseClaims(s, u, Address(0), 0, on);
      case DoVestClaimable(u, available) => PauseClaims(s, u, Address(0), available, on);
      case Wait(_) =>
    }
  }

  /** And it stops every way in, and every setting that governance does not apply. */
  lemma PauseStopsEntries(s: State, call: Call)
    requires s.paused
    ensures StopsWhenPaused(call) ==> Invoke(s, call).Err?
    ensures Invoke(s, call).Ok? ==> RunsWhenPaused(call) || call.DoUnpause? || call.DoAction?
  {
    hide AccrueAll, Accrue, AdvanceRewards, ApplyAction, Liquidate, RealizeUnclaimed, RealizeAll, TotalReleasable;
  }

  // ---------------------------------------------------------------- settings take effect

  /** A pause by governance, or its end, holds from the next call on. */
  lemma PauseTakesEffect(s: State, host: Host, call: Call)
    ensures ApplyAction(s, SetPaused(true), host).Ok?
    ensures StopsWhenPaused(call) ==> Invoke(ApplyAction(s, SetPaused(true), host).value, call).Err?
    ensures Invoke(s, DoUnpause) == Ok(WithPause(s, false)) == ApplyAction(s, SetPaused(false), host)
  {
    hide Invoke;
    PauseStopsEntries(ApplyAction(s, SetPaused(true), host).value, call);
    UnpauseEnds(s);
  }

  lemma UnpauseEnds(s: State)
    ensures Invoke(s, DoUnpause) == Ok(WithPause(s, false))
  {
  }

  lemma DepositCapped(s: State, u: Address, a: Address, amount: int)
    requires Deposit(s, u, a, amount).Ok?
    ensures var r, q := AssetOf(s, a), AssetOf(Deposit(s, u, a, amount).value, a);
      && (r.depositCap == -1 || q.totalDeposited <= r.depositCap)
      && (r.supplyCap == 0 || q.totalDeposited <= r.supplyCap)
  {
    hide Accrue, TouchAndPost;
    AccrueKeepsCaps(s, a);
    TouchAndPostTotals(Accrue(s, a), u, a, DepositEntry(amount));
  }

  lemma AccrueKeepsCaps(s: State, a: Address)
    ensures SameTerms(AssetOf(s, a), AssetOf(Accrue(s, a), a))
  {
    hide AccrueAsset;
    AccrueAssetFacts(AssetOf(s, a), s.now);
  }

  lemma BorrowCapped(s: State, u: Address, a: Address, collateral: Address, amount: int)
    requires Borrow(s, u, a, collateral, amount).Ok?
    ensures var r, q := AssetOf(s, a), AssetOf(Borrow(s, u, a, collateral, amount).value, a);
      && (r.borrowCap == -1 || q.totalBorrowed <= r.borrowCap)
      && (r.aggregateBorrowCap == 0 || q.totalBorrowed <= r.aggregateBorrowCap)
  {
    hide Accrue, Realised, Touch, CheckHealth;
    AccrueKeepsCaps(s, a);
    TouchKeepsTotals(Accrue(s, a), u, a, Realised(Accrue(s, a), u, a));
  }

  lemma TouchKeepsTotals(s: State, u: Address, a: Address, p: Position)
    ensures AssetOf(Touch(s, u, a, p), a).totalBorrowed == AssetOf(s, a).totalBorrowed
  {
    hide ComputeIndexAdvance, AccrueFromIndexes;
  }

  /** A cap, of either kind and by either route, binds the totals after a deposit or a borrow at any later time. */
  lemma CapsTakeEffect(s: State, a: Address, cap: int, host: Host, later: nat, u: Address, collateral: Address, amount: int)
    requires cap > 0
    ensures forall supply | SetAggregateCap(s, a, supply, cap).Ok? ::
      var t := After(SetAggregateCap(s, a, supply, cap).value, Wait(later));
      if supply then
        Deposit(t, u, a, amount).Ok? ==> AssetOf(Deposit(t, u, a, amount).value, a).totalDeposited <= cap
      else
        Borrow(t, u, a, collateral, amount).Ok? ==> AssetOf(Borrow(t, u, a, collateral, amount).value, a).totalBorrowed <= cap
    ensures ApplyAction(s, UpdateAssetCaps(a, cap, cap), host).Ok? ==>
      var t := After(ApplyAction(s, UpdateAssetCaps(a, cap, cap), host).value, Wait(later));
      && AssetOf(t, a).totalDeposited <= cap && AssetOf(t, a).totalBorrowed <= cap
      && (Deposit(t, u, a, amount).Ok? ==> AssetOf(Deposit(t, u, a, amount).value, a).totalDeposited <= cap)
      && (Borrow(t, u, a, collateral, amount).Ok? ==>
            AssetOf(Borrow(t, u, a, collateral, amount).value, a).totalBorrowed <= cap)
  {
    hide Deposit, Borrow;
    forall t: State
      ensures Deposit(t, u, a, amount).Ok? ==>
        var q := AssetOf(Deposit(t, u, a, amount).value, a);
        && (AssetOf(t, a).depositCap == -1 || q.totalDeposited <= AssetOf(t, a).depositCap)
        && (AssetOf(t, a).supplyCap == 0 || q.totalDeposited <= AssetOf(t, a).supplyCap)
      ensures Borrow(t, u, a, collateral, amount).Ok? ==>
        var q := AssetOf(Borrow(t, u, a, collateral, amount).value, a);
        && (AssetOf(t, a).borrowCap == -1 || q.totalBorrowed <= AssetOf(t, a).borrowCap)
        && (AssetOf(t, a).aggregateBorrowCap == 0 || q.totalBorrowed <= AssetOf(t, a).aggregateBorrowCap)
    {
      if Deposit(t, u, a, amount).Ok? { DepositCapped(t, u, a, amount); }
      if Borrow(t, u, a, collateral, amount).Ok? { BorrowCapped(t, u, a, collateral, amount); }
    }
  }

  /** A vesting claim pays something, and no more than the contract holds. */
  lemma VestPaysWithin(s: State, u: Address, available: int)
    requires VestClaimable(s, u, available).Ok?
    ensures var t := VestClaimable(s, u, available).value;
      t.paidTotal - s.paidTotal <= available && t.paidTotal != s.paidTotal
  {
    hide TotalReleasable, Remaining;
  }
}
