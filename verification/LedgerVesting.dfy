/**
 * Vesting in the ledger: every user's grants and payouts follow a vesting account of their own, whatever the
 * other users, the interest rates and the rest of the contract do in between.
 */
module LedgerVesting {
  import opened Prelude
  import opened Interest
  import Vesting
  import opened Ledger
  import opened Invariants

  /** What a call means for one user's vesting account, if anything. */
  function EventOf(s: State, call: Call, u: Address): Option<Vesting.Event> {
    if Invoke(s, call).Err? then None
    else
      match call
      case DoClaimAsset(v, a) =>
        if v == u then Some(Vesting.Push(s.now, RealizeUnclaimed(s, u, a).1, s.vestCliff, s.vestDuration)) else None
      case DoClaimAll(v) =>
        if v == u then Some(Vesting.Push(s.now, RealizeAll(s, u, s.listed).1, s.vestCliff, s.vestDuration)) else None
      case DoVestClaimable(v, _) => if v == u then Some(Vesting.Claim(s.now)) else None
      case _ => None
  }

  function EventsOf(s: State, calls: seq<Call>, u: Address): seq<Vesting.Event> {
    if |calls| == 0 then []
    else
      var event := EventOf(Run(s, calls[..|calls| - 1]), calls[|calls| - 1], u);
      EventsOf(s, calls[..|calls| - 1], u) + if event.Some? then [event.value] else []
  }

  /** The reward tokens that a call transfers to a user. */
  function Payout(s: State, call: Call, u: Address): int {
    if call.DoVestClaimable? && call.user == u && Invoke(s, call).Ok? then Vesting.TotalReleasable(GrantsOf(s, u), s.now)
    else 0
  }

  function PaidTo(s: State, calls: seq<Call>, u: Address): int {
    if |calls| == 0 then 0
    else PaidTo(s, calls[..|calls| - 1], u) + Payout(Run(s, calls[..|calls| - 1]), calls[|calls| - 1], u)
  }

  // ---------------------------------------------------------------- who touches grants

  predicate SameGrants(s: State, t: State) {
    t.grants == s.grants && t.now == s.now && t.vestCliff == s.vestCliff && t.vestDuration == s.vestDuration
  }

  lemma BlocksKeepGrants(s: State, u: Address, a: Address, p: Position, e: Entry)
    ensures SameGrants(s, Accrue(s, a)) && SameGrants(s, Touch(s, u, a, p)) && SameGrants(s, Post(s, u, a, p, e))
    ensures SameGrants(s, TouchAndPost(s, u, a, e)) && SameGrants(s, PutPosition(s, u, a, p))
  {
    hide Realised, AccrueAsset, AdvanceRewards;
  }

  lemma {:induction false} BodiesKeepGrants(k: Kind, s: State, u: Address, ops: seq<BatchOp>)
    requires Bodies(k, s, u, ops).Ok?
    ensures SameGrants(s, Bodies(k, s, u, ops).value)
  {
    hide Accrue, TouchAndPost, Realised, EntryFor;
    if |ops| > 0 {
      var t, op := Bodies(k, s, u, ops[..|ops| - 1]).value, ops[|ops| - 1];
      BodiesKeepGrants(k, s, u, ops[..|ops| - 1]);
      var r := Accrue(t, op.asset);
      var e := EntryFor(k, Realised(r, u, op.asset), AssetOf(r, op.asset).balance, op.amount).value;
      BlocksKeepGrants(t, u, op.asset, NO_POSITION, e);
      BlocksKeepGrants(r, u, op.asset, NO_POSITION, e);
    }
  }

  lemma {:induction false} AccrueAllKeepsGrants(s: State, list: seq<Address>)
    ensures SameGrants(s, AccrueAll(s, list))
  {
    hide Accrue;
    if |list| > 0 {
      AccrueAllKeepsGrants(s, list[..|list| - 1]);
      BlocksKeepGrants(AccrueAll(s, list[..|list| - 1]), list[|list| - 1], list[|list| - 1], NO_POSITION, DepositEntry(0));
    }
  }

  lemma {:induction false} UncollateralisedKeepsGrants(s: State, u: Address, list: seq<Address>)
    requires AccrueUncollateralised(s, u, list).Ok?
    ensures SameGrants(s, AccrueUncollateralised(s, u, list).value)
  {
    hide Accrue, Realised;
    if |list| > 0 {
      UncollateralisedKeepsGrants(s, u, list[..|list| - 1]);
      BlocksKeepGrants(AccrueUncollateralised(s, u, list[..|list| - 1]).value, u, list[|list| - 1], NO_POSITION, DepositEntry(0));
    }
  }

  lemma RealizeKeepsGrants(s: State, u: Address, a: Address)
    ensures SameGrants(s, RealizeUnclaimed(s, u, a).0)
  {
    hide Accrue, Touch, Realised;
    var t := Accrue(s, a);
    BlocksKeepGrants(s, u, a, NO_POSITION, DepositEntry(0));
    BlocksKeepGrants(t, u, a, Realised(t, u, a), DepositEntry(0));
  }

  lemma {:induction false} RealizeAllKeepsGrants(s: State, u: Address, list: seq<Address>)
    ensures SameGrants(s, RealizeAll(s, u, list).0)
  {
    hide RealizeUnclaimed;
    if |list| > 0 {
      RealizeAllKeepsGrants(s, u, list[..|list| - 1]);
      RealizeKeepsGrants(RealizeAll(s, u, list[..|list| - 1]).0, u, list[|list| - 1]);
    }
  }

  lemma SingleKeepsGrants(k: Kind, s: State, u: Address, a: Address, partner: Address, amount: int)
    requires Invoke(s, SingleCall(k, u, a, partner, amount)).Ok?
    ensures SameGrants(s, Invoke(s, SingleCall(k, u, a, partner, amount)).value)
  {
    hide Invoke, Accrue, TouchAndPost, Realised, EntryFor;
    SingleForm(k, s, u, a, partner, amount);
    var r := Accrue(s, a);
    var e := EntryFor(k, Realised(r, u, a), AssetOf(r, a).balance, amount).value;
    BlocksKeepGrants(s, u, a, NO_POSITION, e);
    BlocksKeepGrants(r, u, a, NO_POSITION, e);
  }

  lemma BatchKeepsGrants(k: Kind, s: State, u: Address, list: seq<Address>, ops: seq<BatchOp>)
    requires Bodies(k, AccrueAll(s, list), u, ops).Ok?
    ensures SameGrants(s, Bodies(k, AccrueAll(s, list), u, ops).value)
  {
    hide Bodies, AccrueAll;
    AccrueAllKeepsGrants(s, list);
    BodiesKeepGrants(k, AccrueAll(s, list), u, ops);
  }

  lemma LiquidateKeepsGrants(s: State, l: Address, u: Address, c: Address, d: Address, amount: int)
    requires Liquidate(s, l, u, c, d, amount).Ok?
    ensures SameGrants(s, Liquidate(s, l, u, c, d, amount).value)
  {
    hide Accrue, Touch, Post, PutPosition, Realised, QuoteLiquidation;
    var t0, t := Accrue(s, d), Accrue(Accrue(s, d), c);
    BlocksKeepGrants(s, u, d, NO_POSITION, DepositEntry(0));
    BlocksKeepGrants(t0, u, c, NO_POSITION, DepositEntry(0));
    var t1 := Touch(t, u, d, Realised(t, u, d));
    BlocksKeepGrants(t, u, d, Realised(t, u, d), DepositEntry(0));
    var t2 := Touch(t1, u, c, Realised(t, u, c));
    BlocksKeepGrants(t1, u, c, Realised(t, u, c), DepositEntry(0));
    var r := Touch(t2, l, c, Realised(t2, l, c));
    BlocksKeepGrants(t2, l, c, Realised(t2, l, c), DepositEntry(0));
    var (repaid, seized) := QuoteLiquidation(r, u, c, d, amount).value;
    SettleKeepsGrants(r, l, u, c, d, repaid, seized);
  }

  lemma SettleKeepsGrants(s: State, l: Address, u: Address, c: Address, d: Address, repaid: int, seized: int)
    ensures SameGrants(s, SettleLiquidation(s, l, u, c, d, repaid, seized))
  {
    hide Post, PutPosition, Realised;
    var debt, held := Realised(s, u, d), Realised(s, u, c);
    var s1 := Post(s, u, d, debt, Entry(0, -repaid, repaid, 0, 0));
    BlocksKeepGrants(s, u, d, debt, Entry(0, -repaid, repaid, 0, 0));
    var q := held.(deposited := held.deposited - seized);
    BlocksKeepGrants(s1, u, c, q, DepositEntry(0));
    var s2 := PutPosition(s1, u, c, q);
    var gained := Realised(s2, l, c);
    BlocksKeepGrants(s2, l, c, gained.(deposited := gained.deposited + seized), DepositEntry(0));
  }

  lemma WriteoffKeepsGrants(s: State, u: Address, d: Address)
    requires WriteoffBadDebt(s, u, d).Ok?
    ensures SameGrants(s, WriteoffBadDebt(s, u, d).value)
  {
    hide Accrue, Realised, Post, AccrueUncollateralised;
    var t := Accrue(s, d);
    var debt := Realised(t, u, d);
    BlocksKeepGrants(s, u, d, debt, DepositEntry(0));
    if debt.borrowed != 0 {
      UncollateralisedKeepsGrants(t, u, s.listed);
      BlocksKeepGrants(AccrueUncollateralised(t, u, s.listed).value, u, d, debt,
        Entry(0, -debt.borrowed, 0, 0, debt.borrowed));
    }
  }

  lemma FeesKeepGrants(s: State, a: Address, amount: int)
    ensures RecordProtocolFee(s, a, amount).Ok? ==> SameGrants(s, RecordProtocolFee(s, a, amount).value)
    ensures WithdrawReserves(s, a, amount).Ok? ==> SameGrants(s, WithdrawReserves(s, a, amount).value)
  {
    hide AccrueAsset;
  }

  lemma ActionKeepsGrants(s: State, payload: ActionPayload, host: Host)
    requires ApplyAction(s, payload, host).Ok?
    ensures SameGrants(s, ApplyAction(s, payload, host).value)
  {
    hide RecordProtocolFee, WithdrawReserves, ValidatePayload, Without, AddAsset, AssetOf;
    match payload {
      case RecordFee(a, amount) => FeesKeepGrants(s, a, amount);
      case WithdrawFees(a, _, amount) => FeesKeepGrants(s, a, amount);
      case _ =>
    }
  }

  lemma FlashLoanKeepsGrants(s: State, a: Address, amount: int, ok: bool)
    requires FlashLoan(s, a, amount, ok).Ok?
    ensures SameGrants(s, FlashLoan(s, a, amount, ok).value)
  {
    hide AccrueAsset, PremiumRoundedUp;
  }

  lemma SettingsKeepGrants(s: State, call: Call)
    requires Invoke(s, call).Ok?
    requires call.DoSetLiquidationParams? || call.DoSetAggregateCap? || call.DoConfigureFlashLoan? || call.DoSetOraclePrice?
          || call.DoSetOracleBounds? || call.DoSetOracleMaxChange? || call.DoSetMaxOracleAge? || call.DoSetMaxProtocolFee?
          || call.DoUnpause? || call.DoSetRewardSpeeds? || call.DoAccrueInterest? || call.DoSetInterestParams?
          || call.DoSetVestingParams?
    ensures var t := Invoke(s, call).value;
      t.grants == s.grants && t.now == s.now
  {
    hide AccrueAsset, AdvanceRewards, AssetOf;
  }

  /** Only claims and vesting payouts touch grants, and then only the caller's; no call turns back the clock. */
  lemma OtherCallsKeepGrants(s: State, call: Call)
    requires Invoke(s, call).Ok? && !call.DoClaimAsset? && !call.DoClaimAll? && !call.DoVestClaimable?
    ensures Invoke(s, call).value.grants == s.grants && s.now <= Invoke(s, call).value.now
  {
    hide Accrue, Touch, Post, Realised, CheckHealth, CheckSupplyCaps, CheckBorrowCaps, Liquidate, WriteoffBadDebt;
    hide FlashLoan, ApplyAction, Bodies, AccrueAll, ValidateOps, UniqueAssets, Deposit, Borrow, Repay, Withdraw;
    match call {
      case Wait(_) =>
      case DoDeposit(u, a, amount) => SingleKeepsGrants(Supplying, s, u, a, a, amount);
      case DoBorrow(u, a, collateral, amount) => SingleKeepsGrants(Borrowing, s, u, a, collateral, amount);
      case DoRepay(u, a, amount) => SingleKeepsGrants(Repaying, s, u, a, a, amount);
      case DoWithdraw(u, a, debtAsset, amount) => SingleKeepsGrants(Withdrawing, s, u, a, debtAsset, amount);
      case DoDepositBatch(u, ops) => BatchKeepsGrants(Supplying, s, u, UniqueAssets(ops), ops);
      case DoBorrowBatch(u, c, ops) => BatchKeepsGrants(Borrowing, s, u, AddAsset(UniqueAssets(ops), c), ops);
      case DoRepayBatch(u, ops) => BatchKeepsGrants(Repaying, s, u, UniqueAssets(ops), ops);
      case DoWithdrawBatch(u, d, ops) => BatchKeepsGrants(Withdrawing, s, u, AddAsset(UniqueAssets(ops), d), ops);
      case DoLiquidate(l, u, c, d, amount) => LiquidateKeepsGrants(s, l, u, c, d, amount);
      case DoWriteoff(u, d) => WriteoffKeepsGrants(s, u, d);
      case DoFlashLoan(a, amount, ok) => FlashLoanKeepsGrants(s, a, amount, ok);
      case DoAction(payload, host) => ActionKeepsGrants(s, payload, host);
      case _ => SettingsKeepGrants(s, call);
    }
  }

  // ---------------------------------------------------------------- the user's account

  /** One call, seen by one user's vesting account. */
  lemma CallFollowsEvent(s: State, call: Call, u: Address, paid: int)
    requires Sound(s)
    ensures var t := After(s, call);
      var event := EventOf(s, call, u);
      var acc := Vesting.VestingAccount(GrantsOf(s, u), paid);
      && s.now <= t.now
      && (event.Some? ==> event.value.at == s.now && (event.value.Push? ==> event.value.amount > 0))
      && Vesting.VestingAccount(GrantsOf(t, u), paid + Payout(s, call, u))
           == if event.Some? then Vesting.Step(acc, event.value) else acc
  {
    hide Sound, RealizeUnclaimed, RealizeAll, Vesting.TotalReleasable, Vesting.Remaining;
    if Invoke(s, call).Ok? {
      match call {
        case DoClaimAsset(v, a) =>
          RealizeUnclaimedSound(s, v, a);
          RealizeKeepsGrants(s, v, a);
        case DoClaimAll(v) =>
          RealizeAllSound(s, v, s.listed);
          RealizeAllKeepsGrants(s, v, s.listed);
        case DoVestClaimable(v, _) =>
        case _ =>
          hide Invoke;
          OtherCallsKeepGrants(s, call);
      }
    }
  }

  /** In every run, a user's grants and payouts are those of a vesting account fed with the user's own claims. */
  lemma {:induction false} GrantsFollowEvents(minRatioBps: nat, start: nat, calls: seq<Call>, u: Address)
    requires minRatioBps >= 10_000
    ensures var s0 := Initial(minRatioBps, start);
      var s, events := Run(s0, calls), EventsOf(s0, calls, u);
      && Vesting.Chronological(events) && Vesting.LastAt(events) <= s.now
      && Vesting.Run(events) == Vesting.VestingAccount(GrantsOf(s, u), PaidTo(s0, calls, u))
  {
    hide EventOf, Payout, After, Sound, Initial, Vesting.Step, Vesting.Chronological, Vesting.LastAt, Vesting.Run;
    var s0 := Initial(minRatioBps, start);
    if |calls| == 0 {
      NothingHappened(minRatioBps, start, u);
    } else {
      var before, call := calls[..|calls| - 1], calls[|calls| - 1];
      GrantsFollowEvents(minRatioBps, start, before, u);
      EveryRunIsSound(minRatioBps, start, before);
      CallFollowsEvent(Run(s0, before), call, u, PaidTo(s0, before, u));
      var events, event := EventsOf(s0, before, u), EventOf(Run(s0, before), call, u);
      if event.Some? {
        EventAppended(events, event.value);
      } else {
        assert events + [] == events;
      }
    }
  }

  lemma EventAppended(events: seq<Vesting.Event>, e: Vesting.Event)
    requires Vesting.Chronological(events) && Vesting.LastAt(events) <= e.at && (e.Push? ==> e.amount > 0)
    ensures Vesting.Chronological(events + [e]) && Vesting.LastAt(events + [e]) == e.at
    ensures Vesting.Run(events + [e]) == Vesting.Step(Vesting.Run(events), e)
  {
    hide Vesting.Step;
    assert (events + [e])[..|events|] == events;
  }

  lemma NothingHappened(minRatioBps: nat, start: nat, u: Address)
    ensures var s0 := Initial(minRatioBps, start);
      && Vesting.Chronological([]) && Vesting.LastAt([]) == 0
      && Vesting.Run([]) == Vesting.VestingAccount(GrantsOf(s0, u), 0)
  {
  }

  /**
   * Schedule independence in the ledger: right after a successful vesting claim, in any run, the user has
   * been paid exactly what all grants ever pushed for them had vested by then, and keeps exactly the grants
   * that are not fully paid.
   */
  lemma PaidWhatVested(minRatioBps: nat, start: nat, calls: seq<Call>, u: Address)
    requires minRatioBps >= 10_000 && |calls| > 0
    requires var s := Run(Initial(minRatioBps, start), calls[..|calls| - 1]);
      EventOf(s, calls[|calls| - 1], u) == Some(Vesting.Claim(s.now))
    ensures var s0 := Initial(minRatioBps, start);
      var now := Run(s0, calls[..|calls| - 1]).now;
      var pushed := Vesting.Pushed(EventsOf(s0, calls, u));
      && PaidTo(s0, calls, u) == Vesting.TotalVested(pushed, now)
      && GrantsOf(Run(s0, calls), u) == Vesting.Unfinished(Vesting.SettleAll(pushed, now))
  {
    hide EventOf, Run, PaidTo, Vesting.Run, Vesting.Pushed, Vesting.Chronological;
    GrantsFollowEvents(minRatioBps, start, calls, u);
    Vesting.ScheduleIndependence(EventsOf(Initial(minRatioBps, start), calls, u));
  }

  /**
   * The same against the schedule: right after a successful claim, at most one unit per grant separates what
   * the user has been paid from what the cliffs and linear releases of all their grants make due.
   */
  lemma PaidBySchedule(minRatioBps: nat, start: nat, calls: seq<Call>, u: Address)
    requires minRatioBps >= 10_000 && |calls| > 0
    requires var s := Run(Initial(minRatioBps, start), calls[..|calls| - 1]);
      EventOf(s, calls[|calls| - 1], u) == Some(Vesting.Claim(s.now))
    ensures var s0 := Initial(minRatioBps, start);
      var now := Run(s0, calls[..|calls| - 1]).now;
      var pushed := Vesting.Pushed(EventsOf(s0, calls, u));
      var due := Vesting.TotalScheduled(pushed, now);
      && due - |pushed| as real <= PaidTo(s0, calls, u) as real <= due
      && (|pushed| > 0 ==> due - |pushed| as real < PaidTo(s0, calls, u) as real)
  {
    hide EventOf, EventsOf, Run, PaidTo, Vesting.Pushed, Vesting.TotalScheduled, Vesting.TotalVested;
    PaidWhatVested(minRatioBps, start, calls, u);
    var s0 := Initial(minRatioBps, start);
    Vesting.TotalVestedIsScheduled(Vesting.Pushed(EventsOf(s0, calls, u)), Run(s0, calls[..|calls| - 1]).now);
  }
}
