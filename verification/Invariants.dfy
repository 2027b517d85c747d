/**
 * What every call keeps: non-negative balances anchored below the live indexes, ordered risk parameters,
 * oracle rails, a duplicate-free asset list, and the two conservation identities of each asset.
 */
module Invariants {
  import opened Prelude
  import opened Arith
  import opened Interest
  import opened Rewards
  import Oracle
  import opened Ledger

  function SupplyIndex(r: Asset): int {
    if r.interest.Some? then r.interest.value.supplyIndex else RATE_SCALE
  }

  function BorrowIndex(r: Asset): int {
    if r.interest.Some? then r.interest.value.borrowIndex else RATE_SCALE
  }

  function SupplyRewardIndex(r: Asset): int {
    if r.rewards.Some? then r.rewards.value.supplyIndex else 0
  }

  function BorrowRewardIndex(r: Asset): int {
    if r.rewards.Some? then r.rewards.value.borrowIndex else 0
  }

  /**
   * The ledger identity: tokens held plus tokens lent out minus what depositors are owed is exactly what the
   * accruals left behind, plus fees recorded, minus fees withdrawn, minus repayment dust and write-offs.
   */
  predicate Balanced(r: Asset) {
    r.balance + r.totalBorrowed - r.totalDeposited
      == r.book.backing + r.book.toBorrowers - r.book.toSuppliers
         + r.book.feesRecorded - r.book.feesWithdrawn - r.book.repayDust - r.book.writtenOff
  }

  /** Withdrawable protocol fees are everything ever earned minus everything ever withdrawn. */
  predicate FeesAccounted(r: Asset) {
    r.fees == r.lifetimeFees + r.book.feesRecorded + r.book.premiums - r.book.feesWithdrawn
  }

  predicate RewardsSound(r: AssetRewards, now: nat) {
    && r.supplyIndex >= 0 && r.borrowIndex >= 0
    && r.supplySpeed >= 0 && r.borrowSpeed >= 0
    && r.lastTs <= now
  }

  predicate AssetSound(r: Asset, now: nat) {
    && SupplyIndex(r) >= RATE_SCALE && BorrowIndex(r) >= RATE_SCALE
    && (r.interest.Some? ==> r.interest.value.lastAccrual <= now)
    && (r.params.Some? ==> r.params.value.Valid())
    && (r.rewards.Some? ==> RewardsSound(r.rewards.value, now))
    && (r.risk.Some? ==> CheckRisk(r.risk.value).Pass?)
    && Oracle.OnRails(r.oracle)
    && r.fees >= 0 && r.book.premiums >= 0
    && Balanced(r) && FeesAccounted(r)
  }

  predicate PositionSound(p: Position, r: Asset) {
    && p.deposited >= 0 && p.borrowed >= 0
    && RATE_SCALE <= p.supplySnapshot <= SupplyIndex(r)
    && RATE_SCALE <= p.borrowSnapshot <= BorrowIndex(r)
  }

  predicate CountersSound(c: UserRewards, r: Asset) {
    && 0 <= c.supplySnapshot <= SupplyRewardIndex(r) && 0 <= c.borrowSnapshot <= BorrowRewardIndex(r)
    && c.unclaimedSupply >= 0 && c.unclaimedBorrow >= 0
  }

  predicate AccountSound(c: Account, r: Asset) {
    PositionSound(c.pos, r) && CountersSound(c.rew, r)
  }

  predicate NoDuplicates(list: seq<Address>) {
    forall i, j | 0 <= i < j < |list| :: list[i] != list[j]
  }

  predicate ListSound(s: State) {
    && NoDuplicates(s.listed)
    && (forall a | a in s.listed :: AssetOf(s, a).supported)
    && (forall a | a in s.assets :: s.assets[a].supported ==> a in s.listed)
  }

  predicate Sound(s: State) {
    && (forall a | a in s.assets :: AssetSound(s.assets[a], s.now))
    && (forall k | k in s.accounts :: AccountSound(s.accounts[k], AssetOf(s, k.1)))
    && ListSound(s)
    && s.minRatioBps >= 10_000 && s.discountBps <= 10_000 && s.closeFactorBps <= 10_000
  }

  // ---------------------------------------------------------------- record-level facts

  predicate Fresh(r: Asset, now: nat) {
    r.interest.Some? && now <= r.interest.value.lastAccrual
  }

  /** No index of the asset went down. */
  predicate Grows(r: Asset, q: Asset) {
    && SupplyIndex(r) <= SupplyIndex(q) && BorrowIndex(r) <= BorrowIndex(q)
    && SupplyRewardIndex(r) <= SupplyRewardIndex(q) && BorrowRewardIndex(r) <= BorrowRewardIndex(q)
  }

  /** What accrual leaves alone: everything but interest, totals, reserve and book. */
  predicate SameTerms(r: Asset, q: Asset) {
    && r.supported == q.supported && r.params == q.params && r.oracle == q.oracle && r.risk == q.risk
    && r.flash == q.flash && r.depositCap == q.depositCap && r.borrowCap == q.borrowCap
    && r.supplyCap == q.supplyCap && r.aggregateBorrowCap == q.aggregateBorrowCap
  }

  /** Accrual persists what simulation shows, once per ledger time. */
  lemma AccrueAssetFacts(r: Asset, now: nat)
    ensures var q := AccrueAsset(r, now);
      && Fresh(q, now) && SameTerms(r, q) && q.rewards == r.rewards
      && Simulate(q, now) == Simulate(r, now) == InterestOf(q, now) == q.interest.value
      && AccrueAsset(q, now) == q
      && (Fresh(r, now) ==> q == r)
  {
  }

  /** Identities only see the money, not the settings. */
  lemma SameMoney(r: Asset, q: Asset)
    requires r.balance == q.balance && r.totalDeposited == q.totalDeposited && r.totalBorrowed == q.totalBorrowed
    requires r.fees == q.fees && r.lifetimeFees == q.lifetimeFees && r.book == q.book
    ensures Balanced(r) == Balanced(q) && FeesAccounted(r) == FeesAccounted(q)
  {
  }

  /** The tokens an entry moves in or out match the claims it creates or removes. */
  predicate EntryBalanced(e: Entry) {
    e.balance + e.borrowed - e.deposited == -e.dust - e.writtenOff
  }

  function PostAsset(r: Asset, e: Entry): Asset {
    r.(totalDeposited := r.totalDeposited + e.deposited,
       totalBorrowed := r.totalBorrowed + e.borrowed,
       balance := r.balance + e.balance,
       book := r.book.(repayDust := r.book.repayDust + e.dust, writtenOff := r.book.writtenOff + e.writtenOff))
  }

  lemma PostAssetSound(r: Asset, now: nat, e: Entry)
    requires AssetSound(r, now) && EntryBalanced(e)
    ensures AssetSound(PostAsset(r, e), now) && Grows(r, PostAsset(r, e))
  {
  }

  lemma RecordFeeAssetSound(r: Asset, now: nat, amount: int)
    requires AssetSound(r, now) && amount > 0
    ensures var q := r.(balance := r.balance + amount, fees := r.fees + amount,
                        book := r.book.(feesRecorded := r.book.feesRecorded + amount));
      AssetSound(q, now) && Grows(r, q)
  {
  }

  lemma WithdrawFeeAssetSound(r: Asset, now: nat, amount: int)
    requires AssetSound(r, now) && amount <= r.fees
    ensures var q := r.(balance := r.balance - amount, fees := r.fees - amount,
                        book := r.book.(feesWithdrawn := r.book.feesWithdrawn + amount));
      AssetSound(q, now) && Grows(r, q)
  {
  }

  lemma FlashAssetSound(r: Asset, now: nat, amount: int, premium: nat)
    requires AssetSound(r, now)
    ensures var q := r.(balance := r.balance - amount + (amount + premium), fees := r.fees + premium,
                        totalDeposited := r.totalDeposited - amount + (amount + premium),
                        book := r.book.(premiums := r.book.premiums + premium));
      AssetSound(q, now) && Grows(r, q)
  {
  }

  lemma CreditedSound(r: Asset, now: nat, rew: UserRewards)
    requires AssetSound(r, now)
    ensures AssetSound(Credited(r, rew), now) && Grows(r, Credited(r, rew))
  {
  }

  lemma AssetOfSound(s: State, a: Address)
    requires Sound(s)
    ensures AssetSound(AssetOf(s, a), s.now)
  {
  }

  lemma AccountOfSound(s: State, u: Address, a: Address)
    requires Sound(s)
    ensures AccountSound(AccountOf(s, u, a), AssetOf(s, a))
  {
    hide Balanced, FeesAccounted;
    AssetOfSound(s, a);
    if (u, a) in s.accounts {
      var k := (u, a);
      assert AccountSound(s.accounts[k], AssetOf(s, k.1));
    }
  }

  lemma AccrueAssetSound(r: Asset, now: nat)
    requires AssetSound(r, now)
    ensures AssetSound(AccrueAsset(r, now), now) && Grows(r, AccrueAsset(r, now))
    ensures SupplyIndex(r) <= Simulate(r, now).supplyIndex && BorrowIndex(r) <= Simulate(r, now).borrowIndex
  {
    AccrueAssetFacts(r, now);
    IndexesNeverFall(InterestOf(r, now), r.Params(), r.totalDeposited, r.totalBorrowed, now);
  }

  lemma AdvanceRewardsSound(r: Asset, now: nat)
    requires AssetSound(r, now)
    ensures var q := AdvanceRewards(r, now);
      && AssetSound(q, now) && Grows(r, q) && q.rewards.Some? && q.rewards.value.lastTs == now
      && q == r.(rewards := q.rewards, book := q.book)
      && (r.rewards.Some? && r.rewards.value.lastTs == now ==> q == r)
  {
    var st := r.rewards.GetOr(AssetRewards(0, 0, 0, 0, now));
    if st.lastTs < now {
      IndexDeltaNonNeg(st.supplySpeed, now - st.lastTs, r.totalDeposited);
      IndexDeltaNonNeg(st.borrowSpeed, now - st.lastTs, r.totalBorrowed);
    }
  }

  lemma IndexDeltaNonNeg(speed: int, elapsed: nat, total: int)
    requires 0 <= speed
    ensures 0 <= IndexDelta(speed, elapsed, total)
  {
    AdvanceWithinEmission(speed, elapsed, Max(total, 0), 0);
  }

  // ---------------------------------------------------------------- state-level building blocks

  lemma PutAssetSound(s: State, a: Address, q: Asset)
    requires Sound(s) && AssetSound(q, s.now) && Grows(AssetOf(s, a), q)
    requires q.supported == AssetOf(s, a).supported
    ensures Sound(PutAsset(s, a, q))
  {
    hide Balanced, FeesAccounted;
    var t := PutAsset(s, a, q);
    forall k | k in t.accounts
      ensures AccountSound(t.accounts[k], AssetOf(t, k.1))
    {
      assert AccountSound(s.accounts[k], AssetOf(s, k.1));
    }
  }

  lemma PutAccountSound(s: State, u: Address, a: Address, c: Account)
    requires Sound(s) && AccountSound(c, AssetOf(s, a))
    ensures Sound(PutAccount(s, u, a, c))
  {
    hide Balanced, FeesAccounted;
    var t := PutAccount(s, u, a, c);
    forall k | k in t.accounts
      ensures AccountSound(t.accounts[k], AssetOf(t, k.1))
    {
      if k != (u, a) {
        assert AccountSound(s.accounts[k], AssetOf(s, k.1));
      }
    }
  }

  lemma AccrueSound(s: State, a: Address)
    requires Sound(s)
    ensures Sound(Accrue(s, a)) && Fresh(AssetOf(Accrue(s, a), a), s.now) && Accrue(s, a).now == s.now
  {
    hide Balanced, FeesAccounted;
    AssetOfSound(s, a);
    AccrueAssetSound(AssetOf(s, a), s.now);
    AccrueAssetFacts(AssetOf(s, a), s.now);
    PutAssetSound(s, a, AccrueAsset(AssetOf(s, a), s.now));
  }

  /** A realised position is non-negative, no smaller than the stored one, and anchored at the live indexes. */
  lemma RealisedSound(s: State, u: Address, a: Address)
    requires Sound(s)
    ensures var p := Realised(s, u, a);
      && 0 <= AccountOf(s, u, a).pos.deposited <= p.deposited
      && 0 <= AccountOf(s, u, a).pos.borrowed <= p.borrowed
      && p.supplySnapshot == Simulate(AssetOf(s, a), s.now).supplyIndex >= RATE_SCALE
      && p.borrowSnapshot == Simulate(AssetOf(s, a), s.now).borrowIndex >= RATE_SCALE
      && (Fresh(AssetOf(s, a), s.now) ==> PositionSound(p, AssetOf(s, a)))
  {
    hide Balanced, FeesAccounted;
    AssetOfSound(s, a);
    AccountOfSound(s, u, a);
    AccrueAssetSound(AssetOf(s, a), s.now);
    var p, st := AccountOf(s, u, a).pos, Simulate(AssetOf(s, a), s.now);
    RealiseIsScaling(p.deposited, st.supplyIndex, p.supplySnapshot);
    RealiseIsScaling(p.borrowed, st.borrowIndex, p.borrowSnapshot);
  }

  lemma TouchSound(s: State, u: Address, a: Address, p: Position)
    requires Sound(s) && p.deposited >= 0 && p.borrowed >= 0
    ensures var t := Touch(s, u, a, p);
      && Sound(t)
      && AssetOf(t, a) == AdvanceRewards(AssetOf(s, a), s.now)
      && AccountOf(t, u, a).pos == AccountOf(s, u, a).pos
      && AccountOf(t, u, a).rew.supplySnapshot == SupplyRewardIndex(AssetOf(t, a))
      && AccountOf(t, u, a).rew.borrowSnapshot == BorrowRewardIndex(AssetOf(t, a))
  {
    hide Balanced, FeesAccounted;
    AssetOfSound(s, a);
    AccountOfSound(s, u, a);
    var r, c := AdvanceRewards(AssetOf(s, a), s.now), AccountOf(s, u, a);
    AdvanceRewardsSound(AssetOf(s, a), s.now);
    PutAssetSound(s, a, r);
    FoldNeverGains(p.deposited, r.rewards.value.supplyIndex, c.rew.supplySnapshot);
    FoldNeverGains(p.borrowed, r.rewards.value.borrowIndex, c.rew.borrowSnapshot);
    PutAccountSound(PutAsset(s, a, r), u, a,
      c.(rew := AccrueFromIndexes(c.rew, r.rewards.value, p.deposited, p.borrowed)));
  }

  lemma PutPositionSound(s: State, u: Address, a: Address, p: Position)
    requires Sound(s) && PositionSound(p, AssetOf(s, a))
    ensures Sound(PutPosition(s, u, a, p))
  {
    hide Balanced, FeesAccounted;
    AssetOfSound(s, a);
    AccountOfSound(s, u, a);
    PutAccountSound(s, u, a, AccountOf(s, u, a).(pos := Stored(p)));
  }

  lemma PostSound(s: State, u: Address, a: Address, p: Position, e: Entry)
    requires Sound(s) && PositionSound(p, AssetOf(s, a)) && EntryBalanced(e)
    requires p.deposited + e.deposited >= 0 && p.borrowed + e.borrowed >= 0
    ensures Sound(Post(s, u, a, p, e))
  {
    hide Sound, AssetSound, EntryBalanced;
    AssetOfSound(s, a);
    var q := p.(deposited := p.deposited + e.deposited, borrowed := p.borrowed + e.borrowed);
    PutPositionSound(s, u, a, q);
    var t := PutPosition(s, u, a, q);
    assert AssetOf(t, a) == AssetOf(s, a);
    PostAssetSound(AssetOf(s, a), s.now, e);
    PutAssetSound(t, a, PostAsset(AssetOf(s, a), e));
  }

  /** The common shape of the four user operations, after accrual. */
  lemma TouchAndPostSound(s: State, u: Address, a: Address, e: Entry)
    requires Sound(s) && Fresh(AssetOf(s, a), s.now) && EntryBalanced(e)
    requires Realised(s, u, a).deposited + e.deposited >= 0 && Realised(s, u, a).borrowed + e.borrowed >= 0
    ensures Sound(TouchAndPost(s, u, a, e))
  {
    hide Balanced, FeesAccounted;
    var p := Realised(s, u, a);
    RealisedSound(s, u, a);
    TouchSound(s, u, a, p);
    AssetOfSound(s, a);
    AdvanceRewardsSound(AssetOf(s, a), s.now);
    PostSound(Touch(s, u, a, p), u, a, p, e);
  }

  // ---------------------------------------------------------------- per call

  /** A posted entry balances and leaves the position non-negative. */
  lemma EntryForSound(k: Kind, p: Position, reserve: int, amount: int)
    requires amount > 0 && p.deposited >= 0 && p.borrowed >= 0 && EntryFor(k, p, reserve, amount).Ok?
    ensures var e := EntryFor(k, p, reserve, amount).value;
      EntryBalanced(e) && p.deposited + e.deposited >= 0 && p.borrowed + e.borrowed >= 0
  {
  }

  lemma BodySound(k: Kind, s: State, u: Address, a: Address, amount: int)
    requires Sound(s) && amount > 0 && Body(k, Accrue(s, a), u, a, amount).Ok?
    ensures Sound(Body(k, Accrue(s, a), u, a, amount).value)
  {
    hide Sound, Accrue, Realised, TouchAndPost, EntryBalanced, EntryFor;
    var t := Accrue(s, a);
    AccrueSound(s, a);
    RealisedSound(t, u, a);
    EntryForSound(k, Realised(t, u, a), AssetOf(t, a).balance, amount);
    TouchAndPostSound(t, u, a, EntryFor(k, Realised(t, u, a), AssetOf(t, a).balance, amount).value);
  }

  lemma {:induction false} AccrueAllSound(s: State, list: seq<Address>)
    requires Sound(s)
    ensures Sound(AccrueAll(s, list)) && AccrueAll(s, list).now == s.now
  {
    hide Balanced, FeesAccounted;
    if |list| > 0 {
      AccrueAllSound(s, list[..|list| - 1]);
      AccrueSound(AccrueAll(s, list[..|list| - 1]), list[|list| - 1]);
    }
  }

  lemma {:induction false} ValidOpsPositive(s: State, ops: seq<BatchOp>)
    requires ValidateOps(s, ops).Pass?
    ensures forall i | 0 <= i < |ops| :: ops[i].amount > 0 && AssetOf(s, ops[i].asset).supported
  {
    if |ops| > 0 {
      ValidOpsPositive(s, ops[..|ops| - 1]);
    }
  }

  lemma {:induction false} BodiesSound(k: Kind, s: State, u: Address, ops: seq<BatchOp>)
    requires Sound(s) && (forall i | 0 <= i < |ops| :: ops[i].amount > 0) && Bodies(k, s, u, ops).Ok?
    ensures Sound(Bodies(k, s, u, ops).value)
  {
    hide Sound, Body, Accrue;
    if |ops| > 0 {
      var before, op := ops[..|ops| - 1], ops[|ops| - 1];
      BodiesSound(k, s, u, before);
      BodySound(k, Bodies(k, s, u, before).value, u, op.asset, op.amount);
    }
  }

  lemma PrepareLiquidationSound(s: State, l: Address, u: Address, collateral: Address, debtAsset: Address)
    requires Sound(s)
    ensures var t := PrepareLiquidation(s, l, u, collateral, debtAsset);
      Sound(t) && t.now == s.now && Fresh(AssetOf(t, debtAsset), s.now) && Fresh(AssetOf(t, collateral), s.now)
  {
    hide Sound, Accrue, Touch, Realised, AssetOf, Fresh;
    var t0 := Accrue(s, debtAsset);
    AccrueSound(s, debtAsset);
    AccrueSound(t0, collateral);
    AccrueKeepsFresh(t0, collateral);
    var t := Accrue(t0, collateral);
    RealisedSound(t, u, debtAsset);
    TouchSound(t, u, debtAsset, Realised(t, u, debtAsset));
    TouchKeepsFresh(t, u, debtAsset, Realised(t, u, debtAsset));
    var t1 := Touch(t, u, debtAsset, Realised(t, u, debtAsset));
    RealisedSound(t, u, collateral);
    TouchSound(t1, u, collateral, Realised(t, u, collateral));
    TouchKeepsFresh(t1, u, collateral, Realised(t, u, collateral));
    var t2 := Touch(t1, u, collateral, Realised(t, u, collateral));
    RealisedSound(t2, l, collateral);
    TouchSound(t2, l, collateral, Realised(t2, l, collateral));
    TouchKeepsFresh(t2, l, collateral, Realised(t2, l, collateral));
  }

  lemma AccrueKeepsFresh(s: State, a: Address)
    ensures forall b | Fresh(AssetOf(s, b), s.now) :: Fresh(AssetOf(Accrue(s, a), b), s.now)
  {
    hide ComputeAccrual;
  }

  lemma TouchKeepsFresh(s: State, u: Address, a: Address, p: Position)
    ensures Touch(s, u, a, p).now == s.now
    ensures forall b | Fresh(AssetOf(s, b), s.now) :: Fresh(AssetOf(Touch(s, u, a, p), b), s.now)
  {
    hide ComputeIndexAdvance, AccrueFromIndexes;
  }

  /** An accepted quote repays part of the debt and seizes part of the deposit. */
  lemma QuoteBounds(s: State, u: Address, collateral: Address, debtAsset: Address, repayAmount: int)
    requires Sound(s) && QuoteLiquidation(s, u, collateral, debtAsset, repayAmount).Ok?
    ensures var (repaid, seized) := QuoteLiquidation(s, u, collateral, debtAsset, repayAmount).value;
      && 0 < repaid <= Realised(s, u, debtAsset).borrowed && repaid <= repayAmount
      && 0 <= seized <= Realised(s, u, collateral).deposited
  {
    hide Balanced, FeesAccounted;
    RealisedSound(s, u, collateral);
    var repaid := QuoteLiquidation(s, u, collateral, debtAsset, repayAmount).value.0;
    var price, collateralPrice := PriceOf(s, debtAsset).value, PriceOf(s, collateral).value;
    MulMono(0, repaid, price);
    MulMono(0, repaid * price, 10_000 + s.discountBps);
    DivNonNeg(repaid * price * (10_000 + s.discountBps), 10_000);
    DivNonNeg(SeizeValue(repaid * price, s.discountBps), collateralPrice);
  }

  /** Posting moves one account and the totals of one asset, and no index. */
  lemma PostFrame(s: State, u: Address, a: Address, p: Position, e: Entry)
    ensures var t := Post(s, u, a, p, e);
      && t.now == s.now
      && (forall b | Fresh(AssetOf(s, b), s.now) :: Fresh(AssetOf(t, b), s.now) && Grows(AssetOf(s, b), AssetOf(t, b)))
  {
  }

  lemma PutPositionFrame(s: State, u: Address, a: Address, p: Position)
    ensures PutPosition(s, u, a, p).now == s.now && PutPosition(s, u, a, p).assets == s.assets
  {
  }

  lemma SettleLiquidationSound(
    s: State, l: Address, u: Address, collateral: Address, debtAsset: Address, repaid: int, seized: int)
    requires Sound(s) && Fresh(AssetOf(s, debtAsset), s.now) && Fresh(AssetOf(s, collateral), s.now)
    requires 0 < repaid <= Realised(s, u, debtAsset).borrowed
    requires 0 <= seized <= Realised(s, u, collateral).deposited
    ensures Sound(SettleLiquidation(s, l, u, collateral, debtAsset, repaid, seized))
  {
    hide Sound, Post, PutPosition, Realised;
    var debt, held := Realised(s, u, debtAsset), Realised(s, u, collateral);
    RealisedSound(s, u, debtAsset);
    RealisedSound(s, u, collateral);
    var s1 := Post(s, u, debtAsset, debt, Entry(0, -repaid, repaid, 0, 0));
    PostFrame(s, u, debtAsset, debt, Entry(0, -repaid, repaid, 0, 0));
    PostSound(s, u, debtAsset, debt, Entry(0, -repaid, repaid, 0, 0));
    var s2 := PutPosition(s1, u, collateral, held.(deposited := held.deposited - seized));
    PutPositionSound(s1, u, collateral, held.(deposited := held.deposited - seized));
    PutPositionFrame(s1, u, collateral, held.(deposited := held.deposited - seized));
    RealisedSound(s2, l, collateral);
    var gained := Realised(s2, l, collateral);
    PutPositionSound(s2, l, collateral, gained.(deposited := gained.deposited + seized));
  }

  lemma LiquidateSound(s: State, l: Address, u: Address, collateral: Address, debtAsset: Address, amount: int)
    requires Sound(s) && Liquidate(s, l, u, collateral, debtAsset, amount).Ok?
    ensures Sound(Liquidate(s, l, u, collateral, debtAsset, amount).value)
  {
    hide Sound, PrepareLiquidation, QuoteLiquidation, SettleLiquidation, Realised;
    var t := PrepareLiquidation(s, l, u, collateral, debtAsset);
    PrepareLiquidationSound(s, l, u, collateral, debtAsset);
    QuoteBounds(t, u, collateral, debtAsset, amount);
    var quote := QuoteLiquidation(t, u, collateral, debtAsset, amount).value;
    SettleLiquidationSound(t, l, u, collateral, debtAsset, quote.0, quote.1);
  }

  lemma {:induction false} AccrueUncollateralisedSound(s: State, u: Address, list: seq<Address>)
    requires Sound(s) && AccrueUncollateralised(s, u, list).Ok?
    ensures var t := AccrueUncollateralised(s, u, list).value;
      && Sound(t) && t.now == s.now && t.accounts == s.accounts
      && forall a | Fresh(AssetOf(s, a), s.now) :: AssetOf(t, a) == AssetOf(s, a)
  {
    hide Balanced, FeesAccounted;
    if |list| > 0 {
      AccrueUncollateralisedSound(s, u, list[..|list| - 1]);
      AccrueSound(AccrueUncollateralised(s, u, list[..|list| - 1]).value, list[|list| - 1]);
    }
  }

  lemma WriteoffSound(s: State, u: Address, debtAsset: Address)
    requires Sound(s) && WriteoffBadDebt(s, u, debtAsset).Ok?
    ensures Sound(WriteoffBadDebt(s, u, debtAsset).value)
  {
    hide Sound, Realised, Accrue, Post, AccrueUncollateralised, AssetSound;
    AccrueSound(s, debtAsset);
    var t := Accrue(s, debtAsset);
    RealisedSound(t, u, debtAsset);
    var debt := Realised(t, u, debtAsset);
    if debt.borrowed != 0 {
      AccrueUncollateralisedSound(t, u, s.listed);
      var end := AccrueUncollateralised(t, u, s.listed).value;
      assert AssetOf(end, debtAsset) == AssetOf(t, debtAsset);
      PostSound(end, u, debtAsset, debt, Entry(0, -debt.borrowed, 0, 0, debt.borrowed));
    }
  }

  lemma ClearCountersSound(s: State, u: Address, a: Address)
    requires Sound(s)
    ensures var c := AccountOf(s, u, a);
      && c.rew.unclaimedSupply >= 0 && c.rew.unclaimedBorrow >= 0
      && Sound(ClearCounters(s, u, a))
  {
    hide Balanced, FeesAccounted, Credited;
    AccountOfSound(s, u, a);
    AssetOfSound(s, a);
    var c, r := AccountOf(s, u, a), AssetOf(s, a);
    PutAccountSound(s, u, a, Cleared(c));
    CreditedSound(r, s.now, c.rew);
    assert Credited(r, c.rew).supported == r.supported by { CreditedTerms(r, c.rew); }
    PutAssetSound(PutAccount(s, u, a, Cleared(c)), a, Credited(r, c.rew));
  }

  lemma CreditedTerms(r: Asset, rew: UserRewards)
    ensures SameTerms(r, Credited(r, rew)) && Credited(r, rew).interest == r.interest
  {
  }

  lemma RealizeUnclaimedSound(s: State, u: Address, a: Address)
    requires Sound(s)
    ensures Sound(RealizeUnclaimed(s, u, a).0)
    ensures RealizeUnclaimed(s, u, a).1 >= 0
  {
    hide Sound, Accrue, Realised, Touch;
    var t := Accrue(s, a);
    AccrueSound(s, a);
    RealisedSound(t, u, a);
    TouchSound(t, u, a, Realised(t, u, a));
    var touched := Touch(t, u, a, Realised(t, u, a));
    ClearCountersSound(touched, u, a);
  }

  lemma {:induction false} RealizeAllSound(s: State, u: Address, list: seq<Address>)
    requires Sound(s)
    ensures Sound(RealizeAll(s, u, list).0) && RealizeAll(s, u, list).1 >= 0
  {
    hide Balanced, FeesAccounted;
    if |list| > 0 {
      RealizeAllSound(s, u, list[..|list| - 1]);
      RealizeUnclaimedSound(RealizeAll(s, u, list[..|list| - 1]).0, u, list[|list| - 1]);
    }
  }

  lemma PremiumNonNeg(amount: nat, premiumBps: nat)
    ensures PremiumRoundedUp(amount, premiumBps) >= 0
  {
    DivNonNeg(amount * premiumBps + 9_999, 10_000);
  }

  lemma FlashLoanSound(s: State, a: Address, amount: int, ok: bool)
    requires Sound(s) && FlashLoan(s, a, amount, ok).Ok?
    ensures Sound(FlashLoan(s, a, amount, ok).value)
  {
    hide Balanced, FeesAccounted;
    AccrueSound(s, a);
    var t := Accrue(s, a);
    AssetOfSound(t, a);
    var premium := PremiumRoundedUp(amount, AssetOf(s, a).flash.value.premiumBps);
    PremiumNonNeg(amount, AssetOf(s, a).flash.value.premiumBps);
    FlashAssetSound(AssetOf(t, a), s.now, amount, premium);
    PutAssetSound(t, a, AssetOf(FlashLoan(s, a, amount, ok).value, a));
  }

  lemma RecordFeeSound(s: State, a: Address, amount: int)
    requires Sound(s) && amount > 0 && RecordProtocolFee(s, a, amount).Ok?
    ensures Sound(RecordProtocolFee(s, a, amount).value)
  {
    hide Sound, AssetSound, Accrue, Grows;
    var t := Accrue(s, a);
    AccrueSound(s, a);
    AssetOfSound(t, a);
    RecordFeeAssetSound(AssetOf(t, a), t.now, amount);
    var r := AssetOf(t, a);
    PutAssetSound(t, a, r.(balance := r.balance + amount, fees := r.fees + amount,
                           book := r.book.(feesRecorded := r.book.feesRecorded + amount)));
  }

  lemma WithdrawReservesSound(s: State, a: Address, amount: int)
    requires Sound(s) && WithdrawReserves(s, a, amount).Ok?
    ensures Sound(WithdrawReserves(s, a, amount).value)
  {
    hide Sound, AssetSound, Accrue, Grows;
    var t := Accrue(s, a);
    AccrueSound(s, a);
    AssetOfSound(t, a);
    WithdrawFeeAssetSound(AssetOf(t, a), t.now, amount);
    var r := AssetOf(t, a);
    PutAssetSound(t, a, r.(balance := r.balance - amount, fees := r.fees - amount,
                           book := r.book.(feesWithdrawn := r.book.feesWithdrawn + amount)));
  }

  lemma {:induction false} WithoutFacts(list: seq<Address>, a: Address)
    requires NoDuplicates(list)
    ensures NoDuplicates(Without(list, a))
    ensures forall b :: b in Without(list, a) <==> b in list && b != a
  {
    if |list| > 0 {
      var before, last := list[..|list| - 1], list[|list| - 1];
      WithoutFacts(before, a);
      assert list == before + [last];
      assert last !in before;
    }
  }

  /** The switch and the interest record that a configuration may set. */
  lemma ConfiguredAssetSound(r: Asset, now: nat, supported: bool)
    requires AssetSound(r, now)
    ensures var q := r.(supported := supported, interest := if supported then Some(InterestOf(r, now)) else r.interest);
      AssetSound(q, now) && Grows(r, q)
  {
  }

  lemma SwitchSound(s: State, a: Address, q: Asset, list: seq<Address>)
    requires Sound(s) && AssetSound(q, s.now) && Grows(AssetOf(s, a), q) && NoDuplicates(list)
    requires a in list <==> q.supported
    requires forall b | b != a :: b in list <==> b in s.listed
    ensures Sound(PutAsset(s, a, q).(listed := list))
  {
    hide AssetSound, Grows, CountersSound, NoDuplicates;
    var t := PutAsset(s, a, q).(listed := list);
    forall k | k in t.accounts
      ensures AccountSound(t.accounts[k], AssetOf(t, k.1))
    {
      assert AccountSound(s.accounts[k], AssetOf(s, k.1));
      AccountSoundGrows(s.accounts[k], AssetOf(s, k.1), AssetOf(t, k.1));
    }
  }

  lemma AccountSoundGrows(c: Account, r: Asset, q: Asset)
    requires AccountSound(c, r) && (Grows(r, q) || q == r)
    ensures AccountSound(c, q)
  {
  }

  lemma ConfigureSound(s: State, a: Address, supported: bool)
    requires Sound(s) && ApplyConfigureAsset(s, a, supported).Ok?
    ensures Sound(ApplyConfigureAsset(s, a, supported).value)
  {
    hide AssetSound, Grows, AccountSound, Without;
    AssetOfSound(s, a);
    ConfiguredAssetSound(AssetOf(s, a), s.now, supported);
    WithoutFacts(s.listed, a);
    var r := AssetOf(s, a);
    var q := r.(supported := supported, interest := if supported then Some(InterestOf(r, s.now)) else r.interest);
    SwitchSound(s, a, q, if supported then AddAsset(s.listed, a) else Without(s.listed, a));
  }

  /** Settings stored with the asset that no identity mentions. */
  lemma AssetTermsSound(s: State, a: Address, q: Asset)
    requires Sound(s)
    requires var r := AssetOf(s, a);
      q == r.(params := q.params, oracle := q.oracle, flash := q.flash, risk := q.risk,
              depositCap := q.depositCap, borrowCap := q.borrowCap,
              supplyCap := q.supplyCap, aggregateBorrowCap := q.aggregateBorrowCap)
    requires (q.params.Some? ==> q.params.value.Valid()) && Oracle.OnRails(q.oracle)
    requires q.risk.Some? ==> CheckRisk(q.risk.value).Pass?
    ensures Sound(PutAsset(s, a, q))
  {
    hide Sound, Balanced, FeesAccounted;
    AssetOfSound(s, a);
    SameMoney(AssetOf(s, a), q);
    PutAssetSound(s, a, q);
  }

  lemma RewardSpeedsSound(s: State, a: Address, supplySpeed: nat, borrowSpeed: nat)
    requires Sound(s)
    ensures var r := AdvanceRewards(AssetOf(s, a), s.now);
      && r.rewards.Some?
      && Sound(PutAsset(s, a,
                 r.(rewards := Some(r.rewards.value.(supplySpeed := supplySpeed, borrowSpeed := borrowSpeed)))))
  {
    hide Sound, Balanced, FeesAccounted, AdvanceRewards;
    AssetOfSound(s, a);
    AdvanceRewardsSound(AssetOf(s, a), s.now);
    var r := AdvanceRewards(AssetOf(s, a), s.now);
    var q := r.(rewards := Some(r.rewards.value.(supplySpeed := supplySpeed, borrowSpeed := borrowSpeed)));
    SameMoney(r, q);
    PutAssetSound(s, a, q);
  }

  lemma AssetSettingsSound(s: State, call: Call)
    requires Sound(s) && Invoke(s, call).Ok?
    requires call.DoSetInterestParams? || call.DoSetRewardSpeeds? || call.DoSetAggregateCap?
          || call.DoConfigureFlashLoan?
    ensures Sound(Invoke(s, call).value)
  {
    hide Sound, Balanced, FeesAccounted, Accrue, AdvanceRewards, PutAsset, AssetOf;
    var a := call.asset;
    AssetOfSound(s, a);
    match call {
      case DoSetInterestParams(_, params) =>
        AccrueSound(s, a);
        AssetOfSound(Accrue(s, a), a);
        AssetTermsSound(Accrue(s, a), a, AssetOf(Accrue(s, a), a).(params := Some(params)));
      case DoSetRewardSpeeds(_, supplySpeed, borrowSpeed) => RewardSpeedsSound(s, a, supplySpeed, borrowSpeed);
      case DoSetAggregateCap(_, supply, cap) =>
        var r := AssetOf(s, a);
        AssetTermsSound(s, a, if supply then r.(supplyCap := cap) else r.(aggregateBorrowCap := cap));
      case DoConfigureFlashLoan(_, config) => AssetTermsSound(s, a, AssetOf(s, a).(flash := Some(config)));
    }
  }

  lemma OracleRailsSound(s: State, call: Call)
    requires Sound(s) && Invoke(s, call).Ok? && (call.DoSetOracleBounds? || call.DoSetOracleMaxChange?)
    ensures Sound(Invoke(s, call).value)
  {
    hide Sound, Balanced, FeesAccounted, PutAsset, AssetOf;
    var a := call.asset;
    AssetOfSound(s, a);
    match call {
      case DoSetOracleBounds(_, min, max) =>
        AssetTermsSound(s, a, AssetOf(s, a).(oracle := Oracle.SetBounds(AssetOf(s, a).oracle, min, max).value));
      case DoSetOracleMaxChange(_, bps) =>
        AssetTermsSound(s, a, AssetOf(s, a).(oracle := AssetOf(s, a).oracle.(maxChangeBps := Some(bps))));
    }
  }

  lemma SetPriceOnRails(o: Oracle.OracleRecord, price: int, now: nat)
    requires Oracle.OnRails(o) && Oracle.SetPrice(o, price, now).Ok?
    ensures Oracle.OnRails(Oracle.SetPrice(o, price, now).value)
  {
  }

  lemma OracleSound(s: State, a: Address, price: int)
    requires Sound(s) && ApplyOraclePrice(s, a, price).Ok?
    ensures Sound(ApplyOraclePrice(s, a, price).value)
  {
    hide Sound, PutAsset, AssetOf;
    AssetOfSound(s, a);
    SetPriceOnRails(AssetOf(s, a).oracle, price, s.now);
    AssetTermsSound(s, a, AssetOf(s, a).(oracle := Oracle.SetPrice(AssetOf(s, a).oracle, price, s.now).value));
  }

  lemma ActionSound(s: State, payload: ActionPayload, host: Host)
    requires Sound(s) && ApplyAction(s, payload, host).Ok?
    ensures Sound(ApplyAction(s, payload, host).value)
  {
    hide AssetSound, AccountSound, ListSound, PutAsset, AssetOf;
    hide RecordProtocolFee, WithdrawReserves, ApplyConfigureAsset, ApplyOraclePrice;
    match payload {
      case ConfigureAsset(a, supported) => ConfigureSound(s, a, supported);
      case SetOraclePriceTo(a, price) => OracleSound(s, a, price);
      case UpdateAssetCaps(a, depositCap, borrowCap) =>
        AssetOfSound(s, a);
        AssetTermsSound(s, a, AssetOf(s, a).(depositCap := depositCap, borrowCap := borrowCap));
      case RecordFee(a, amount) => RecordFeeSound(s, a, amount);
      case WithdrawFees(a, _, amount) => WithdrawReservesSound(s, a, amount);
      case SetAssetRiskParams(a, risk) =>
        AssetOfSound(s, a);
        AssetTermsSound(s, a, AssetOf(s, a).(risk := Some(risk)));
      case SetMinCollateralRatio(bps) => GlobalSettingsSound(s, s.(minRatioBps := bps));
      case SetPaused(paused) => GlobalSettingsSound(s, s.(paused := paused));
      case Upgrade(_) =>
      case RecoverRewards(_, _) =>
    }
  }

  lemma BatchSound(s: State, call: Call)
    requires Sound(s) && Invoke(s, call).Ok?
    requires call.DoDepositBatch? || call.DoBorrowBatch? || call.DoRepayBatch? || call.DoWithdrawBatch?
    ensures Sound(Invoke(s, call).value)
  {
    hide Sound, Accrue, Bodies, CheckHealth, CheckBatchBorrowHealth, CheckBatchCaps;
    var (k, list) := match call
      case DoDepositBatch(_, ops) => (Supplying, UniqueAssets(ops))
      case DoBorrowBatch(_, collateral, ops) => (Borrowing, AddAsset(UniqueAssets(ops), collateral))
      case DoRepayBatch(_, ops) => (Repaying, UniqueAssets(ops))
      case DoWithdrawBatch(_, debtAsset, ops) => (Withdrawing, AddAsset(UniqueAssets(ops), debtAsset));
    AccrueAllSound(s, list);
    ValidOpsPositive(AccrueAll(s, list), call.ops);
    BodiesSound(k, AccrueAll(s, list), call.user, call.ops);
  }

  lemma WaitSound(s: State, seconds: nat)
    requires Sound(s)
    ensures Sound(s.(now := s.now + seconds))
  {
    hide Balanced, FeesAccounted;
    var t := s.(now := s.now + seconds);
    forall k | k in t.accounts
      ensures AccountSound(t.accounts[k], AssetOf(t, k.1))
    {
      assert AccountSound(s.accounts[k], AssetOf(s, k.1));
    }
  }

  /** A change of settings that are not stored per asset or account. */
  lemma GlobalSettingsSound(s: State, t: State)
    requires Sound(s)
    requires t.now == s.now && t.assets == s.assets && t.accounts == s.accounts && t.listed == s.listed
    requires t.minRatioBps >= 10_000 && t.discountBps <= 10_000 && t.closeFactorBps <= 10_000
    ensures Sound(t)
  {
    hide Balanced, FeesAccounted;
    forall k | k in t.accounts
      ensures AccountSound(t.accounts[k], AssetOf(t, k.1))
    {
      assert AccountSound(s.accounts[k], AssetOf(s, k.1));
    }
  }

  lemma PushGrantSound(s: State, u: Address, amount: int)
    requires Sound(s)
    ensures Sound(PushGrant(s, u, amount))
  {
    GlobalSettingsSound(s, PushGrant(s, u, amount));
  }

  /** The call that carries out one operation of each kind; `partner` is the other asset it names, if any. */
  function SingleCall(k: Kind, u: Address, a: Address, partner: Address, amount: int): Call {
    match k
    case Supplying => DoDeposit(u, a, amount)
    case Borrowing => DoBorrow(u, a, partner, amount)
    case Repaying => DoRepay(u, a, amount)
    case Withdrawing => DoWithdraw(u, a, partner, amount)
  }

  /** An operation that passes its guards is accrual followed by its body. */
  lemma SingleForm(k: Kind, s: State, u: Address, a: Address, partner: Address, amount: int)
    requires Invoke(s, SingleCall(k, u, a, partner, amount)).Ok?
    ensures amount > 0 && Invoke(s, SingleCall(k, u, a, partner, amount)) == Body(k, Accrue(s, a), u, a, amount)
  {
    hide Accrue, Realised, CheckHealth, CheckBorrowCaps, CheckSupplyCaps, Post;
  }

  lemma SingleSound(k: Kind, s: State, u: Address, a: Address, partner: Address, amount: int)
    requires Sound(s) && Invoke(s, SingleCall(k, u, a, partner, amount)).Ok?
    ensures Sound(Invoke(s, SingleCall(k, u, a, partner, amount)).value)
  {
    hide Sound, Invoke, Body;
    SingleForm(k, s, u, a, partner, amount);
    BodySound(k, s, u, a, amount);
  }

  lemma SoundSettings(s: State)
    requires Sound(s)
    ensures s.minRatioBps >= 10_000 && s.discountBps <= 10_000 && s.closeFactorBps <= 10_000
  {
  }

  /** Calls that change nothing stored per asset or account. */
  lemma GlobalCallSound(s: State, call: Call)
    requires Sound(s) && Invoke(s, call).Ok?
    requires call.DoVestClaimable? || call.DoSetVestingParams? || call.DoSetLiquidationParams?
          || call.DoSetMaxOracleAge? || call.DoSetMaxProtocolFee? || call.DoUnpause?
    ensures Sound(Invoke(s, call).value)
  {
    hide Sound;
    SoundSettings(s);
    GlobalSettingsSound(s, Invoke(s, call).value);
  }

  /** Every call keeps the invariant, whether it succeeds or reverts. */
  lemma CallKeepsSound(s: State, call: Call)
    requires Sound(s)
    ensures Sound(After(s, call))
  {
    hide Sound, Accrue, Touch, Post, TouchAndPost, Realised, CheckHealth, CheckSupplyCaps, CheckBorrowCaps;
    hide Deposit, Borrow, Repay, Withdraw, Liquidate, WriteoffBadDebt, FlashLoan, ApplyAction, RealizeUnclaimed, RealizeAll;
    if Invoke(s, call).Ok? {
      match call {
        case Wait(seconds) => WaitSound(s, seconds);
        case DoDeposit(u, a, amount) => SingleSound(Supplying, s, u, a, a, amount);
        case DoBorrow(u, a, collateral, amount) => SingleSound(Borrowing, s, u, a, collateral, amount);
        case DoRepay(u, a, amount) => SingleSound(Repaying, s, u, a, a, amount);
        case DoWithdraw(u, a, debtAsset, amount) => SingleSound(Withdrawing, s, u, a, debtAsset, amount);
        case DoAccrueInterest(a) => AccrueSound(s, a);
        case DoLiquidate(l, u, collateral, debtAsset, amount) => LiquidateSound(s, l, u, collateral, debtAsset, amount);
        case DoWriteoff(u, debtAsset) => WriteoffSound(s, u, debtAsset);
        case DoFlashLoan(a, amount, ok) => FlashLoanSound(s, a, amount, ok);
        case DoClaimAsset(u, a) =>
          RealizeUnclaimedSound(s, u, a);
          PushGrantSound(RealizeUnclaimed(s, u, a).0, u, RealizeUnclaimed(s, u, a).1);
        case DoClaimAll(u) =>
          RealizeAllSound(s, u, s.listed);
          PushGrantSound(RealizeAll(s, u, s.listed).0, u, RealizeAll(s, u, s.listed).1);
        case DoSetOraclePrice(a, price) => OracleSound(s, a, price);
        case DoAction(payload, host) =>
          ActionSound(s, payload, host);
        case DoDepositBatch(_, _) => BatchSound(s, call);
        case DoBorrowBatch(_, _, _) => BatchSound(s, call);
        case DoRepayBatch(_, _) => BatchSound(s, call);
        case DoWithdrawBatch(_, _, _) => BatchSound(s, call);
        case DoSetInterestParams(_, _) => AssetSettingsSound(s, call);
        case DoSetRewardSpeeds(_, _, _) => AssetSettingsSound(s, call);
        case DoSetAggregateCap(_, _, _) => AssetSettingsSound(s, call);
        case DoConfigureFlashLoan(_, _) => AssetSettingsSound(s, call);
        case DoSetOracleBounds(_, _, _) => OracleRailsSound(s, call);
        case DoSetOracleMaxChange(_, _) => OracleRailsSound(s, call);
        case _ => GlobalCallSound(s, call);
      }
    }
  }

  /** The invariant holds in every state that any sequence of calls reaches. */
  lemma {:induction false} EveryRunIsSound(minRatioBps: nat, start: nat, calls: seq<Call>)
    requires minRatioBps >= 10_000
    ensures Sound(Run(Initial(minRatioBps, start), calls))
  {
    hide Balanced, FeesAccounted;
    if |calls| > 0 {
      EveryRunIsSound(minRatioBps, start, calls[..|calls| - 1]);
      CallKeepsSound(Run(Initial(minRatioBps, start), calls[..|calls| - 1]), calls[|calls| - 1]);
    }
  }

  /**
   * The ledger and fee identities of every asset in every reachable state, spelled out: no sequence of
   * deposits, borrows, repayments, withdrawals, batches, liquidations, write-offs, flash loans, claims,
   * fee movements and settings changes creates or loses a unit unaccounted for.
   */
  lemma LedgerIdentity(minRatioBps: nat, start: nat, calls: seq<Call>, a: Address)
    requires minRatioBps >= 10_000
    ensures var r := AssetOf(Run(Initial(minRatioBps, start), calls), a);
      && r.balance + r.totalBorrowed - r.totalDeposited
           == r.book.backing + r.book.toBorrowers - r.book.toSuppliers
              + r.book.feesRecorded - r.book.feesWithdrawn - r.book.repayDust - r.book.writtenOff
      && r.fees == r.lifetimeFees + r.book.feesRecorded + r.book.premiums - r.book.feesWithdrawn
      && r.fees >= 0
  {
    EveryRunIsSound(minRatioBps, start, calls);
    AssetOfSound(Run(Initial(minRatioBps, start), calls), a);
  }
}
