/**
 * Runs at zero interest rates, which is what an asset has until parameters are set: aggregates equal the sums
 * of the users' positions, and the reward program never owes or pays more than it has emitted.
 */
module Solvency {
  import opened Prelude
  import opened Arith
  import opened Interest
  import opened Rewards
  import Vesting
  import opened Ledger
  import opened Invariants
  import opened Health
  import opened Sums
  import Batches
  import opened Liquidation

  type Accounts = map<(Address, Address), Account>

  datatype Side = SupplySide | BorrowSide

  function Held(p: Position, side: Side): int {
    if side.SupplySide? then p.deposited else p.borrowed
  }

  function Snapshot(c: UserRewards, side: Side): int {
    if side.SupplySide? then c.supplySnapshot else c.borrowSnapshot
  }

  function Unclaimed(c: UserRewards, side: Side): int {
    if side.SupplySide? then c.unclaimedSupply else c.unclaimedBorrow
  }

  function Total(r: Asset, side: Side): int {
    if side.SupplySide? then r.totalDeposited else r.totalBorrowed
  }

  function RewardIndex(r: Asset, side: Side): int {
    if side.SupplySide? then SupplyRewardIndex(r) else BorrowRewardIndex(r)
  }

  function Emitted(r: Asset, side: Side): int {
    if side.SupplySide? then r.book.emittedSupply else r.book.emittedBorrow
  }

  function Granted(r: Asset, side: Side): int {
    if side.SupplySide? then r.book.grantedSupply else r.book.grantedBorrow
  }

  /** The part of the total that no user's position stands for: flash-loan premiums. */
  function Unowned(r: Asset, side: Side): int {
    if side.SupplySide? then r.book.premiums else 0
  }

  // ---------------------------------------------------------------- sums over the users of one asset

  ghost function HeldIn(m: Accounts, a: Address, side: Side): ((Address, Address)) -> int {
    (k: (Address, Address)) => if k in m && k.1 == a then Held(m[k].pos, side) else 0
  }

  ghost function SumHeld(m: Accounts, a: Address, side: Side): int {
    SumOver(m.Keys, HeldIn(m, a, side))
  }

  /** What an account is owed in rewards at a pool index, scaled: the unfolded part and the counter. */
  function Owed(c: Account, index: int, side: Side): int {
    Held(c.pos, side) * (index - Snapshot(c.rew, side)) + RATE_SCALE * Unclaimed(c.rew, side)
  }

  ghost function OwedIn(m: Accounts, a: Address, index: int, side: Side): ((Address, Address)) -> int {
    (k: (Address, Address)) => if k in m && k.1 == a then Owed(m[k], index, side) else 0
  }

  ghost function SumOwed(m: Accounts, a: Address, index: int, side: Side): int {
    SumOver(m.Keys, OwedIn(m, a, index, side))
  }

  function GrantedBoth(r: Asset): int {
    r.book.grantedSupply + r.book.grantedBorrow
  }

  ghost function GrantedIn(m: map<Address, Asset>): Address -> int {
    (a: Address) => if a in m then GrantedBoth(m[a]) else 0
  }

  ghost function SumGranted(m: map<Address, Asset>): int {
    SumOver(m.Keys, GrantedIn(m))
  }

  /** Aggregate minus positions; zero means that the two copies of the money agree. */
  ghost function Gap(s: State, a: Address, side: Side): int {
    Total(AssetOf(s, a), side) - Unowned(AssetOf(s, a), side) - SumHeld(s.accounts, a, side)
  }

  /** Emitted rewards minus everything granted or still owed, scaled; never negative. */
  ghost function Slack(s: State, a: Address, side: Side): int {
    RATE_SCALE * Emitted(AssetOf(s, a), side) - RATE_SCALE * Granted(AssetOf(s, a), side)
    - SumOwed(s.accounts, a, RewardIndex(AssetOf(s, a), side), side)
  }

  // ---------------------------------------------------------------- zero rates

  predicate FlatAsset(r: Asset) {
    r.Params().ZeroRate() && SupplyIndex(r) == RATE_SCALE && BorrowIndex(r) == RATE_SCALE
  }

  predicate FlatPosition(p: Position) {
    p.supplySnapshot == RATE_SCALE && p.borrowSnapshot == RATE_SCALE
  }

  predicate Flat(s: State) {
    && (forall a | a in s.assets :: FlatAsset(s.assets[a]))
    && (forall k | k in s.accounts :: FlatPosition(s.accounts[k].pos))
  }

  lemma FlatReads(s: State, u: Address, a: Address)
    requires Flat(s)
    ensures FlatAsset(AssetOf(s, a)) && FlatPosition(AccountOf(s, u, a).pos)
  {
  }

  lemma ZeroRateAccrual(st: InterestState, params: InterestParams, s: int, b: int, now: nat)
    requires params.ZeroRate() && st.supplyIndex == RATE_SCALE && st.borrowIndex == RATE_SCALE
    ensures var r := ComputeAccrual(st, params, s, b, now);
      r.toSuppliers == 0 && r.toBorrowers == 0 && r.state.supplyIndex == RATE_SCALE && r.state.borrowIndex == RATE_SCALE
  {
    if st.lastAccrual < now {
      var util, elapsed := UtilizationRatio(s, b), now - st.lastAccrual;
      assert BorrowRate(params, util) == 0;
      assert SupplyRate(params, util, 0) == 0;
      assert Growth(0, elapsed) == 0;
    }
  }

  /** At zero rates an accrual only moves the clock. */
  lemma FlatAccrue(r: Asset, now: nat)
    requires FlatAsset(r)
    ensures var q := AccrueAsset(r, now);
      q == r.(interest := q.interest) && FlatAsset(q)
      && Simulate(r, now).supplyIndex == RATE_SCALE && Simulate(r, now).borrowIndex == RATE_SCALE
  {
    hide ComputeAccrual;
    ZeroRateAccrual(InterestOf(r, now), r.Params(), r.totalDeposited, r.totalBorrowed, now);
  }

  /** And a stored position is its own realisation. */
  lemma FlatRealised(s: State, u: Address, a: Address)
    requires Flat(s)
    ensures Realised(s, u, a) == AccountOf(s, u, a).pos
  {
    hide Simulate;
    FlatReads(s, u, a);
    FlatAccrue(AssetOf(s, a), s.now);
    var p := AccountOf(s, u, a).pos;
    assert p.deposited * (RATE_SCALE - RATE_SCALE) == 0 && p.borrowed * (RATE_SCALE - RATE_SCALE) == 0;
  }

  // ---------------------------------------------------------------- what every step keeps

  /**
   * The books move together: gaps stay, slack does not shrink where aggregate and positions agree, and grants
   * are what was taken from counters.
   */
  ghost predicate Keeps(s: State, t: State, taken: int) {
    && Flat(t)
    && t.grants == s.grants && t.grantedTotal == s.grantedTotal && t.paidTotal == s.paidTotal && s.now == t.now
    && SumGranted(t.assets) == SumGranted(s.assets) + taken
    && forall a, side ::
         && Gap(t, a, side) == Gap(s, a, side)
         && (Gap(s, a, side) == 0 ==> Slack(t, a, side) >= Slack(s, a, side))
  }

  lemma KeepsTrans(s: State, t: State, r: State, x: int, y: int)
    requires Keeps(s, t, x) && Keeps(t, r, y)
    ensures Keeps(s, r, x + y)
  {
    hide Flat, Gap, Slack, SumGranted;
  }

  lemma KeepsReflexive(s: State)
    requires Flat(s)
    ensures Keeps(s, s, 0)
  {
  }

  /** An asset record may change in any respect that the sums do not see. */
  lemma PutAssetKeeps(s: State, a: Address, q: Asset)
    requires Flat(s) && FlatAsset(q)
    requires var r := AssetOf(s, a);
      && q.totalDeposited - q.book.premiums == r.totalDeposited - r.book.premiums && q.totalBorrowed == r.totalBorrowed
      && SupplyRewardIndex(q) == SupplyRewardIndex(r) && BorrowRewardIndex(q) == BorrowRewardIndex(r)
      && q.book.emittedSupply == r.book.emittedSupply && q.book.emittedBorrow == r.book.emittedBorrow
      && q.book.grantedSupply == r.book.grantedSupply && q.book.grantedBorrow == r.book.grantedBorrow
    ensures Keeps(s, PutAsset(s, a, q), 0)
  {
    hide SumHeld, SumOwed, SumGranted;
    PutAssetGranted(s.assets, a, q);
  }

  lemma PutAssetGranted(m: map<Address, Asset>, a: Address, q: Asset)
    ensures SumGranted(m[a := q]) == SumGranted(m) + GrantedBoth(q) - if a in m then GrantedBoth(m[a]) else 0
  {
    assert m[a := q].Keys == m.Keys + {a};
    SumPut(m.Keys, GrantedIn(m), GrantedIn(m[a := q]), a);
  }

  lemma AccrueKeeps(s: State, a: Address)
    requires Flat(s)
    ensures Keeps(s, Accrue(s, a), 0)
  {
    hide AccrueAsset, Keeps;
    FlatReads(s, a, a);
    FlatAccrue(AssetOf(s, a), s.now);
    PutAssetKeeps(s, a, AccrueAsset(AssetOf(s, a), s.now));
  }

  /** Writing one account moves both sums of its asset, and no other. */
  lemma PutAccountSums(m: Accounts, u: Address, a: Address, c: Account, b: Address, index: int, side: Side)
    ensures var prior := if (u, a) in m then m[(u, a)] else NO_ACCOUNT;
      var n := m[(u, a) := c];
      && (b == a ==> SumHeld(n, b, side) == SumHeld(m, b, side) + Held(c.pos, side) - Held(prior.pos, side))
      && (b == a ==>
            SumOwed(n, b, index, side) == SumOwed(m, b, index, side) + Owed(c, index, side) - Owed(prior, index, side))
      && (b != a ==> SumHeld(n, b, side) == SumHeld(m, b, side))
      && (b != a ==> SumOwed(n, b, index, side) == SumOwed(m, b, index, side))
  {
    var n := m[(u, a) := c];
    assert n.Keys == m.Keys + {(u, a)};
    SumPut(m.Keys, HeldIn(m, b, side), HeldIn(n, b, side), (u, a));
    SumPut(m.Keys, OwedIn(m, b, index, side), OwedIn(n, b, index, side), (u, a));
  }

  /** Raising the pool index raises what is owed by the rise times everything held. */
  lemma OwedShift(m: Accounts, a: Address, index: int, rise: int, side: Side)
    ensures SumOwed(m, a, index + rise, side) == SumOwed(m, a, index, side) + rise * SumHeld(m, a, side)
  {
    var f, g, h := OwedIn(m, a, index, side), HeldIn(m, a, side), OwedIn(m, a, index + rise, side);
    forall k | k in m.Keys
      ensures h(k) == f(k) + rise * g(k)
    {
      if k.1 == a {
        var x, y := Held(m[k].pos, side), index - Snapshot(m[k].rew, side);
        assert x * (y + rise) == x * y + rise * x;
      }
    }
    SumShift(m.Keys, f, g, h, rise);
  }

  lemma HeldNonNeg(s: State, a: Address, side: Side)
    requires Sound(s)
    ensures 0 <= SumHeld(s.accounts, a, side)
  {
    hide Balanced, FeesAccounted, AssetSound;
    var f := HeldIn(s.accounts, a, side);
    forall k | k in s.accounts.Keys
      ensures 0 <= f(k)
    {
      assert AccountSound(s.accounts[k], AssetOf(s, k.1));
    }
    SumNonNeg(s.accounts.Keys, f);
  }

  /** Advancing moves only indexes and emission. */
  lemma AdvanceFrame(r: Asset, now: nat, side: Side)
    ensures var q := AdvanceRewards(r, now);
      Granted(q, side) == Granted(r, side) && Total(q, side) == Total(r, side) && Unowned(q, side) == Unowned(r, side)
  {
    hide ComputeIndexAdvance;
  }

  /** The record-level effect of advancing the pool on one side. */
  lemma AdvanceEffect(r: Asset, now: nat, side: Side, held: int)
    requires AssetSound(r, now) && 0 <= held <= Total(r, side)
    ensures var q := AdvanceRewards(r, now);
      held * (RewardIndex(q, side) - RewardIndex(r, side)) <= RATE_SCALE * (Emitted(q, side) - Emitted(r, side))
  {
    hide Balanced, FeesAccounted;
    var st := r.rewards.GetOr(AssetRewards(0, 0, 0, 0, now));
    if st.lastTs < now {
      AdvanceWithinEmission(st.supplySpeed, now - st.lastTs, Total(r, side), held);
      AdvanceWithinEmission(st.borrowSpeed, now - st.lastTs, Total(r, side), held);
    } else {
      assert held * (RewardIndex(r, side) - RewardIndex(r, side)) == 0;
    }
  }

  lemma AdvanceSlack(s: State, a: Address, side: Side)
    requires Sound(s)
    ensures var t := PutAsset(s, a, AdvanceRewards(AssetOf(s, a), s.now));
      && Gap(t, a, side) == Gap(s, a, side)
      && (Gap(s, a, side) == 0 ==> Slack(t, a, side) >= Slack(s, a, side))
  {
    hide Sound, SumHeld, SumOwed, AdvanceRewards, AssetSound, RewardIndex, Granted, Emitted, Total, Unowned;
    AssetOfSound(s, a);
    var r, q := AssetOf(s, a), AdvanceRewards(AssetOf(s, a), s.now);
    var held := SumHeld(s.accounts, a, side);
    AdvanceFrame(r, s.now, side);
    if Gap(s, a, side) == 0 {
      HeldNonNeg(s, a, side);
      UnownedNonNeg(r, s.now, side);
      AdvanceEffect(r, s.now, side, held);
      var rise := RewardIndex(q, side) - RewardIndex(r, side);
      OwedShift(s.accounts, a, RewardIndex(r, side), rise, side);
      assert rise * held == held * rise;
    }
  }

  lemma UnownedNonNeg(r: Asset, now: nat, side: Side)
    requires AssetSound(r, now)
    ensures 0 <= Unowned(r, side)
  {
    PremiumsNonNeg(r, now);
  }

  lemma AdvanceFlat(r: Asset, now: nat)
    requires FlatAsset(r)
    ensures FlatAsset(AdvanceRewards(r, now)) && GrantedBoth(AdvanceRewards(r, now)) == GrantedBoth(r)
  {
    hide ComputeIndexAdvance;
  }

  lemma PutAssetKeepsIf(s: State, a: Address, q: Asset)
    requires Flat(s) && FlatAsset(q) && GrantedBoth(q) == GrantedBoth(AssetOf(s, a))
    requires forall side :: Gap(PutAsset(s, a, q), a, side) == Gap(s, a, side)
    requires forall side :: Gap(s, a, side) == 0 ==> Slack(PutAsset(s, a, q), a, side) >= Slack(s, a, side)
    ensures Keeps(s, PutAsset(s, a, q), 0)
  {
    hide SumGranted, FlatAsset, GrantedBoth;
    assert GrantedBoth(NO_ASSET) == 0 by { NothingGranted(); }
    PutAssetGranted(s.assets, a, q);
    PutAssetElsewhere(s, a, q);
    hide Gap, Slack;
  }

  lemma NothingGranted()
    ensures GrantedBoth(NO_ASSET) == 0
  {
  }

  lemma PutAssetElsewhere(s: State, a: Address, q: Asset)
    ensures forall b, side | b != a ::
              && Gap(PutAsset(s, a, q), b, side) == Gap(s, b, side)
              && Slack(PutAsset(s, a, q), b, side) == Slack(s, b, side)
  {
    hide SumHeld, SumOwed, Total, Unowned, RewardIndex, Emitted, Granted;
  }

  /** Advancing a pool promises at most what it emits, because the positions fit in the total. */
  lemma AdvanceKeeps(s: State, a: Address)
    requires Sound(s) && Flat(s)
    ensures Keeps(s, PutAsset(s, a, AdvanceRewards(AssetOf(s, a), s.now)), 0)
  {
    hide Sound, Gap, Slack, Flat, AdvanceRewards, FlatAsset, Keeps, PutAsset, GrantedBoth;
    FlatReads(s, a, a);
    AdvanceFlat(AssetOf(s, a), s.now);
    forall side
      ensures var t := PutAsset(s, a, AdvanceRewards(AssetOf(s, a), s.now));
        && Gap(t, a, side) == Gap(s, a, side)
        && (Gap(s, a, side) == 0 ==> Slack(t, a, side) >= Slack(s, a, side))
    {
      AdvanceSlack(s, a, side);
    }
    PutAssetKeepsIf(s, a, AdvanceRewards(AssetOf(s, a), s.now));
  }

  lemma PremiumsNonNeg(r: Asset, now: nat)
    requires AssetSound(r, now)
    ensures 0 <= r.book.premiums
  {
  }

  // ---------------------------------------------------------------- one account at a time

  /** The exact effect of writing one account. */
  lemma PutAccountEffect(s: State, u: Address, a: Address, c: Account, b: Address, side: Side)
    ensures var t := PutAccount(s, u, a, c);
      var index := RewardIndex(AssetOf(s, a), side);
      && (b == a ==>
            && Gap(t, b, side) == Gap(s, b, side) - Held(c.pos, side) + Held(AccountOf(s, u, a).pos, side)
            && Slack(t, b, side) == Slack(s, b, side) - Owed(c, index, side) + Owed(AccountOf(s, u, a), index, side))
      && (b != a ==> Gap(t, b, side) == Gap(s, b, side) && Slack(t, b, side) == Slack(s, b, side))
  {
    hide SumHeld, SumOwed, Owed, Held, Total, Unowned, Emitted, Granted, RewardIndex;
    PutAccountSums(s.accounts, u, a, c, b, RewardIndex(AssetOf(s, b), side), side);
  }

  lemma PutAccountKeeps(s: State, u: Address, a: Address, c: Account)
    requires Flat(s) && FlatPosition(c.pos)
    requires forall side ::
               && Held(c.pos, side) == Held(AccountOf(s, u, a).pos, side)
               && Owed(c, RewardIndex(AssetOf(s, a), side), side)
                    <= Owed(AccountOf(s, u, a), RewardIndex(AssetOf(s, a), side), side)
    ensures Keeps(s, PutAccount(s, u, a, c), 0)
  {
    hide Gap, Slack, Owed, Held, RewardIndex, FlatPosition, SumGranted;
    forall b, side
      ensures Gap(PutAccount(s, u, a, c), b, side) == Gap(s, b, side)
      ensures Slack(PutAccount(s, u, a, c), b, side) >= Slack(s, b, side)
    {
      PutAccountEffect(s, u, a, c, b, side);
    }
  }

  /** Folding pending rewards into the counters owes no more than before. */
  lemma FoldOwesNoMore(c: Account, r: Asset, side: Side)
    requires AccountSound(c, r) && r.rewards.Some?
    ensures var n := c.(rew := AccrueFromIndexes(c.rew, r.rewards.value, c.pos.deposited, c.pos.borrowed));
      Owed(n, RewardIndex(r, side), side) <= Owed(c, RewardIndex(r, side), side)
  {
    FoldNeverGains(c.pos.deposited, r.rewards.value.supplyIndex, c.rew.supplySnapshot);
    FoldNeverGains(c.pos.borrowed, r.rewards.value.borrowIndex, c.rew.borrowSnapshot);
    assert c.pos.deposited * (r.rewards.value.supplyIndex - r.rewards.value.supplyIndex) == 0;
    assert c.pos.borrowed * (r.rewards.value.borrowIndex - r.rewards.value.borrowIndex) == 0;
  }

  lemma FoldKeeps(s: State, u: Address, a: Address)
    requires Sound(s) && Flat(s) && AssetOf(s, a).rewards.Some?
    ensures var c := AccountOf(s, u, a);
      Keeps(s, PutAccount(s, u, a,
        c.(rew := AccrueFromIndexes(c.rew, AssetOf(s, a).rewards.value, c.pos.deposited, c.pos.borrowed))), 0)
  {
    hide Sound, Flat, Owed, AccrueFromIndexes, AccountSound, RewardIndex, Keeps, FlatPosition;
    FlatReads(s, u, a);
    AccountOfSound(s, u, a);
    var c, r := AccountOf(s, u, a), AssetOf(s, a);
    var n := c.(rew := AccrueFromIndexes(c.rew, r.rewards.value, c.pos.deposited, c.pos.borrowed));
    forall side
      ensures Owed(n, RewardIndex(r, side), side) <= Owed(c, RewardIndex(r, side), side)
    {
      FoldOwesNoMore(c, r, side);
    }
    PutAccountKeeps(s, u, a, n);
  }

  lemma TouchKeeps(s: State, u: Address, a: Address, p: Position)
    requires Sound(s) && Flat(s) && p == AccountOf(s, u, a).pos
    ensures Keeps(s, Touch(s, u, a, p), 0)
  {
    hide Sound, AssetSound, Balanced, AdvanceRewards, AccrueFromIndexes, Keeps, Grows;
    AssetOfSound(s, a);
    AdvanceRewardsSound(AssetOf(s, a), s.now);
    var t := PutAsset(s, a, AdvanceRewards(AssetOf(s, a), s.now));
    PutAssetSound(s, a, AdvanceRewards(AssetOf(s, a), s.now));
    AdvanceKeeps(s, a);
    KeepsFlat(s, t, 0);
    FoldKeeps(t, u, a);
    assert AccountOf(t, u, a) == AccountOf(s, u, a);
    assert AssetOf(t, a) == AdvanceRewards(AssetOf(s, a), s.now);
    KeepsTrans(s, t, Touch(s, u, a, p), 0, 0);
  }

  lemma KeepsFlat(s: State, t: State, taken: int)
    requires Keeps(s, t, taken)
    ensures Flat(t) && s.now == t.now
  {
    hide Gap, Slack, Flat, SumGranted;
  }

  /** The account has been folded at the current pool indexes. */
  predicate Settled(s: State, u: Address, a: Address) {
    && AssetOf(s, a).rewards.Some? && AssetOf(s, a).rewards.value.lastTs == s.now
    && AccountOf(s, u, a).rew.supplySnapshot == SupplyRewardIndex(AssetOf(s, a))
    && AccountOf(s, u, a).rew.borrowSnapshot == BorrowRewardIndex(AssetOf(s, a))
  }

  lemma TouchSettles(s: State, u: Address, a: Address, p: Position)
    requires Sound(s)
    ensures Settled(Touch(s, u, a, p), u, a)
    ensures forall v, b :: Settled(s, v, b) ==> Settled(Touch(s, u, a, p), v, b)
  {
    hide Balanced, FeesAccounted, ComputeIndexAdvance, Sound;
    AssetOfSound(s, a);
    AdvanceRewardsSound(AssetOf(s, a), s.now);
  }

  /** A changed balance changes nothing owed on a settled account, and a reduced one owes less. */
  lemma BalanceOwed(s: State, u: Address, a: Address, q: Position, side: Side)
    requires Sound(s)
    requires Settled(s, u, a) || Held(q, side) <= Held(AccountOf(s, u, a).pos, side)
    ensures var c := AccountOf(s, u, a);
      var index := RewardIndex(AssetOf(s, a), side);
      Owed(c.(pos := Stored(q)), index, side) <= Owed(c, index, side)
  {
    hide Sound;
    AccountOfSound(s, u, a);
    var c, index := AccountOf(s, u, a), RewardIndex(AssetOf(s, a), side);
    assert Held(Stored(q), side) == Held(q, side);
    if Settled(s, u, a) {
      assert Held(q, side) * (index - Snapshot(c.rew, side)) == 0 == Held(c.pos, side) * (index - Snapshot(c.rew, side));
    } else {
      MulMono(Held(q, side), Held(c.pos, side), index - Snapshot(c.rew, side));
    }
  }

  /** Writing a position moves exactly its own gap. */
  lemma PutPositionEffect(s: State, u: Address, a: Address, q: Position)
    requires Sound(s) && Flat(s) && FlatPosition(q)
    requires Settled(s, u, a) || forall side :: Held(q, side) <= Held(AccountOf(s, u, a).pos, side)
    ensures var t := PutPosition(s, u, a, q);
      && Flat(t)
      && (forall b, side :: Slack(t, b, side) >= Slack(s, b, side))
      && (forall side :: Gap(t, a, side) == Gap(s, a, side) - Held(q, side) + Held(AccountOf(s, u, a).pos, side))
      && (forall b, side | b != a :: Gap(t, b, side) == Gap(s, b, side))
      && SumGranted(t.assets) == SumGranted(s.assets) && t.grants == s.grants
      && t.grantedTotal == s.grantedTotal && t.paidTotal == s.paidTotal && s.now == t.now
      && (forall v, b :: Settled(s, v, b) ==> Settled(t, v, b))
  {
    hide Sound, Gap, Slack, Owed, SumGranted, RewardIndex;
    var n := AccountOf(s, u, a).(pos := Stored(q));
    assert PutPosition(s, u, a, q) == PutAccount(s, u, a, n);
    forall b, side
      ensures Slack(PutPosition(s, u, a, q), b, side) >= Slack(s, b, side)
      ensures b == a ==>
        Gap(PutPosition(s, u, a, q), b, side) == Gap(s, b, side) - Held(q, side) + Held(AccountOf(s, u, a).pos, side)
      ensures b != a ==> Gap(PutPosition(s, u, a, q), b, side) == Gap(s, b, side)
    {
      PutAccountEffect(s, u, a, n, b, side);
      BalanceOwed(s, u, a, q, side);
    }
  }

  /** Posting moves the position and the aggregate together. */
  lemma PostKeeps(s: State, u: Address, a: Address, p: Position, e: Entry)
    requires Sound(s) && Flat(s) && p == AccountOf(s, u, a).pos
    requires Settled(s, u, a) || (e.deposited <= 0 && e.borrowed <= 0)
    ensures Keeps(s, Post(s, u, a, p, e), 0)
    ensures forall v, b :: Settled(s, v, b) ==> Settled(Post(s, u, a, p, e), v, b)
  {
    hide Sound, SumGranted, Gap, Slack, Flat, Settled, FlatPosition;
    FlatReads(s, u, a);
    assert FlatPosition(p.(deposited := p.deposited + e.deposited, borrowed := p.borrowed + e.borrowed)) by {
      SameSnapshots(p, e.deposited, e.borrowed);
    }
    var q := p.(deposited := p.deposited + e.deposited, borrowed := p.borrowed + e.borrowed);
    PutPositionEffect(s, u, a, q);
    var t := PutPosition(s, u, a, q);
    PostTotals(t, a, e);
    assert PutAsset(t, a, PostAsset(AssetOf(t, a), e)) == Post(s, u, a, p, e);
    SettledAfterTotals(t, a, e);
  }

  lemma SameSnapshots(p: Position, deposited: int, borrowed: int)
    requires FlatPosition(p)
    ensures FlatPosition(p.(deposited := p.deposited + deposited, borrowed := p.borrowed + borrowed))
  {
  }

  lemma SettledAfterTotals(s: State, a: Address, e: Entry)
    ensures forall v, b :: Settled(s, v, b) ==> Settled(PutAsset(s, a, PostAsset(AssetOf(s, a), e)), v, b)
  {
  }

  /** The aggregate half of a posting. */
  lemma PostTotals(s: State, a: Address, e: Entry)
    requires Flat(s)
    ensures var t := PutAsset(s, a, PostAsset(AssetOf(s, a), e));
      && Flat(t)
      && (forall b, side :: Slack(t, b, side) == Slack(s, b, side))
      && Gap(t, a, SupplySide) == Gap(s, a, SupplySide) + e.deposited
      && Gap(t, a, BorrowSide) == Gap(s, a, BorrowSide) + e.borrowed
      && (forall b, side | b != a :: Gap(t, b, side) == Gap(s, b, side))
      && SumGranted(t.assets) == SumGranted(s.assets)
      && t.grants == s.grants && t.grantedTotal == s.grantedTotal && t.paidTotal == s.paidTotal && t.now == s.now
  {
    hide SumHeld, SumOwed, SumGranted;
    FlatReads(s, a, a);
    PutAssetGranted(s.assets, a, PostAsset(AssetOf(s, a), e));
  }

  // ---------------------------------------------------------------- grants

  ghost function OutstandingIn(m: map<Address, seq<Vesting.Grant>>): Address -> int {
    (u: Address) => if u in m then Vesting.Outstanding(m[u]) else 0
  }

  /** Everything granted is either paid out or still outstanding in some user's grants. */
  ghost predicate GrantsBacked(s: State) {
    && (forall u | u in s.grants :: Vesting.Within(s.grants[u], s.now))
    && s.paidTotal + SumOver(s.grants.Keys, OutstandingIn(s.grants)) == s.grantedTotal
  }

  lemma PutGrants(m: map<Address, seq<Vesting.Grant>>, u: Address, gs: seq<Vesting.Grant>)
    ensures SumOver(m[u := gs].Keys, OutstandingIn(m[u := gs]))
      == SumOver(m.Keys, OutstandingIn(m)) + Vesting.Outstanding(gs) - if u in m then Vesting.Outstanding(m[u]) else 0
  {
    assert m[u := gs].Keys == m.Keys + {u};
    SumPut(m.Keys, OutstandingIn(m), OutstandingIn(m[u := gs]), u);
  }

  lemma NoGrants(now: nat)
    ensures Vesting.Within([], now) && Vesting.Outstanding([]) == 0
  {
  }

  lemma PushGrantBacked(s: State, u: Address, amount: int)
    requires GrantsBacked(s) && amount > 0
    ensures GrantsBacked(PushGrant(s, u, amount))
  {
    hide Vesting.Within, Vesting.Outstanding;
    var g := Vesting.Grant(amount, 0, s.now, s.vestCliff, s.vestDuration);
    var gs := GrantsOf(s, u);
    NoGrants(s.now);
    Vesting.NewGrantOutstanding(gs, g, s.now);
    PutGrants(s.grants, u, gs + [g]);
  }

  lemma VestBacked(s: State, u: Address, available: int)
    requires GrantsBacked(s) && VestClaimable(s, u, available).Ok?
    ensures GrantsBacked(VestClaimable(s, u, available).value)
  {
    hide Vesting.Within, Vesting.Outstanding, Vesting.TotalReleasable, Vesting.Remaining;
    var gs := GrantsOf(s, u);
    NoGrants(s.now);
    Vesting.ClaimPaysOutstanding(gs, s.now);
    PutGrants(s.grants, u, Vesting.Remaining(gs, s.now));
  }

  lemma WaitBacked(s: State, seconds: nat)
    requires GrantsBacked(s)
    ensures GrantsBacked(s.(now := s.now + seconds))
  {
    forall u | u in s.grants
      ensures Vesting.Within(s.grants[u], s.now + seconds)
    {
      Vesting.WithinLater(s.grants[u], s.now, s.now + seconds);
    }
  }

  // ---------------------------------------------------------------- calls

  lemma BodyKeeps(k: Kind, s: State, u: Address, a: Address, amount: int)
    requires Sound(s) && Flat(s) && Body(k, Accrue(s, a), u, a, amount).Ok?
    ensures Keeps(s, Body(k, Accrue(s, a), u, a, amount).value, 0)
  {
    hide Sound, Flat, Keeps, Accrue, Realised, Touch, Post, Settled;
    var t := Accrue(s, a);
    AccrueKeeps(s, a);
    AccrueSound(s, a);
    KeepsFlat(s, t, 0);
    var p := Realised(t, u, a);
    FlatRealised(t, u, a);
    RealisedSound(t, u, a);
    TouchSound(t, u, a, p);
    TouchKeeps(t, u, a, p);
    TouchSettles(t, u, a, p);
    var touched := Touch(t, u, a, p);
    KeepsFlat(t, touched, 0);
    KeepsTrans(s, t, touched, 0, 0);
    var e := EntryFor(k, p, AssetOf(t, a).balance, amount).value;
    PostKeeps(touched, u, a, p, e);
    KeepsTrans(s, touched, Post(touched, u, a, p, e), 0, 0);
  }

  lemma {:induction false} BodiesKeep(k: Kind, s: State, u: Address, ops: seq<BatchOp>)
    requires Sound(s) && Flat(s) && Batches.AllPositive(ops) && Bodies(k, s, u, ops).Ok?
    ensures Keeps(s, Bodies(k, s, u, ops).value, 0)
  {
    hide Sound, Flat, Keeps, Accrue, Body;
    if |ops| == 0 {
      KeepsReflexive(s);
    } else {
      var before, op := ops[..|ops| - 1], ops[|ops| - 1];
      BodiesKeep(k, s, u, before);
      BodiesSound(k, s, u, before);
      var t := Bodies(k, s, u, before).value;
      KeepsFlat(s, t, 0);
      BodyKeeps(k, t, u, op.asset, op.amount);
      KeepsTrans(s, t, Bodies(k, s, u, ops).value, 0, 0);
    }
  }

  lemma {:induction false} AccrueAllKeeps(s: State, list: seq<Address>)
    requires Flat(s)
    ensures Keeps(s, AccrueAll(s, list), 0)
  {
    hide Flat, Keeps, Accrue;
    if |list| == 0 {
      KeepsReflexive(s);
    } else {
      var t := AccrueAll(s, list[..|list| - 1]);
      AccrueAllKeeps(s, list[..|list| - 1]);
      KeepsFlat(s, t, 0);
      AccrueKeeps(t, list[|list| - 1]);
      KeepsTrans(s, t, AccrueAll(s, list), 0, 0);
    }
  }

  lemma BatchKeeps(k: Kind, s: State, u: Address, list: seq<Address>, ops: seq<BatchOp>)
    requires Sound(s) && Flat(s)
    requires ValidateOps(AccrueAll(s, list), ops).Pass? && Bodies(k, AccrueAll(s, list), u, ops).Ok?
    ensures Keeps(s, Bodies(k, AccrueAll(s, list), u, ops).value, 0)
  {
    hide Sound, Flat, Keeps, Accrue, Bodies, ValidateOps;
    var t := AccrueAll(s, list);
    AccrueAllKeeps(s, list);
    AccrueAllSound(s, list);
    KeepsFlat(s, t, 0);
    ValidOpsPositive(t, ops);
    BodiesKeep(k, t, u, ops);
    KeepsTrans(s, t, Bodies(k, t, u, ops).value, 0, 0);
  }

  lemma PrepareKeeps(s: State, l: Address, u: Address, c: Address, d: Address)
    requires Sound(s) && Flat(s)
    ensures var t := PrepareLiquidation(s, l, u, c, d);
      && Keeps(s, t, 0) && Sound(t) && Flat(t)
      && Settled(t, u, d) && Settled(t, u, c) && Settled(t, l, c)
  {
    hide Sound, Flat, Keeps, Accrue, Realised, Touch, Settled;
    var t0, t := Accrue(s, d), Accrue(Accrue(s, d), c);
    AccrueKeeps(s, d);
    AccrueSound(s, d);
    KeepsFlat(s, t0, 0);
    AccrueKeeps(t0, c);
    AccrueSound(t0, c);
    KeepsFlat(t0, t, 0);
    KeepsTrans(s, t0, t, 0, 0);
    var t1 := Touch(t, u, d, Realised(t, u, d));
    TouchStage(s, t, u, d);
    var t2 := Touch(t1, u, c, Realised(t, u, c));
    RealisedAcrossTouch(t, u, d, u, c);
    TouchStage(s, t1, u, c);
    TouchStage(s, t2, l, c);
  }

  lemma RealisedAcrossTouch(s: State, u: Address, a: Address, v: Address, b: Address)
    ensures Realised(Touch(s, u, a, Realised(s, u, a)), v, b) == Realised(s, v, b)
  {
    hide Realised, Touch, SameMarket;
    TouchUnseen(s, u, a, Realised(s, u, a));
  }

  /** One more touch at the end of a chain that started at `s`. */
  lemma TouchStage(s: State, t: State, u: Address, a: Address)
    requires Sound(t) && Flat(t) && Keeps(s, t, 0)
    ensures var n := Touch(t, u, a, Realised(t, u, a));
      && Keeps(s, n, 0) && Sound(n) && Flat(n)
      && Settled(n, u, a) && (forall v, b :: Settled(t, v, b) ==> Settled(n, v, b))
  {
    hide Sound, Flat, Keeps, Realised, Touch, Settled;
    var p := Realised(t, u, a);
    FlatRealised(t, u, a);
    RealisedSound(t, u, a);
    TouchSound(t, u, a, p);
    TouchKeeps(t, u, a, p);
    TouchSettles(t, u, a, p);
    KeepsFlat(t, Touch(t, u, a, p), 0);
    KeepsTrans(s, t, Touch(t, u, a, p), 0, 0);
  }

  // ---------------------------------------------------------------- liquidation

  /** What one side of one asset loses when `lost` of the debt asset's total is not matched by a position. */
  function LostAt(a: Address, side: Side, d: Address, lost: int): int {
    if a == d && side.BorrowSide? then lost else 0
  }

  /** As `Keeps`, but `lost` units leave the total borrowed of `d` and no position. */
  ghost predicate Loses(s: State, t: State, d: Address, lost: int) {
    && Flat(t)
    && t.grants == s.grants && t.grantedTotal == s.grantedTotal && t.paidTotal == s.paidTotal && s.now == t.now
    && SumGranted(t.assets) == SumGranted(s.assets)
    && forall a, side ::
         && Gap(t, a, side) == Gap(s, a, side) - LostAt(a, side, d, lost)
         && (Gap(s, a, side) == 0 ==> Slack(t, a, side) >= Slack(s, a, side))
  }

  lemma KeepsThenLoses(s: State, t: State, r: State, d: Address, lost: int)
    requires Keeps(s, t, 0) && Loses(t, r, d, lost)
    ensures Loses(s, r, d, lost)
  {
    hide Flat, Gap, Slack, SumGranted;
  }

  /**
   * The settlement of a liquidation with distinct assets keeps every gap. With one asset on both sides, the
   * collateral leg overwrites the repaid debt, and that gap opens by the repaid amount.
   */
  lemma SettleEffect(s: State, l: Address, u: Address, c: Address, d: Address, repaid: int, seized: int)
    requires Sound(s) && Flat(s) && Fresh(AssetOf(s, c), s.now) && Fresh(AssetOf(s, d), s.now)
    requires Settled(s, u, d) && Settled(s, u, c) && Settled(s, l, c)
    requires 0 < repaid <= Realised(s, u, d).borrowed && 0 <= seized <= Realised(s, u, c).deposited
    ensures Loses(s, SettleLiquidation(s, l, u, c, d, repaid, seized), d, if c == d then repaid else 0)
  {
    hide Sound, Flat, Realised, Post, PutPosition, Gap, Slack, SumGranted, Settled, Fresh;
    var debt, held := Realised(s, u, d), Realised(s, u, c);
    FlatRealised(s, u, d);
    FlatRealised(s, u, c);
    FlatReads(s, u, c);
    var e := Entry(0, -repaid, repaid, 0, 0);
    var s1 := Post(s, u, d, debt, e);
    RealisedSound(s, u, d);
    RealisedSound(s, u, c);
    PostSound(s, u, d, debt, e);
    PostKeeps(s, u, d, debt, e);
    PostWrites(s, u, d, debt, e);
    var q := held.(deposited := held.deposited - seized);
    PutPositionEffect(s1, u, c, q);
    PostFrame(s, u, d, debt, e);
    SnapshotsBelow(s, s1, c, held, q);
    PutPositionSound(s1, u, c, q);
    PutPositionFrame(s1, u, c, q);
    var s2 := PutPosition(s1, u, c, q);
    FlatRealised(s2, l, c);
    FlatReads(s2, l, c);
    var gained := Realised(s2, l, c);
    PutPositionEffect(s2, l, c, gained.(deposited := gained.deposited + seized));
  }

  lemma PostWrites(s: State, u: Address, a: Address, p: Position, e: Entry)
    ensures var q := p.(deposited := p.deposited + e.deposited, borrowed := p.borrowed + e.borrowed);
      AccountOf(Post(s, u, a, p, e), u, a).pos == Stored(q)
    ensures forall v, b | (v, b) != (u, a) :: AccountOf(Post(s, u, a, p, e), v, b) == AccountOf(s, v, b)
  {
  }

  lemma SnapshotsBelow(s: State, t: State, a: Address, p: Position, q: Position)
    requires Fresh(AssetOf(s, a), s.now) && Grows(AssetOf(s, a), AssetOf(t, a)) && PositionSound(p, AssetOf(s, a))
    requires q.supplySnapshot == p.supplySnapshot && q.borrowSnapshot == p.borrowSnapshot
    requires q.deposited >= 0 && q.borrowed >= 0
    ensures PositionSound(q, AssetOf(t, a))
  {
  }

  /** No interest. */
  predicate ZeroRateCall(call: Call) {
    call.DoSetInterestParams? ==> call.params.ZeroRate()
  }

  /** The repayment that a call takes off an asset's total borrowed but leaves in the debtor's position. */
  function LostBy(s: State, call: Call, a: Address): int {
    if call.DoLiquidate? && call.collateral == call.debtAsset == a && Invoke(s, call).Ok? then
      Quoted(s, call.liquidator, call.user, a, a, call.amount).0
    else 0
  }

  lemma LiquidateLoses(s: State, l: Address, u: Address, c: Address, d: Address, amount: int)
    requires Sound(s) && Flat(s) && Liquidate(s, l, u, c, d, amount).Ok?
    ensures Quoted(s, l, u, c, d, amount).0 > 0
    ensures Loses(s, Liquidate(s, l, u, c, d, amount).value, d, if c == d then Quoted(s, l, u, c, d, amount).0 else 0)
  {
    hide Sound, Flat, Keeps, Loses, Realised, Settled, PrepareLiquidation, SettleLiquidation, QuoteLiquidation;
    var t0 := PrepareLiquidation(s, l, u, c, d);
    PrepareKeeps(s, l, u, c, d);
    PrepareLiquidationSound(s, l, u, c, d);
    QuoteBounds(t0, u, c, d, amount);
    var (repaid, seized) := QuoteLiquidation(t0, u, c, d, amount).value;
    SettleEffect(t0, l, u, c, d, repaid, seized);
    KeepsThenLoses(s, t0, SettleLiquidation(t0, l, u, c, d, repaid, seized), d, if c == d then repaid else 0);
  }

  lemma {:induction false} AccrueUncollateralisedKeeps(s: State, u: Address, list: seq<Address>)
    requires Flat(s) && AccrueUncollateralised(s, u, list).Ok?
    ensures var t := AccrueUncollateralised(s, u, list).value;
      Keeps(s, t, 0) && t.accounts == s.accounts
  {
    hide Flat, Keeps, Realised, AccrueAsset;
    if |list| == 0 {
      KeepsReflexive(s);
    } else {
      var t := AccrueUncollateralised(s, u, list[..|list| - 1]).value;
      AccrueUncollateralisedKeeps(s, u, list[..|list| - 1]);
      KeepsFlat(s, t, 0);
      AccrueKeeps(t, list[|list| - 1]);
      KeepsTrans(s, t, Accrue(t, list[|list| - 1]), 0, 0);
    }
  }

  lemma WriteoffKeeps(s: State, u: Address, d: Address)
    requires Sound(s) && Flat(s) && WriteoffBadDebt(s, u, d).Ok?
    ensures Keeps(s, WriteoffBadDebt(s, u, d).value, 0)
  {
    hide Sound, Flat, Keeps, Realised, Accrue, Post, AccrueUncollateralised;
    var t := Accrue(s, d);
    AccrueKeeps(s, d);
    AccrueSound(s, d);
    KeepsFlat(s, t, 0);
    FlatRealised(t, u, d);
    RealisedSound(t, u, d);
    var debt := Realised(t, u, d);
    if debt.borrowed != 0 {
      var end := AccrueUncollateralised(t, u, s.listed).value;
      AccrueUncollateralisedSound(t, u, s.listed);
      AccrueUncollateralisedKeeps(t, u, s.listed);
      KeepsFlat(t, end, 0);
      KeepsTrans(s, t, end, 0, 0);
      assert AccountOf(end, u, d) == AccountOf(t, u, d);
      var e := Entry(0, -debt.borrowed, 0, 0, debt.borrowed);
      PostKeeps(end, u, d, debt, e);
      KeepsTrans(s, end, Post(end, u, d, debt, e), 0, 0);
    }
  }

  /** After an accrual, a change that the sums do not see. */
  lemma AccrueThenPutKeeps(s: State, a: Address, q: Asset)
    requires Flat(s) && FlatAsset(q)
    requires var r := AssetOf(Accrue(s, a), a);
      && q.totalDeposited - q.book.premiums == r.totalDeposited - r.book.premiums && q.totalBorrowed == r.totalBorrowed
      && q.rewards == r.rewards
      && q.book.emittedSupply == r.book.emittedSupply && q.book.emittedBorrow == r.book.emittedBorrow
      && q.book.grantedSupply == r.book.grantedSupply && q.book.grantedBorrow == r.book.grantedBorrow
    ensures Keeps(s, PutAsset(Accrue(s, a), a, q), 0)
  {
    hide Flat, FlatAsset, Keeps, Accrue, PutAsset;
    AccrueKeeps(s, a);
    KeepsFlat(s, Accrue(s, a), 0);
    PutAssetKeeps(Accrue(s, a), a, q);
    KeepsTrans(s, Accrue(s, a), PutAsset(Accrue(s, a), a, q), 0, 0);
  }

  lemma AccruedFlat(s: State, a: Address)
    requires Flat(s)
    ensures FlatAsset(AssetOf(Accrue(s, a), a)) && FlatAsset(AssetOf(s, a))
  {
    hide Flat, FlatAsset, Keeps;
    AccrueKeeps(s, a);
    KeepsFlat(s, Accrue(s, a), 0);
    FlatReads(Accrue(s, a), a, a);
    FlatReads(s, a, a);
  }

  lemma FlashLoanKeeps(s: State, a: Address, amount: int, ok: bool)
    requires Flat(s) && FlashLoan(s, a, amount, ok).Ok?
    ensures Keeps(s, FlashLoan(s, a, amount, ok).value, 0)
  {
    hide Flat, Keeps, Accrue, PremiumRoundedUp;
    AccruedFlat(s, a);
    var r, premium := AssetOf(Accrue(s, a), a), PremiumRoundedUp(amount, AssetOf(s, a).flash.value.premiumBps);
    AccrueThenPutKeeps(s, a,
      r.(balance := r.balance - amount + (amount + premium),
         fees := r.fees + premium,
         totalDeposited := r.totalDeposited - amount + (amount + premium),
         book := r.book.(premiums := r.book.premiums + premium)));
  }

  lemma RecordFeeKeeps(s: State, a: Address, amount: int)
    requires Flat(s) && RecordProtocolFee(s, a, amount).Ok?
    ensures Keeps(s, RecordProtocolFee(s, a, amount).value, 0)
  {
    hide Flat, Keeps, Accrue;
    AccruedFlat(s, a);
    var r := AssetOf(Accrue(s, a), a);
    AccrueThenPutKeeps(s, a,
      r.(balance := r.balance + amount, fees := r.fees + amount,
         book := r.book.(feesRecorded := r.book.feesRecorded + amount)));
  }

  lemma WithdrawReservesKeeps(s: State, a: Address, amount: int)
    requires Flat(s) && WithdrawReserves(s, a, amount).Ok?
    ensures Keeps(s, WithdrawReserves(s, a, amount).value, 0)
  {
    hide Flat, Keeps, Accrue;
    AccruedFlat(s, a);
    var r := AssetOf(Accrue(s, a), a);
    AccrueThenPutKeeps(s, a,
      r.(balance := r.balance - amount, fees := r.fees - amount,
         book := r.book.(feesWithdrawn := r.book.feesWithdrawn + amount)));
  }

  /** Settings of one asset that no sum mentions. */
  lemma TermsKeep(s: State, a: Address, q: Asset)
    requires Flat(s)
    requires var r := AssetOf(s, a);
      q == r.(supported := q.supported, interest := q.interest, oracle := q.oracle, flash := q.flash, risk := q.risk,
              depositCap := q.depositCap, borrowCap := q.borrowCap,
              supplyCap := q.supplyCap, aggregateBorrowCap := q.aggregateBorrowCap)
      && SupplyIndex(q) == SupplyIndex(r) && BorrowIndex(q) == BorrowIndex(r)
    ensures Keeps(s, PutAsset(s, a, q), 0)
  {
    hide Keeps, Flat, PutAsset;
    FlatReads(s, a, a);
    PutAssetKeeps(s, a, q);
  }

  lemma GlobalSettingsKeep(s: State, t: State)
    requires Flat(s) && t.now == s.now && t.assets == s.assets && t.accounts == s.accounts
    requires t.grants == s.grants && t.grantedTotal == s.grantedTotal && t.paidTotal == s.paidTotal
    ensures Keeps(s, t, 0)
  {
    hide SumHeld, SumOwed, SumGranted;
  }

  lemma ConfigureKeeps(s: State, a: Address, supported: bool)
    requires Flat(s) && ApplyConfigureAsset(s, a, supported).Ok?
    ensures Keeps(s, ApplyConfigureAsset(s, a, supported).value, 0)
  {
    hide Flat, Keeps, AddAsset, Without;
    var r := AssetOf(s, a);
    var q := if supported then r.(supported := true, interest := Some(InterestOf(r, s.now))) else r.(supported := false);
    TermsKeep(s, a, q);
    var t, end := PutAsset(s, a, q), ApplyConfigureAsset(s, a, supported).value;
    KeepsFlat(s, t, 0);
    GlobalSettingsKeep(t, end);
    KeepsTrans(s, t, end, 0, 0);
  }

  lemma ActionKeeps(s: State, payload: ActionPayload, host: Host)
    requires Flat(s) && ApplyAction(s, payload, host).Ok?
    ensures Keeps(s, ApplyAction(s, payload, host).value, 0)
  {
    hide Flat, Keeps, AssetOf, PutAsset, RecordProtocolFee, WithdrawReserves, ApplyConfigureAsset, ValidatePayload;
    match payload {
      case ConfigureAsset(a, supported) => ConfigureKeeps(s, a, supported);
      case SetOraclePriceTo(a, price) =>
        TermsKeep(s, a, AssetOf(s, a).(oracle := Oracle.SetPrice(AssetOf(s, a).oracle, price, s.now).value));
      case UpdateAssetCaps(a, depositCap, borrowCap) =>
        TermsKeep(s, a, AssetOf(s, a).(depositCap := depositCap, borrowCap := borrowCap));
      case RecordFee(a, amount) => RecordFeeKeeps(s, a, amount);
      case WithdrawFees(a, _, amount) => WithdrawReservesKeeps(s, a, amount);
      case SetAssetRiskParams(a, risk) => TermsKeep(s, a, AssetOf(s, a).(risk := Some(risk)));
      case SetMinCollateralRatio(bps) => GlobalSettingsKeep(s, s.(minRatioBps := bps));
      case SetPaused(paused) => GlobalSettingsKeep(s, s.(paused := paused));
      case Upgrade(_) => GlobalSettingsKeep(s, s);
      case RecoverRewards(_, _) => GlobalSettingsKeep(s, s);
    }
  }

  lemma RewardSpeedsKeep(s: State, a: Address, supplySpeed: nat, borrowSpeed: nat)
    requires Sound(s) && Flat(s)
    ensures var r := AdvanceRewards(AssetOf(s, a), s.now);
      && r.rewards.Some?
      && Keeps(s, PutAsset(s, a,
                 r.(rewards := Some(r.rewards.value.(supplySpeed := supplySpeed, borrowSpeed := borrowSpeed)))), 0)
  {
    hide Sound, Flat, Keeps, AdvanceRewards, AssetSound;
    AssetOfSound(s, a);
    AdvanceRewardsSound(AssetOf(s, a), s.now);
    AdvanceKeeps(s, a);
    var r := AdvanceRewards(AssetOf(s, a), s.now);
    var t := PutAsset(s, a, r);
    KeepsFlat(s, t, 0);
    FlatReads(t, a, a);
    var q := r.(rewards := Some(r.rewards.value.(supplySpeed := supplySpeed, borrowSpeed := borrowSpeed)));
    PutAssetKeeps(t, a, q);
    assert PutAsset(t, a, q) == PutAsset(s, a, q);
    KeepsTrans(s, t, PutAsset(s, a, q), 0, 0);
  }

  lemma AssetSettingsKeep(s: State, call: Call)
    requires Sound(s) && Flat(s) && Invoke(s, call).Ok? && ZeroRateCall(call)
    requires call.DoSetInterestParams? || call.DoSetRewardSpeeds? || call.DoSetAggregateCap?
          || call.DoConfigureFlashLoan? || call.DoSetOraclePrice? || call.DoSetOracleBounds? || call.DoSetOracleMaxChange?
    ensures Keeps(s, Invoke(s, call).value, 0)
  {
    hide Sound, Flat, Keeps, AssetOf, PutAsset, Accrue, AdvanceRewards;
    var a := call.asset;
    var r := AssetOf(s, a);
    match call {
      case DoSetInterestParams(_, params) =>
        AccruedFlat(s, a);
        AccrueThenPutKeeps(s, a, AssetOf(Accrue(s, a), a).(params := Some(params)));
      case DoSetRewardSpeeds(_, supplySpeed, borrowSpeed) =>
        RewardSpeedsKeep(s, a, supplySpeed, borrowSpeed);
      case DoSetAggregateCap(_, supply, cap) =>
        TermsKeep(s, a, if supply then r.(supplyCap := cap) else r.(aggregateBorrowCap := cap));
      case DoConfigureFlashLoan(_, config) => TermsKeep(s, a, r.(flash := Some(config)));
      case DoSetOraclePrice(_, price) => TermsKeep(s, a, r.(oracle := Oracle.SetPrice(r.oracle, price, s.now).value));
      case DoSetOracleBounds(_, min, max) => TermsKeep(s, a, r.(oracle := Oracle.SetBounds(r.oracle, min, max).value));
      case DoSetOracleMaxChange(_, bps) => TermsKeep(s, a, r.(oracle := r.oracle.(maxChangeBps := Some(bps))));
    }
  }

  // ---------------------------------------------------------------- claims

  /** Counters become grants one for one. */
  lemma ClearCountersKeeps(s: State, u: Address, a: Address)
    requires Flat(s)
    ensures Keeps(s, ClearCounters(s, u, a), AccountOf(s, u, a).rew.unclaimedSupply + AccountOf(s, u, a).rew.unclaimedBorrow)
  {
    hide Gap, Slack, SumGranted, Flat, ClearCounters;
    ClearCountersFlat(s, u, a);
    ClearCountersGranted(s, u, a);
    forall b, side
      ensures Gap(ClearCounters(s, u, a), b, side) == Gap(s, b, side)
      ensures Slack(ClearCounters(s, u, a), b, side) >= Slack(s, b, side)
    {
      CountersEffect(s, u, a, b, side);
    }
  }

  lemma ClearCountersFlat(s: State, u: Address, a: Address)
    requires Flat(s)
    ensures Flat(ClearCounters(s, u, a))
  {
    hide FlatAsset, FlatPosition, Credited, Cleared;
    FlatReads(s, u, a);
    CreditedFlat(AssetOf(s, a), AccountOf(s, u, a));
  }

  lemma CreditedFlat(r: Asset, c: Account)
    ensures FlatAsset(Credited(r, c.rew)) == FlatAsset(r) && Cleared(c).pos == c.pos
  {
  }

  lemma ClearCountersGranted(s: State, u: Address, a: Address)
    ensures var t := ClearCounters(s, u, a);
      var rew := AccountOf(s, u, a).rew;
      && SumGranted(t.assets) == SumGranted(s.assets) + rew.unclaimedSupply + rew.unclaimedBorrow
      && t.grants == s.grants && t.grantedTotal == s.grantedTotal && t.paidTotal == s.paidTotal && t.now == s.now
  {
    hide SumGranted;
    PutAssetGranted(s.assets, a, Credited(AssetOf(s, a), AccountOf(s, u, a).rew));
  }

  lemma CreditEffect(s: State, a: Address, rew: UserRewards, b: Address, side: Side)
    ensures var t := PutAsset(s, a, Credited(AssetOf(s, a), rew));
      && Gap(t, b, side) == Gap(s, b, side)
      && Slack(t, b, side) == Slack(s, b, side) - if b == a then RATE_SCALE * Unclaimed(rew, side) else 0
  {
    hide SumHeld, SumOwed;
  }

  lemma ClearedOwes(c: Account, index: int, side: Side)
    ensures Held(Cleared(c).pos, side) == Held(c.pos, side)
    ensures Owed(Cleared(c), index, side) == Owed(c, index, side) - RATE_SCALE * Unclaimed(c.rew, side)
  {
  }

  lemma CountersEffect(s: State, u: Address, a: Address, b: Address, side: Side)
    ensures var t := ClearCounters(s, u, a);
      Gap(t, b, side) == Gap(s, b, side) && Slack(t, b, side) == Slack(s, b, side)
  {
    hide Gap, Slack, Owed, Held, Cleared, Credited, Unclaimed, RewardIndex;
    var c := AccountOf(s, u, a);
    ClearedOwes(c, RewardIndex(AssetOf(s, a), side), side);
    PutAccountEffect(s, u, a, Cleared(c), b, side);
    CreditEffect(PutAccount(s, u, a, Cleared(c)), a, c.rew, b, side);
  }

  lemma RealizeUnclaimedKeeps(s: State, u: Address, a: Address)
    requires Sound(s) && Flat(s)
    ensures var (t, amount) := RealizeUnclaimed(s, u, a);
      Keeps(s, t, amount) && amount >= 0
  {
    hide Sound, Flat, Keeps, Accrue, Touch, Realised, Settled, ClearCounters;
    var t := Accrue(s, a);
    AccrueKeeps(s, a);
    AccrueSound(s, a);
    KeepsFlat(s, t, 0);
    TouchStage(s, t, u, a);
    var touched := Touch(t, u, a, Realised(t, u, a));
    var c := AccountOf(touched, u, a);
    var taken := c.rew.unclaimedSupply + c.rew.unclaimedBorrow;
    ClearCountersSound(touched, u, a);
    ClearCountersKeeps(touched, u, a);
    if taken > 0 {
      KeepsTrans(s, touched, RealizeUnclaimed(s, u, a).0, 0, taken);
    }
  }

  lemma {:induction false} RealizeAllKeeps(s: State, u: Address, list: seq<Address>)
    requires Sound(s) && Flat(s)
    ensures var (t, total) := RealizeAll(s, u, list);
      Keeps(s, t, total) && total >= 0 && Sound(t)
  {
    hide Sound, Flat, Keeps, RealizeUnclaimed;
    if |list| == 0 {
      KeepsReflexive(s);
    } else {
      var (t, total) := RealizeAll(s, u, list[..|list| - 1]);
      RealizeAllKeeps(s, u, list[..|list| - 1]);
      KeepsFlat(s, t, total);
      RealizeUnclaimedKeeps(t, u, list[|list| - 1]);
      RealizeUnclaimedSound(t, u, list[|list| - 1]);
      var (next, amount) := RealizeUnclaimed(t, u, list[|list| - 1]);
      KeepsTrans(s, t, next, total, amount);
    }
  }

  // ---------------------------------------------------------------- every run

  /** Grants are what was taken from counters, and are paid out or outstanding. */
  ghost predicate Backed(s: State) {
    Sound(s) && Flat(s) && SumGranted(s.assets) == s.grantedTotal && GrantsBacked(s)
  }

  /** A call moves each gap by what it loses, and no slack shrinks where aggregate and positions agree. */
  ghost predicate GapsMove(s: State, t: State, call: Call) {
    forall a, side ::
      && Gap(t, a, side) == Gap(s, a, side) - (if side.BorrowSide? then LostBy(s, call, a) else 0)
      && (Gap(s, a, side) == 0 ==> Slack(t, a, side) >= Slack(s, a, side))
  }

  lemma KeepsBacked(s: State, t: State, call: Call)
    requires Backed(s) && Keeps(s, t, 0) && Sound(t) && !call.DoLiquidate?
    ensures Backed(t) && GapsMove(s, t, call)
  {
    hide Sound, Flat, Slack, Gap, SumGranted, Invoke;
  }

  lemma LosesBacked(s: State, t: State, call: Call)
    requires Backed(s) && Sound(t) && call.DoLiquidate? && Invoke(s, call).Ok?
    requires Loses(s, t, call.debtAsset,
      if call.collateral == call.debtAsset
      then Quoted(s, call.liquidator, call.user, call.collateral, call.debtAsset, call.amount).0 else 0)
    ensures Backed(t) && GapsMove(s, t, call)
  {
    hide Sound, Flat, Slack, Gap, SumGranted, Liquidate, Quoted;
  }

  /** Rewards taken out of counters and pushed as a grant. */
  lemma GrantBacked(s: State, t: State, u: Address, amount: int, call: Call)
    requires Backed(s) && Keeps(s, t, amount) && Sound(t) && amount > 0 && !call.DoLiquidate?
    ensures Backed(PushGrant(t, u, amount)) && GapsMove(s, PushGrant(t, u, amount), call)
  {
    hide Sound, Flat, Slack, Gap, SumGranted, PushGrant, Invoke;
    PushGrantSound(t, u, amount);
    PushGrantBacked(t, u, amount);
    PushGrantFrame(t, u, amount);
  }

  lemma PushGrantFrame(s: State, u: Address, amount: int)
    ensures var t := PushGrant(s, u, amount);
      && t.assets == s.assets && t.accounts == s.accounts && t.grantedTotal == s.grantedTotal + amount
      && (Flat(s) ==> Flat(t))
      && forall a, side :: Gap(t, a, side) == Gap(s, a, side) && Slack(t, a, side) == Slack(s, a, side)
  {
    SameBooks(s, PushGrant(s, u, amount));
  }

  /** The sums read only assets and accounts. */
  lemma SameBooks(s: State, t: State)
    requires t.assets == s.assets && t.accounts == s.accounts
    ensures Flat(s) ==> Flat(t)
    ensures forall a, side :: Gap(t, a, side) == Gap(s, a, side) && Slack(t, a, side) == Slack(s, a, side)
  {
    hide SumHeld, SumOwed;
  }

  lemma WaitAndVestBacked(s: State, call: Call)
    requires Backed(s) && (call.Wait? || call.DoVestClaimable?)
    ensures Backed(After(s, call)) && GapsMove(s, After(s, call), call)
  {
    hide Sound, Flat, Gap, Slack, SumGranted, GrantsBacked;
    CallKeepsSound(s, call);
    SameBooks(s, After(s, call));
    if call.Wait? {
      WaitBacked(s, call.seconds);
    } else if Invoke(s, call).Ok? {
      VestBacked(s, call.user, call.available);
    }
  }

  /** All the other calls move the books together. */
  lemma CallKeeps(s: State, call: Call)
    requires Sound(s) && Flat(s) && Invoke(s, call).Ok? && ZeroRateCall(call)
    requires !call.Wait? && !call.DoVestClaimable? && !call.DoClaimAsset? && !call.DoClaimAll? && !call.DoLiquidate?
    ensures Keeps(s, Invoke(s, call).value, 0)
  {
    hide Sound, Flat, Keeps, Accrue, Touch, Post, TouchAndPost, Realised, CheckHealth, CheckSupplyCaps;
    hide CheckBorrowCaps, Liquidate, WriteoffBadDebt, FlashLoan, ApplyAction, Bodies, AccrueAll, ValidateOps, UniqueAssets;
    match call {
      case DoDeposit(u, a, amount) =>
        SingleForm(Supplying, s, u, a, a, amount);
        BodyKeeps(Supplying, s, u, a, amount);
      case DoBorrow(u, a, collateral, amount) =>
        SingleForm(Borrowing, s, u, a, collateral, amount);
        BodyKeeps(Borrowing, s, u, a, amount);
      case DoRepay(u, a, amount) =>
        SingleForm(Repaying, s, u, a, a, amount);
        BodyKeeps(Repaying, s, u, a, amount);
      case DoWithdraw(u, a, debtAsset, amount) =>
        SingleForm(Withdrawing, s, u, a, debtAsset, amount);
        BodyKeeps(Withdrawing, s, u, a, amount);
      case DoDepositBatch(u, ops) => BatchKeeps(Supplying, s, u, UniqueAssets(ops), ops);
      case DoBorrowBatch(u, collateral, ops) => BatchKeeps(Borrowing, s, u, AddAsset(UniqueAssets(ops), collateral), ops);
      case DoRepayBatch(u, ops) => BatchKeeps(Repaying, s, u, UniqueAssets(ops), ops);
      case DoWithdrawBatch(u, debtAsset, ops) =>
        BatchKeeps(Withdrawing, s, u, AddAsset(UniqueAssets(ops), debtAsset), ops);
      case DoAccrueInterest(a) => AccrueKeeps(s, a);
      case DoWriteoff(u, debtAsset) => WriteoffKeeps(s, u, debtAsset);
      case DoFlashLoan(a, amount, ok) => FlashLoanKeeps(s, a, amount, ok);
      case DoAction(payload, host) => ActionKeeps(s, payload, host);
      case DoSetVestingParams(_, _) => GlobalSettingsKeep(s, Invoke(s, call).value);
      case DoSetLiquidationParams(_, _) => GlobalSettingsKeep(s, Invoke(s, call).value);
      case DoSetMaxOracleAge(_) => GlobalSettingsKeep(s, Invoke(s, call).value);
      case DoSetMaxProtocolFee(_) => GlobalSettingsKeep(s, Invoke(s, call).value);
      case DoUnpause => GlobalSettingsKeep(s, Invoke(s, call).value);
      case _ => AssetSettingsKeep(s, call);
    }
  }

  lemma ClaimsBacked(s: State, call: Call)
    requires Backed(s) && (call.DoClaimAsset? || call.DoClaimAll?) && Invoke(s, call).Ok?
    ensures Backed(Invoke(s, call).value) && GapsMove(s, Invoke(s, call).value, call)
  {
    hide Backed, Keeps, RealizeUnclaimed, RealizeAll, PushGrant, Sound, GapsMove;
    BackedParts(s);
    match call {
      case DoClaimAsset(u, a) =>
        RealizeUnclaimedKeeps(s, u, a);
        RealizeUnclaimedSound(s, u, a);
        GrantBacked(s, RealizeUnclaimed(s, u, a).0, u, RealizeUnclaimed(s, u, a).1, call);
      case DoClaimAll(u) =>
        RealizeAllKeeps(s, u, s.listed);
        GrantBacked(s, RealizeAll(s, u, s.listed).0, u, RealizeAll(s, u, s.listed).1, call);
    }
  }

  lemma BackedParts(s: State)
    requires Backed(s)
    ensures Sound(s) && Flat(s)
  {
  }

  lemma FailureMovesNothing(s: State, call: Call)
    requires Invoke(s, call).Err?
    ensures GapsMove(s, s, call)
  {
    hide Invoke, Gap, Slack;
  }

  /** Every call keeps grants backed and moves the gaps as stated. */
  lemma CallKeepsBacked(s: State, call: Call)
    requires Backed(s) && ZeroRateCall(call)
    ensures Backed(After(s, call)) && GapsMove(s, After(s, call), call)
  {
    hide Backed, Invoke, Keeps, Loses, Sound, Flat, GapsMove, Liquidate, Quoted;
    BackedParts(s);
    CallKeepsSound(s, call);
    if Invoke(s, call).Err? {
      FailureMovesNothing(s, call);
    } else if call.Wait? || call.DoVestClaimable? {
      WaitAndVestBacked(s, call);
    } else if call.DoClaimAsset? || call.DoClaimAll? {
      ClaimsBacked(s, call);
    } else if call.DoLiquidate? {
      LiquidateCall(s, call);
      LiquidateLoses(s, call.liquidator, call.user, call.collateral, call.debtAsset, call.amount);
      LosesBacked(s, Invoke(s, call).value, call);
    } else {
      CallKeeps(s, call);
      KeepsBacked(s, Invoke(s, call).value, call);
    }
  }

  lemma LiquidateCall(s: State, call: Call)
    requires call.DoLiquidate?
    ensures Invoke(s, call) == Liquidate(s, call.liquidator, call.user, call.collateral, call.debtAsset, call.amount)
  {
    hide Liquidate, Deposit, Borrow, Repay, Withdraw, DepositBatch, BorrowBatch, RepayBatch, WithdrawBatch;
    hide WriteoffBadDebt, FlashLoan, ClaimAsset, ClaimAll, VestClaimable, ApplyAction;
  }

  lemma InitialBacked(minRatioBps: nat, start: nat)
    requires minRatioBps >= 10_000
    ensures var s := Initial(minRatioBps, start);
      Backed(s) && forall a, side :: Gap(s, a, side) == 0 && Slack(s, a, side) == 0
  {
    hide Sound;
    EveryRunIsSound(minRatioBps, start, []);
    assert Run(Initial(minRatioBps, start), []) == Initial(minRatioBps, start);
  }

  predicate ZeroRates(calls: seq<Call>) {
    forall i | 0 <= i < |calls| :: ZeroRateCall(calls[i])
  }

  /** All that same-asset liquidations of a run took off an asset's total borrowed and not off a position. */
  function Lost(s: State, calls: seq<Call>, a: Address): int {
    if |calls| == 0 then 0
    else Lost(s, calls[..|calls| - 1], a) + LostBy(Run(s, calls[..|calls| - 1]), calls[|calls| - 1], a)
  }

  lemma LostByNonNeg(s: State, call: Call, a: Address)
    requires Sound(s) && Flat(s)
    ensures LostBy(s, call, a) >= 0
    ensures LostBy(s, call, a) > 0 <==> call.DoLiquidate? && call.collateral == call.debtAsset == a && Invoke(s, call).Ok?
  {
    hide Sound, Flat, Quoted, Liquidate, Loses;
    if call.DoLiquidate? && Invoke(s, call).Ok? {
      LiquidateLoses(s, call.liquidator, call.user, call.collateral, call.debtAsset, call.amount);
    }
  }

  /** Zero-rate runs, whole: gaps are exactly the losses, and slack holds wherever nothing was lost. */
  lemma {:induction false} EveryRunIsBacked(minRatioBps: nat, start: nat, calls: seq<Call>, a: Address, side: Side)
    requires minRatioBps >= 10_000 && ZeroRates(calls)
    ensures var s0 := Initial(minRatioBps, start);
      var s := Run(s0, calls);
      && Backed(s) && Lost(s0, calls, a) >= 0
      && Gap(s, a, side) == (if side.BorrowSide? then -Lost(s0, calls, a) else 0)
      && (Gap(s, a, side) == 0 ==> Slack(s, a, side) >= 0)
  {
    hide Backed, After, Initial, Gap, Slack, LostBy;
    var s0 := Initial(minRatioBps, start);
    InitialBacked(minRatioBps, start);
    if |calls| > 0 {
      var before, call := calls[..|calls| - 1], calls[|calls| - 1];
      EveryRunIsBacked(minRatioBps, start, before, a, side);
      BackedParts(Run(s0, before));
      CallKeepsBacked(Run(s0, before), call);
      LostByNonNeg(Run(s0, before), call, a);
    }
  }

  /**
   * In every reachable state at zero rates: an asset's total deposited is exactly the sum of its users'
   * deposits plus the flash-loan premiums, and its total borrowed the sum of their debts less what same-asset
   * liquidations repaid.
   */
  lemma AggregatesEqualPositions(minRatioBps: nat, start: nat, calls: seq<Call>, a: Address)
    requires minRatioBps >= 10_000 && ZeroRates(calls)
    ensures var s0 := Initial(minRatioBps, start);
      var s := Run(s0, calls);
      && AssetOf(s, a).totalDeposited == SumHeld(s.accounts, a, SupplySide) + AssetOf(s, a).book.premiums
      && AssetOf(s, a).totalBorrowed == SumHeld(s.accounts, a, BorrowSide) - Lost(s0, calls, a)
  {
    hide SumHeld, Run, Lost, Initial;
    var s := Run(Initial(minRatioBps, start), calls);
    EveryRunIsBacked(minRatioBps, start, calls, a, SupplySide);
    EveryRunIsBacked(minRatioBps, start, calls, a, BorrowSide);
    assert Gap(s, a, SupplySide) == 0;
  }

  /** Nothing is lost exactly when no liquidation of the asset against itself succeeded. */
  lemma {:induction false} NothingLostIff(minRatioBps: nat, start: nat, calls: seq<Call>, a: Address)
    requires minRatioBps >= 10_000 && ZeroRates(calls)
    ensures var s0 := Initial(minRatioBps, start);
      && Lost(s0, calls, a) >= 0
      && (Lost(s0, calls, a) == 0 <==>
            forall i | 0 <= i < |calls| ::
              !(calls[i].DoLiquidate? && calls[i].collateral == calls[i].debtAsset == a
                && Invoke(Run(s0, calls[..i]), calls[i]).Ok?))
  {
    hide Backed, After, Initial, LostBy, Invoke;
    var s0 := Initial(minRatioBps, start);
    if |calls| > 0 {
      var before, call := calls[..|calls| - 1], calls[|calls| - 1];
      NothingLostIff(minRatioBps, start, before, a);
      EveryRunIsBacked(minRatioBps, start, before, a, BorrowSide);
      BackedParts(Run(s0, before));
      LostByNonNeg(Run(s0, before), call, a);
      assert forall i | 0 <= i < |before| :: calls[..i] == before[..i] && calls[i] == before[i];
    }
  }

  /**
   * Where nothing was lost, totals are not negative and utilisation is within 100%; the total deposited never
   * is negative.
   */
  lemma TotalsNonNegative(minRatioBps: nat, start: nat, calls: seq<Call>, a: Address)
    requires minRatioBps >= 10_000 && ZeroRates(calls)
    ensures var s0 := Initial(minRatioBps, start);
      var r := AssetOf(Run(s0, calls), a);
      && r.totalDeposited >= 0
      && (Lost(s0, calls, a) == 0 ==>
            r.totalBorrowed >= 0 && UtilizationRatio(r.totalDeposited, r.totalBorrowed) <= 10_000)
  {
    hide SumHeld, Run, Lost, Initial, Sound, AssetSound, UtilizationRatio, AssetOf;
    var s := Run(Initial(minRatioBps, start), calls);
    AggregatesEqualPositions(minRatioBps, start, calls, a);
    EveryRunIsSound(minRatioBps, start, calls);
    HeldNonNeg(s, a, SupplySide);
    HeldNonNeg(s, a, BorrowSide);
    AssetOfSound(s, a);
    PremiumsNonNeg(AssetOf(s, a), s.now);
    if AssetOf(s, a).totalBorrowed >= 0 {
      UtilizationBounds(AssetOf(s, a).totalDeposited, AssetOf(s, a).totalBorrowed);
    }
  }

  /**
   * Reward solvency, for every asset in every reachable state at zero rates: what has been granted, what sits
   * in counters and what is still pending on balances never exceeds what the speeds have emitted; on the
   * supply side always, on the borrow side unless the asset was liquidated against itself.
   */
  lemma RewardsNeverExceedEmission(minRatioBps: nat, start: nat, calls: seq<Call>, a: Address, side: Side)
    requires minRatioBps >= 10_000 && ZeroRates(calls)
    requires side.BorrowSide? ==> Lost(Initial(minRatioBps, start), calls, a) == 0
    ensures var s := Run(Initial(minRatioBps, start), calls);
      var r := AssetOf(s, a);
      RATE_SCALE * Granted(r, side) + SumOwed(s.accounts, a, RewardIndex(r, side), side) <= RATE_SCALE * Emitted(r, side)
  {
    hide SumOwed, Run, Lost, Initial;
    EveryRunIsBacked(minRatioBps, start, calls, a, side);
    assert Slack(Run(Initial(minRatioBps, start), calls), a, side) >= 0;
  }

  ghost function EmittedIn(m: map<Address, Asset>): Address -> int {
    (a: Address) => if a in m then Emitted(m[a], SupplySide) + Emitted(m[a], BorrowSide) else 0
  }

  /** What an account is owed is never negative. */
  lemma OwedNonNeg(s: State, a: Address, side: Side)
    requires Sound(s)
    ensures 0 <= SumOwed(s.accounts, a, RewardIndex(AssetOf(s, a), side), side)
  {
    hide Sound;
    var index := RewardIndex(AssetOf(s, a), side);
    var f := OwedIn(s.accounts, a, index, side);
    forall k | k in s.accounts.Keys
      ensures 0 <= f(k)
    {
      if k.1 == a {
        AccountOfSound(s, k.0, a);
        assert k == (k.0, a);
        MulMono(0, Held(s.accounts[k].pos, side), index - Snapshot(s.accounts[k].rew, side));
      }
    }
    SumNonNeg(s.accounts.Keys, f);
  }

  lemma OutstandingOfAll(s: State)
    requires GrantsBacked(s)
    ensures s.paidTotal <= s.grantedTotal
  {
    var f := OutstandingIn(s.grants);
    forall u | u in s.grants.Keys
      ensures 0 <= f(u)
    {
      Vesting.OutstandingNonNeg(s.grants[u], s.now);
    }
    SumNonNeg(s.grants.Keys, f);
  }

  lemma GrantedWithinEmitted(s: State, a: Address, side: Side)
    requires Sound(s) && Slack(s, a, side) >= 0
    ensures Granted(AssetOf(s, a), side) <= Emitted(AssetOf(s, a), side)
  {
    hide Sound, SumOwed;
    OwedNonNeg(s, a, side);
    MulCancel(Granted(AssetOf(s, a), side), Emitted(AssetOf(s, a), side), RATE_SCALE);
  }

  /**
   * No run at zero rates pays out more than it granted, nor, unless an asset was liquidated against itself,
   * grants more than the speeds have emitted over all assets and both sides.
   */
  lemma PayoutsNeverExceedEmission(minRatioBps: nat, start: nat, calls: seq<Call>)
    requires minRatioBps >= 10_000 && ZeroRates(calls)
    ensures var s0 := Initial(minRatioBps, start);
      var s := Run(s0, calls);
      && s.paidTotal <= s.grantedTotal
      && ((forall a | a in s.assets :: Lost(s0, calls, a) == 0) ==>
            s.grantedTotal <= SumOver(s.assets.Keys, EmittedIn(s.assets)))
  {
    hide Sound, Flat, Slack, Gap, GrantsBacked, Granted, Emitted, Run, Initial, Lost;
    var s0 := Initial(minRatioBps, start);
    var s := Run(s0, calls);
    EveryRunIsBacked(minRatioBps, start, calls, Address(0), SupplySide);
    OutstandingOfAll(s);
    if forall a | a in s.assets :: Lost(s0, calls, a) == 0 {
      forall a | a in s.assets.Keys
        ensures GrantedIn(s.assets)(a) <= EmittedIn(s.assets)(a)
      {
        EveryRunIsBacked(minRatioBps, start, calls, a, SupplySide);
        EveryRunIsBacked(minRatioBps, start, calls, a, BorrowSide);
        GrantedWithinEmitted(s, a, SupplySide);
        GrantedWithinEmitted(s, a, BorrowSide);
        GrantedSides(s.assets[a]);
      }
      SumAtMost(s.assets.Keys, GrantedIn(s.assets), EmittedIn(s.assets));
    }
  }

  lemma GrantedSides(r: Asset)
    ensures GrantedBoth(r) == Granted(r, SupplySide) + Granted(r, BorrowSide)
  {
  }

  /**
   * The condition on liquidations is exact: from a state at zero rates in which an asset's total borrowed is
   * the sum of its users' debts, a successful liquidation of it leaves it so if and only if the collateral
   * asset is a different one. With one asset for both, the second write of the position restores the repaid debt.
   */
  lemma LiquidationReconciledIff(s: State, l: Address, u: Address, c: Address, d: Address, amount: int)
    requires Sound(s) && Flat(s) && Liquidate(s, l, u, c, d, amount).Ok?
    requires AssetOf(s, d).totalBorrowed == SumHeld(s.accounts, d, BorrowSide)
    ensures var t := Liquidate(s, l, u, c, d, amount).value;
      AssetOf(t, d).totalBorrowed == SumHeld(t.accounts, d, BorrowSide) <==> c != d
  {
    hide Liquidate, SumHeld, Sound, Flat, Quoted;
    LiquidateLoses(s, l, u, c, d, amount);
    var t := Liquidate(s, l, u, c, d, amount).value;
    assert Gap(s, d, BorrowSide) == 0;
    assert Gap(t, d, BorrowSide) == -LostAt(d, BorrowSide, d, if c == d then Quoted(s, l, u, c, d, amount).0 else 0);
  }
}
