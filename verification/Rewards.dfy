/** Reward-index arithmetic: the pool-side advance and the user-side fold. */
module Rewards {
  import opened Arith
  import opened Interest

  datatype AssetRewards = AssetRewards(
    supplyIndex: int, borrowIndex: int, supplySpeed: int, borrowSpeed: int, lastTs: nat)

  datatype UserRewards = UserRewards(
    supplySnapshot: int, borrowSnapshot: int, unclaimedSupply: int, unclaimedBorrow: int)

  /** The index growth that `speed` units per second buy for each unit of `total`. */
  function IndexDelta(speed: int, elapsed: nat, total: int): int {
    if speed > 0 && total > 0 then speed * elapsed * RATE_SCALE / total else 0
  }

  function ComputeIndexAdvance(st: AssetRewards, totalSupplied: int, totalBorrowed: int, now: nat): AssetRewards {
    if now <= st.lastTs then st
    else
      var elapsed := now - st.lastTs;
      st.(supplyIndex := st.supplyIndex + IndexDelta(st.supplySpeed, elapsed, totalSupplied),
          borrowIndex := st.borrowIndex + IndexDelta(st.borrowSpeed, elapsed, totalBorrowed),
          lastTs := now)
  }

  function Earned(balance: int, index: int, snapshot: int): int {
    if balance > 0 && index - snapshot > 0 then balance * (index - snapshot) / RATE_SCALE else 0
  }

  function AccrueFromIndexes(user: UserRewards, pool: AssetRewards, deposited: int, borrowed: int): UserRewards {
    UserRewards(
      pool.supplyIndex, pool.borrowIndex,
      user.unclaimedSupply + Earned(deposited, pool.supplyIndex, user.supplySnapshot),
      user.unclaimedBorrow + Earned(borrowed, pool.borrowIndex, user.borrowSnapshot))
  }

  /** Handing `delta` to balances that sum to at most `total` costs no more than what was emitted. */
  lemma AdvanceWithinEmission(speed: int, elapsed: nat, total: int, held: int)
    requires 0 <= speed && 0 <= held <= total
    ensures 0 <= IndexDelta(speed, elapsed, total)
    ensures held * IndexDelta(speed, elapsed, total) <= speed * elapsed * RATE_SCALE
  {
    MulMono(0, speed, elapsed);
    MulMono(0, speed * elapsed, RATE_SCALE);
    if speed > 0 && total > 0 {
      var delta := IndexDelta(speed, elapsed, total);
      DivBounds(speed * elapsed * RATE_SCALE, total);
      DivNonNeg(speed * elapsed * RATE_SCALE, total);
      MulMono(held, total, delta);
    } else {
      assert held * 0 == 0;
    }
  }

  /** Folding a pending amount into the unclaimed counter never creates value. */
  lemma FoldNeverGains(balance: int, index: int, snapshot: int)
    requires 0 <= balance && snapshot <= index
    ensures 0 <= Earned(balance, index, snapshot)
    ensures RATE_SCALE * Earned(balance, index, snapshot) <= balance * (index - snapshot)
  {
    MulMono(0, balance, index - snapshot);
    DivBounds(balance * (index - snapshot), RATE_SCALE);
    DivNonNeg(balance * (index - snapshot), RATE_SCALE);
  }

  /** The index grows by the scaled emission per unit of total, rounded down. */
  lemma IndexDeltaBracket(speed: nat, elapsed: nat, total: int)
    requires 0 < total
    ensures var delta := IndexDelta(speed, elapsed, total);
      0 <= delta && delta * total <= speed * elapsed * RATE_SCALE < (delta + 1) * total
  {
    MulNonNeg(speed, elapsed);
    DivBounds(speed * elapsed * RATE_SCALE, total);
    DivNonNeg(speed * elapsed * RATE_SCALE, total);
    if speed == 0 {
      assert 0 * elapsed == 0;
    }
  }

  /** A balance earns its share of the index growth, rounded down. */
  lemma EarnedBracket(balance: nat, index: int, snapshot: int)
    requires snapshot <= index
    ensures var earned := Earned(balance, index, snapshot);
      0 <= earned && earned * RATE_SCALE <= balance * (index - snapshot) < (earned + 1) * RATE_SCALE
  {
    MulNonNeg(balance, index - snapshot);
    DivBounds(balance * (index - snapshot), RATE_SCALE);
    DivNonNeg(balance * (index - snapshot), RATE_SCALE);
    if balance == 0 || index == snapshot {
      assert balance * (index - snapshot) == 0;
    }
  }

  /**
   * A balance held for `elapsed` seconds in a pool of `total` earns its pro-rata share of the emission, short of
   * it by less than one unit and one index unit per unit held.
   */
  lemma HolderEarnsShare(balance: nat, speed: nat, elapsed: nat, total: int, index: int)
    requires 0 < total
    ensures var earned := Earned(balance, index + IndexDelta(speed, elapsed, total), index);
      && 0 <= earned && earned * total <= balance * (speed * elapsed)
      && balance * (speed * elapsed) * RATE_SCALE < ((earned + 1) * RATE_SCALE + balance) * total
  {
    var delta := IndexDelta(speed, elapsed, total);
    IndexDeltaBracket(speed, elapsed, total);
    EarnedBracket(balance, index + delta, index);
    ShareCore(balance, speed * elapsed, total, delta, Earned(balance, index + delta, index), RATE_SCALE);
  }

  lemma ShareCore(balance: nat, emitted: int, total: int, delta: nat, earned: nat, n: int)
    requires 0 < total && 0 < n
    requires delta * total <= emitted * n < (delta + 1) * total
    requires earned * n <= balance * delta < (earned + 1) * n
    ensures earned * total <= balance * emitted
    ensures balance * emitted * n < ((earned + 1) * n + balance) * total
  {
    MulMono(earned * n, balance * delta, total);
    MulMono(delta * total, emitted * n, balance);
    MulMono(emitted * n, (delta + 1) * total, balance);
    MulSwap(earned, n, total);
    assert delta * total * balance == balance * delta * total by { MulSwap(delta, total, balance); }
    assert emitted * n * balance == balance * emitted * n by { MulSwap(emitted, n, balance); }
    MulCancel(earned * total, balance * emitted, n);
    assert (delta + 1) * total * balance == (balance * delta + balance) * total by {
      MulSwap(delta + 1, total, balance);
      MulDist(delta, 1, balance);
    }
    MulMono(balance * delta + balance + 1, (earned + 1) * n + balance, total);
    MulDist(balance * delta + balance, 1, total);
  }
}
