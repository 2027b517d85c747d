/**
 * The contract as an object: fields for its storage, entrypoints that read, change and write them back step by
 * step, and loops over assets, operations and grants. Each method is proved to compute the ledger function of
 * the same name, so the theorems about the ledger hold of the object.
 */
module Contract {
  import opened Prelude
  import opened Arith
  import opened Interest
  import opened Rewards
  import opened Vesting
  import opened Ledger
  import opened Invariants
  import opened Batches
  import Oracle
  import Health

  /** A method either panics with the error of its specification or leaves the specified state. */
  predicate Meets(r: Check, after: State, spec: Result<State>) {
    match spec
    case Ok(t) => r.Pass? && after == t
    case Err(e) => r == Fail(e)
  }

  // ---------------------------------------------------------------- a loop that stops early

  lemma {:induction false} WeightedValueStops(s: State, u: Address, list: seq<Address>, w: Weight, cut: Cut, i: nat)
    requires i <= |list| && WeightedValue(s, u, list[..i], w, cut).Err?
    ensures WeightedValue(s, u, list, w, cut) == WeightedValue(s, u, list[..i], w, cut)
  {
    hide WeightedTerm;
    if i < |list| {
      assert list[..|list| - 1][..i] == list[..i];
      WeightedValueStops(s, u, list[..|list| - 1], w, cut, i);
    } else {
      assert list[..i] == list;
    }
  }

  lemma {:induction false} DebtValueStops(s: State, u: Address, list: seq<Address>, i: nat)
    requires i <= |list| && DebtValue(s, u, list[..i]).Err?
    ensures DebtValue(s, u, list) == DebtValue(s, u, list[..i])
  {
    hide Realised, PriceOf;
    if i < |list| {
      assert list[..|list| - 1][..i] == list[..i];
      DebtValueStops(s, u, list[..|list| - 1], i);
    } else {
      assert list[..i] == list;
    }
  }

  lemma {:induction false} ValidateStops(s: State, ops: seq<BatchOp>, i: nat)
    requires i <= |ops| && ValidateOps(s, ops[..i]).Fail?
    ensures ValidateOps(s, ops) == ValidateOps(s, ops[..i])
  {
    if i < |ops| {
      assert ops[..|ops| - 1][..i] == ops[..i];
      ValidateStops(s, ops[..|ops| - 1], i);
    } else {
      assert ops[..i] == ops;
    }
  }

  lemma {:induction false} CapsStop(s: State, ops: seq<BatchOp>, list: seq<Address>, supply: bool, i: nat)
    requires i <= |list| && CheckBatchCaps(s, ops, list[..i], supply).Fail?
    ensures CheckBatchCaps(s, ops, list, supply) == CheckBatchCaps(s, ops, list[..i], supply)
  {
    hide CheckSupplyCaps, CheckBorrowCaps;
    if i < |list| {
      assert list[..|list| - 1][..i] == list[..i];
      CapsStop(s, ops, list[..|list| - 1], supply, i);
    } else {
      assert list[..i] == list;
    }
  }

  lemma {:induction false} BodiesStop(k: Kind, s: State, u: Address, ops: seq<BatchOp>, i: nat)
    requires i <= |ops| && Bodies(k, s, u, ops[..i]).Err?
    ensures Bodies(k, s, u, ops) == Bodies(k, s, u, ops[..i])
  {
    hide Body, Accrue;
    if i < |ops| {
      assert ops[..|ops| - 1][..i] == ops[..i];
      BodiesStop(k, s, u, ops[..|ops| - 1], i);
    } else {
      assert ops[..i] == ops;
    }
  }

  lemma {:induction false} UncollateralisedStops(s: State, u: Address, list: seq<Address>, i: nat)
    requires i <= |list| && AccrueUncollateralised(s, u, list[..i]).Err?
    ensures AccrueUncollateralised(s, u, list) == AccrueUncollateralised(s, u, list[..i])
  {
    hide Realised, Accrue;
    if i < |list| {
      assert list[..|list| - 1][..i] == list[..i];
      UncollateralisedStops(s, u, list[..|list| - 1], i);
    } else {
      assert list[..i] == list;
    }
  }

  /** One more element of a list, as the loops below meet it. */
  lemma NextPrefix<T>(list: seq<T>, i: nat)
    requires i < |list|
    ensures |list[..i + 1]| == i + 1 && list[..i + 1][..i] == list[..i] && list[..i + 1][i] == list[i]
  {
  }

  // ---------------------------------------------------------------- grouping a batch by asset

  /** What the cap checks of a batch compare: every asset once, with its total. */
  ghost predicate Grouped(totals: seq<(Address, int)>, ops: seq<BatchOp>) {
    && |totals| == |UniqueAssets(ops)|
    && forall j | 0 <= j < |totals| :: totals[j] == (UniqueAssets(ops)[j], TotalFor(ops, UniqueAssets(ops)[j]))
  }

  /** The effect of one more operation on a grouping, at its own position or at the end. */
  lemma GroupOne(totals: seq<(Address, int)>, ops: seq<BatchOp>, i: nat, at: nat)
    requires i < |ops| && Grouped(totals, ops[..i]) && at <= |totals|
    requires at < |totals| ==> totals[at].0 == ops[i].asset
    requires at == |totals| ==> ops[i].asset !in UniqueAssets(ops[..i])
    ensures Grouped(
              if at < |totals| then totals[at := (ops[i].asset, totals[at].1 + ops[i].amount)]
              else totals + [(ops[i].asset, ops[i].amount)],
              ops[..i + 1])
  {
    hide TotalFor;
    NextPrefix(ops, i);
    UniqueAssetsNamed(ops[..i]);
    forall a
      ensures TotalFor(ops[..i + 1], a) == TotalFor(ops[..i], a) + if ops[i].asset == a then ops[i].amount else 0
    {
      TotalForStep(ops, i, a);
    }
    if at == |totals| {
      TotalOfUnnamed(ops[..i], ops[i].asset);
    } else {
      assert UniqueAssets(ops[..i])[at] == ops[i].asset;
    }
  }

  lemma TotalForStep(ops: seq<BatchOp>, i: nat, a: Address)
    requires i < |ops|
    ensures TotalFor(ops[..i + 1], a) == TotalFor(ops[..i], a) + if ops[i].asset == a then ops[i].amount else 0
  {
    NextPrefix(ops, i);
  }

  lemma {:induction false} TotalOfUnnamed(ops: seq<BatchOp>, a: Address)
    requires !Names(ops, a)
    ensures TotalFor(ops, a) == 0
  {
    if |ops| > 0 {
      var before := ops[..|ops| - 1];
      assert ops[|ops| - 1].asset != a;
      forall i | 0 <= i < |before|
        ensures before[i].asset != a
      {
        assert ops[i].asset != a;
      }
      TotalOfUnnamed(before, a);
    }
  }

  /** Groups the operations of a batch by asset with a nested scan. */
  method GroupByAsset(ops: seq<BatchOp>) returns (totals: seq<(Address, int)>)
    ensures Grouped(totals, ops)
  {
    totals := [];
    var i := 0;
    assert ops[..0] == [];
    while i < |ops|
      invariant 0 <= i <= |ops|
      invariant Grouped(totals, ops[..i])
    {
      var op := ops[i];
      var found := false;
      var j := 0;
      ghost var before := totals;
      while j < |totals| && !found
        invariant 0 <= j <= |totals| && |totals| == |before|
        invariant !found ==> totals == before && forall m | 0 <= m < j :: before[m].0 != op.asset
        invariant found ==>
          j < |before| && before[j].0 == op.asset && totals == before[j := (op.asset, before[j].1 + op.amount)]
        decreases |totals| - j, !found
      {
        if totals[j].0 == op.asset {
          totals := totals[j := (op.asset, totals[j].1 + op.amount)];
          found := true;
        } else {
          j := j + 1;
        }
      }
      if found {
        GroupOne(before, ops, i, j);
      } else {
        forall m | 0 <= m < |before|
          ensures UniqueAssets(ops[..i])[m] != op.asset
        {
          assert before[m].0 != op.asset;
        }
        GroupOne(before, ops, i, |before|);
        totals := totals + [(op.asset, op.amount)];
      }
      i := i + 1;
    }
    assert ops[..i] == ops;
  }

  method DeduplicateAssets(ops: seq<BatchOp>) returns (unique: seq<Address>)
    ensures unique == UniqueAssets(ops)
  {
    unique := [];
    var i := 0;
    while i < |ops|
      invariant 0 <= i <= |ops| && unique == UniqueAssets(ops[..i])
    {
      NextPrefix(ops, i);
      if ops[i].asset !in unique {
        unique := unique + [ops[i].asset];
      }
      i := i + 1;
    }
    assert ops[..i] == ops;
  }

  // ---------------------------------------------------------------- frames the entrypoints rely on

  lemma TouchKeepsBalance(s: State, u: Address, a: Address, p: Position)
    ensures AssetOf(Touch(s, u, a, p), a).balance == AssetOf(s, a).balance
  {
  }

  lemma AccrueKeepsList(s: State, a: Address)
    ensures Accrue(s, a).listed == s.listed
  {
  }

  /** Positions read after both accruals are still current when the rewards have been settled. */
  lemma PrepareReads(s: State, l: Address, u: Address, collateral: Address, debtAsset: Address)
    ensures var t := Accrue(Accrue(s, debtAsset), collateral);
      forall v, b :: Realised(PrepareLiquidation(s, l, u, collateral, debtAsset), v, b) == Realised(t, v, b)
  {
    hide Accrue, Realised, PrepareLiquidation;
    Health.PrepareUnseen(s, l, u, collateral, debtAsset);
    Health.AccrueUnseen(s, debtAsset);
    Health.AccrueUnseen(Accrue(s, debtAsset), collateral);
  }

  // ---------------------------------------------------------------- the contract

  class VeilLend {
    var now: nat
    var paused: bool
    var listed: seq<Address>
    var assets: map<Address, Asset>
    var accounts: map<(Address, Address), Account>
    var grants: map<Address, seq<Grant>>
    var vestCliff: nat
    var vestDuration: nat
    var grantedTotal: int
    var paidTotal: int
    var minRatioBps: nat
    var closeFactorBps: nat
    var discountBps: nat
    var maxOracleAge: nat
    var maxFeeBps: nat

    function View(): State
      reads this
    {
      State(now, paused, listed, assets, accounts, grants, vestCliff, vestDuration, grantedTotal, paidTotal,
            minRatioBps, closeFactorBps, discountBps, maxOracleAge, maxFeeBps)
    }

    constructor (minRatioBps: nat, now: nat)
      ensures View() == Initial(minRatioBps, now)
    {
      this.now, this.paused, this.listed := now, false, [];
      this.assets, this.accounts, this.grants := map[], map[], map[];
      this.vestCliff, this.vestDuration, this.grantedTotal, this.paidTotal := 0, 0, 0, 0;
      this.minRatioBps, this.closeFactorBps, this.discountBps := minRatioBps, 5_000, 500;
      this.maxOracleAge, this.maxFeeBps := Oracle.DEFAULT_MAX_AGE, 0;
    }

    // Storage.

    function ReadAsset(a: Address): Asset
      reads this
    {
      AssetOf(View(), a)
    }

    function ReadAccount(u: Address, a: Address): Account
      reads this
    {
      AccountOf(View(), u, a)
    }

    method WriteAsset(a: Address, r: Asset)
      modifies this
      ensures View() == PutAsset(old(View()), a, r)
    {
      assets := assets[a := r];
    }

    /** An empty position is removed rather than stored. */
    method WritePosition(u: Address, a: Address, p: Position)
      modifies this
      ensures View() == PutPosition(old(View()), u, a, p)
    {
      var c := ReadAccount(u, a);
      if p.deposited == 0 && p.borrowed == 0 {
        accounts := accounts[(u, a) := c.(pos := NO_POSITION)];
      } else {
        accounts := accounts[(u, a) := c.(pos := p)];
      }
    }

    // Accrual.

    method AccrueAndPersist(a: Address)
      modifies this
      ensures View() == Accrue(old(View()), a)
    {
      var r := ReadAsset(a);
      var st := InterestOf(r, now);
      if r.interest.Some? && now <= st.lastAccrual {
        assets := assets[a := r];
        return;
      }
      var result := ComputeAccrual(st, r.Params(), r.totalDeposited, r.totalBorrowed, now);
      r := r.(interest := Some(result.state));
      if result.toSuppliers != 0 {
        r := r.(totalDeposited := r.totalDeposited + result.toSuppliers, balance := r.balance + result.toSuppliers);
      }
      if result.toBorrowers != 0 {
        r := r.(totalBorrowed := r.totalBorrowed + result.toBorrowers);
      }
      var dust := result.toBorrowers - result.toSuppliers;
      if dust > 0 {
        r := r.(balance := r.balance + dust);
        if r.Params().reserveFactorBps > 0 {
          r := r.(fees := r.fees + dust, lifetimeFees := r.lifetimeFees + dust);
        }
      }
      r := r.(book := r.book.(toSuppliers := r.book.toSuppliers + result.toSuppliers,
                              toBorrowers := r.book.toBorrowers + result.toBorrowers,
                              backing := r.book.backing + Max(result.toSuppliers, result.toBorrowers)));
      assets := assets[a := r];
    }

    method AccrueAssetsOnce(list: seq<Address>)
      modifies this
      ensures View() == AccrueAll(old(View()), list)
    {
      var i := 0;
      while i < |list|
        invariant 0 <= i <= |list| && View() == AccrueAll(old(View()), list[..i])
      {
        hide Accrue;
        NextPrefix(list, i);
        AccrueAndPersist(list[i]);
        i := i + 1;
      }
      assert list[..i] == list;
    }

    /** Adds to each pool index what its speed bought since the last time, unless that was now. */
    method AdvanceRewardIndexes(a: Address)
      modifies this
      ensures View() == PutAsset(old(View()), a, AdvanceRewards(AssetOf(old(View()), a), old(now)))
    {
      var r := ReadAsset(a);
      if r.rewards.Some? && now <= r.rewards.value.lastTs {
        assets := assets[a := r];
        return;
      }
      var st := AssetRewards(0, 0, 0, 0, now);
      if r.rewards.Some? {
        st := r.rewards.value;
      }
      var elapsed := now - st.lastTs;
      var supplyIndex, borrowIndex := st.supplyIndex, st.borrowIndex;
      if elapsed > 0 && st.supplySpeed > 0 && r.totalDeposited > 0 {
        supplyIndex := supplyIndex + st.supplySpeed * elapsed * RATE_SCALE / r.totalDeposited;
      }
      if elapsed > 0 && st.borrowSpeed > 0 && r.totalBorrowed > 0 {
        borrowIndex := borrowIndex + st.borrowSpeed * elapsed * RATE_SCALE / r.totalBorrowed;
      }
      r := r.(book := r.book.(emittedSupply := r.book.emittedSupply + st.supplySpeed * elapsed,
                              emittedBorrow := r.book.emittedBorrow + st.borrowSpeed * elapsed));
      assets := assets[a := r.(rewards := Some(st.(supplyIndex := supplyIndex, borrowIndex := borrowIndex, lastTs := now)))];
    }

    /** Snapshot on touch: the user's pending rewards go into the counters, and the snapshots to the pool's indexes. */
    method AccrueUserRewards(u: Address, a: Address, p: Position)
      modifies this
      ensures View() == Touch(old(View()), u, a, p)
    {
      AdvanceRewardIndexes(a);
      var pool := ReadAsset(a).rewards.value;
      var c := ReadAccount(u, a);
      var rew := c.rew;
      var supplyGain, borrowGain := pool.supplyIndex - rew.supplySnapshot, pool.borrowIndex - rew.borrowSnapshot;
      if p.deposited > 0 && supplyGain > 0 {
        rew := rew.(unclaimedSupply := rew.unclaimedSupply + p.deposited * supplyGain / RATE_SCALE);
      }
      if p.borrowed > 0 && borrowGain > 0 {
        rew := rew.(unclaimedBorrow := rew.unclaimedBorrow + p.borrowed * borrowGain / RATE_SCALE);
      }
      rew := rew.(supplySnapshot := pool.supplyIndex, borrowSnapshot := pool.borrowIndex);
      accounts := accounts[(u, a) := c.(rew := rew)];
    }

    // Health.

    /** Sums the user's weighted deposits over the listed assets; fails at the first unreadable price. */
    method WeightedCollateral(u: Address, w: Weight, cut: Cut) returns (r: Result<int>)
      ensures r == WeightedValue(View(), u, listed, w, cut)
    {
      hide Realised, WeightBps, PriceOf;
      var sum := 0;
      var i := 0;
      while i < |listed|
        invariant 0 <= i <= |listed| && WeightedValue(View(), u, listed[..i], w, cut) == Ok(sum)
      {
        var a := listed[i];
        NextPrefix(listed, i);
        var deposited := Realised(View(), u, a).deposited;
        if cut.Cut? && cut.asset == a {
          deposited := deposited - cut.amount;
        }
        if deposited > 0 {
          var price := PriceOf(View(), a);
          if price.Err? {
            WeightedValueStops(View(), u, listed, w, cut, i + 1);
            return Err(price.error);
          }
          sum := sum + deposited * price.value * WeightBps(View(), a, w);
        }
        i := i + 1;
      }
      assert listed[..i] == listed;
      return Ok(sum);
    }

    method RequireCovered(u: Address, debtValue: int, cut: Cut) returns (r: Check)
      ensures r == CoverDebt(View(), u, debtValue, cut)
    {
      var weighted := WeightedCollateral(u, CollateralFactor, cut);
      match weighted {
        case Err(e) => return Fail(e);
        case Ok(value) =>
          if value < debtValue * 10_000 {
            return Fail(InsufficientCollateral);
          }
      }
      return Pass;
    }

    method AssertCollateralized(u: Address, debtAsset: Address, borrowing: int, cut: Cut) returns (r: Check)
      ensures r == CheckHealth(View(), u, debtAsset, borrowing, cut)
    {
      hide Realised, PriceOf, CoverDebt;
      var debt := Realised(View(), u, debtAsset).borrowed + borrowing;
      if debt == 0 {
        return Pass;
      }
      var price := PriceOf(View(), debtAsset);
      if price.Err? {
        return Fail(price.error);
      }
      r := RequireCovered(u, debt * price.value, cut);
    }

    // User operations.

    /** Writes a position, then the reserve, then the totals. */
    method WriteBack(u: Address, a: Address, p: Position, e: Entry)
      modifies this
      ensures View() == Post(old(View()), u, a, p, e)
    {
      WritePosition(u, a, p.(deposited := p.deposited + e.deposited, borrowed := p.borrowed + e.borrowed));
      var r := ReadAsset(a);
      r := r.(balance := r.balance + e.balance);
      r := r.(totalDeposited := r.totalDeposited + e.deposited, totalBorrowed := r.totalBorrowed + e.borrowed);
      r := r.(book := r.book.(repayDust := r.book.repayDust + e.dust, writtenOff := r.book.writtenOff + e.writtenOff));
      assets := assets[a := r];
    }

    method Deposit(u: Address, a: Address, amount: int) returns (r: Check)
      modifies this
      ensures Meets(r, View(), Ledger.Deposit(old(View()), u, a, amount))
    {
      hide Accrue, Realised, Touch, Post, CheckSupplyCaps;
      if paused {
        return Fail(ContractPaused);
      }
      if !ReadAsset(a).supported {
        return Fail(UnsupportedAsset);
      }
      r := RequirePositive(amount);
      if r.Fail? {
        return;
      }
      AccrueAndPersist(a);
      r := CheckSupplyCaps(ReadAsset(a), amount);
      if r.Fail? {
        return;
      }
      var p := Realised(View(), u, a);
      AccrueUserRewards(u, a, p);
      WriteBack(u, a, p, Entry(amount, 0, amount, 0, 0));
    }

    method Borrow(u: Address, a: Address, collateral: Address, amount: int) returns (r: Check)
      modifies this
      ensures Meets(r, View(), Ledger.Borrow(old(View()), u, a, collateral, amount))
    {
      hide Accrue, Realised, Touch, Post, CheckBorrowCaps, CheckHealth;
      if paused {
        return Fail(ContractPaused);
      }
      if !ReadAsset(a).supported || !ReadAsset(collateral).supported {
        return Fail(UnsupportedAsset);
      }
      r := RequirePositive(amount);
      if r.Fail? {
        return;
      }
      AccrueAndPersist(a);
      r := CheckBorrowCaps(ReadAsset(a), amount);
      if r.Fail? {
        return;
      }
      var p := Realised(View(), u, a);
      AccrueUserRewards(u, a, p);
      if amount > ReadAsset(a).balance {
        return Fail(InsufficientReserve);
      }
      r := AssertCollateralized(u, a, amount, NoCut);
      if r.Fail? {
        return;
      }
      WriteBack(u, a, p, Entry(0, amount, -amount, 0, 0));
    }

    method Repay(u: Address, a: Address, amount: int) returns (r: Check)
      modifies this
      ensures Meets(r, View(), Ledger.Repay(old(View()), u, a, amount))
    {
      hide Accrue, Realised, Touch, Post;
      if !ReadAsset(a).supported {
        return Fail(UnsupportedAsset);
      }
      r := RequirePositive(amount);
      if r.Fail? {
        return;
      }
      AccrueAndPersist(a);
      var p := Realised(View(), u, a);
      AccrueUserRewards(u, a, p);
      if amount > p.borrowed {
        return Fail(RepayTooLarge);
      }
      var left, dust := p.borrowed - amount, 0;
      if 0 < left && left <= DUST_THRESHOLD {
        dust := left;
      }
      WriteBack(u, a, p, Entry(0, -amount - dust, amount, dust, 0));
    }

    method Withdraw(u: Address, a: Address, debtAsset: Address, amount: int) returns (r: Check)
      modifies this
      ensures Meets(r, View(), Ledger.Withdraw(old(View()), u, a, debtAsset, amount))
    {
      hide Accrue, Realised, Touch, Post, CheckHealth;
      if !ReadAsset(a).supported || !ReadAsset(debtAsset).supported {
        return Fail(UnsupportedAsset);
      }
      r := RequirePositive(amount);
      if r.Fail? {
        return;
      }
      AccrueAndPersist(a);
      var p := Realised(View(), u, a);
      AccrueUserRewards(u, a, p);
      if amount > p.deposited {
        return Fail(InsufficientDeposit);
      }
      if amount > ReadAsset(a).balance {
        return Fail(InsufficientReserve);
      }
      r := AssertCollateralized(u, debtAsset, 0, Cut(a, amount));
      if r.Fail? {
        return;
      }
      WriteBack(u, a, p, Entry(-amount, 0, -amount, 0, 0));
    }

    // Batches.

    method ValidateAll(ops: seq<BatchOp>) returns (r: Check)
      ensures r == ValidateOps(View(), ops)
    {
      var i := 0;
      while i < |ops|
        invariant 0 <= i <= |ops| && ValidateOps(View(), ops[..i]).Pass?
      {
        NextPrefix(ops, i);
        if !ReadAsset(ops[i].asset).supported {
          ValidateStops(View(), ops, i + 1);
          return Fail(UnsupportedAsset);
        }
        r := RequirePositive(ops[i].amount);
        if r.Fail? {
          ValidateStops(View(), ops, i + 1);
          return;
        }
        i := i + 1;
      }
      assert ops[..i] == ops;
      return Pass;
    }

    /** Groups the amounts, then compares each asset's total with its caps. */
    method CheckCapsOfBatch(ops: seq<BatchOp>, supply: bool) returns (r: Check)
      ensures r == CheckBatchCaps(View(), ops, UniqueAssets(ops), supply)
    {
      hide CheckSupplyCaps, CheckBorrowCaps, TotalFor, UniqueAssets;
      var totals := GroupByAsset(ops);
      ghost var list := UniqueAssets(ops);
      var i := 0;
      while i < |totals|
        invariant 0 <= i <= |totals| && CheckBatchCaps(View(), ops, list[..i], supply).Pass?
      {
        NextPrefix(list, i);
        var (a, total) := totals[i];
        r := if supply then CheckSupplyCaps(ReadAsset(a), total) else CheckBorrowCaps(ReadAsset(a), total);
        if r.Fail? {
          CapsStop(View(), ops, list, supply, i + 1);
          return;
        }
        i := i + 1;
      }
      assert list[..i] == list;
      return Pass;
    }

    /** One operation of a batch: accrue, realise, settle rewards, check, write back. */
    method Execute(k: Kind, u: Address, a: Address, amount: int) returns (r: Check)
      modifies this
      ensures Meets(r, View(), Body(k, Accrue(old(View()), a), u, a, amount))
    {
      hide Accrue, Realised, Touch, Post;
      AccrueAndPersist(a);
      var p := Realised(View(), u, a);
      ghost var accrued := View();
      AccrueUserRewards(u, a, p);
      TouchKeepsBalance(accrued, u, a, p);
      var reserve := ReadAsset(a).balance;
      match k {
        case Supplying =>
          WriteBack(u, a, p, Entry(amount, 0, amount, 0, 0));
        case Borrowing =>
          if amount > reserve {
            return Fail(InsufficientReserve);
          }
          WriteBack(u, a, p, Entry(0, amount, -amount, 0, 0));
        case Repaying =>
          if amount > p.borrowed {
            return Fail(RepayTooLarge);
          }
          var left, dust := p.borrowed - amount, 0;
          if 0 < left && left <= DUST_THRESHOLD {
            dust := left;
          }
          WriteBack(u, a, p, Entry(0, -amount - dust, amount, dust, 0));
        case Withdrawing =>
          if amount > p.deposited {
            return Fail(InsufficientDeposit);
          }
          if amount > reserve {
            return Fail(InsufficientReserve);
          }
          WriteBack(u, a, p, Entry(-amount, 0, -amount, 0, 0));
      }
      return Pass;
    }

    method ExecuteAll(k: Kind, u: Address, ops: seq<BatchOp>) returns (r: Check)
      modifies this
      ensures Meets(r, View(), Bodies(k, old(View()), u, ops))
    {
      hide Accrue, Body;
      var i := 0;
      while i < |ops|
        invariant 0 <= i <= |ops| && Bodies(k, old(View()), u, ops[..i]) == Ok(View())
      {
        NextPrefix(ops, i);
        r := Execute(k, u, ops[i].asset, ops[i].amount);
        if r.Fail? {
          BodiesStop(k, old(View()), u, ops, i + 1);
          return;
        }
        i := i + 1;
      }
      assert ops[..i] == ops;
      return Pass;
    }

    /** The joint check of a borrow batch: all the debts it names against all the collateral. */
    method RequireBatchCovered(u: Address, ops: seq<BatchOp>) returns (r: Check)
      ensures r == CheckBatchBorrowHealth(View(), u, UniqueAssets(ops))
    {
      hide Realised, PriceOf, CoverDebt, UniqueAssets;
      var list := DeduplicateAssets(ops);
      var value := 0;
      var i := 0;
      while i < |list|
        invariant 0 <= i <= |list| && DebtValue(View(), u, list[..i]) == Ok(value)
      {
        NextPrefix(list, i);
        var price := PriceOf(View(), list[i]);
        if price.Err? {
          DebtValueStops(View(), u, list, i + 1);
          return Fail(price.error);
        }
        value := value + Realised(View(), u, list[i]).borrowed * price.value;
        i := i + 1;
      }
      assert list[..i] == list;
      if value == 0 {
        return Pass;
      }
      r := RequireCovered(u, value, NoCut);
    }

    method DepositBatch(u: Address, ops: seq<BatchOp>) returns (r: Check)
      modifies this
      ensures Meets(r, View(), Ledger.DepositBatch(old(View()), u, ops))
    {
      hide AccrueAll, Bodies, ValidateOps, CheckBatchCaps, UniqueAssets;
      if paused {
        return Fail(ContractPaused);
      }
      var list := DeduplicateAssets(ops);
      AccrueAssetsOnce(list);
      r := ValidateAll(ops);
      if r.Fail? {
        return;
      }
      r := CheckCapsOfBatch(ops, true);
      if r.Fail? {
        return;
      }
      r := ExecuteAll(Supplying, u, ops);
    }

    method RepayBatch(u: Address, ops: seq<BatchOp>) returns (r: Check)
      modifies this
      ensures Meets(r, View(), Ledger.RepayBatch(old(View()), u, ops))
    {
      hide AccrueAll, Bodies, ValidateOps, UniqueAssets;
      var list := DeduplicateAssets(ops);
      AccrueAssetsOnce(list);
      r := ValidateAll(ops);
      if r.Fail? {
        return;
      }
      r := ExecuteAll(Repaying, u, ops);
    }

    method BorrowBatch(u: Address, collateral: Address, ops: seq<BatchOp>) returns (r: Check)
      modifies this
      ensures Meets(r, View(), Ledger.BorrowBatch(old(View()), u, collateral, ops))
    {
      hide AccrueAll, Bodies, ValidateOps, CheckBatchCaps, UniqueAssets, CheckBatchBorrowHealth;
      if paused {
        return Fail(ContractPaused);
      }
      if !ReadAsset(collateral).supported {
        return Fail(UnsupportedAsset);
      }
      var list := DeduplicateAssets(ops);
      if collateral !in list {
        list := list + [collateral];
      }
      AccrueAssetsOnce(list);
      r := ValidateAll(ops);
      if r.Fail? {
        return;
      }
      r := CheckCapsOfBatch(ops, false);
      if r.Fail? {
        return;
      }
      r := ExecuteAll(Borrowing, u, ops);
      if r.Fail? {
        return;
      }
      r := RequireBatchCovered(u, ops);
    }

    method WithdrawBatch(u: Address, debtAsset: Address, ops: seq<BatchOp>) returns (r: Check)
      modifies this
      ensures Meets(r, View(), Ledger.WithdrawBatch(old(View()), u, debtAsset, ops))
    {
      hide AccrueAll, Bodies, ValidateOps, UniqueAssets, CheckHealth;
      if !ReadAsset(debtAsset).supported {
        return Fail(UnsupportedAsset);
      }
      var list := DeduplicateAssets(ops);
      if debtAsset !in list {
        list := list + [debtAsset];
      }
      AccrueAssetsOnce(list);
      r := ValidateAll(ops);
      if r.Fail? {
        return;
      }
      r := ExecuteAll(Withdrawing, u, ops);
      if r.Fail? {
        return;
      }
      r := AssertCollateralized(u, debtAsset, 0, NoCut);
    }

    // Liquidation and write-off.

    method Liquidate(l: Address, u: Address, collateral: Address, debtAsset: Address, amount: int) returns (r: Check)
      modifies this
      ensures Meets(r, View(), Ledger.Liquidate(old(View()), l, u, collateral, debtAsset, amount))
    {
      hide Accrue, Realised, Touch, Post, PutPosition, WeightedValue, PriceOf, SeizeValue;
      if !ReadAsset(collateral).supported || !ReadAsset(debtAsset).supported {
        return Fail(UnsupportedAsset);
      }
      r := RequirePositive(amount);
      if r.Fail? {
        return;
      }
      ghost var start := View();
      AccrueAndPersist(debtAsset);
      AccrueAndPersist(collateral);
      var debt := Realised(View(), u, debtAsset);
      var held := Realised(View(), u, collateral);
      AccrueUserRewards(u, debtAsset, debt);
      AccrueUserRewards(u, collateral, held);
      AccrueUserRewards(l, collateral, Realised(View(), l, collateral));
      assert View() == PrepareLiquidation(start, l, u, collateral, debtAsset);
      PrepareReads(start, l, u, collateral, debtAsset);
      assert debt == Realised(View(), u, debtAsset) && held == Realised(View(), u, collateral);
      if debt.borrowed == 0 {
        return Fail(PositionNotLiquidatable);
      }
      var debtPrice := PriceOf(View(), debtAsset);
      if debtPrice.Err? {
        return Fail(debtPrice.error);
      }
      var weighted := WeightedCollateral(u, LiquidationThreshold, NoCut);
      if weighted.Err? {
        return Fail(weighted.error);
      }
      if weighted.value >= debt.borrowed * debtPrice.value * 10_000 {
        return Fail(PositionNotLiquidatable);
      }
      var repaid := Min(amount, debt.borrowed);
      if repaid > TruncDiv(debt.borrowed * closeFactorBps, 10_000) {
        return Fail(LiquidationTooLarge);
      }
      if repaid <= 0 {
        return Fail(ZeroAmount);
      }
      var collateralPrice := PriceOf(View(), collateral);
      if collateralPrice.Err? {
        return Fail(collateralPrice.error);
      }
      Health.PricePositive(View(), collateral);
      var seized := Min(TruncDiv(SeizeValue(repaid * debtPrice.value, discountBps), collateralPrice.value), held.deposited);
      WriteBack(u, debtAsset, debt, Entry(0, -repaid, repaid, 0, 0));
      WritePosition(u, collateral, held.(deposited := held.deposited - seized));
      var gained := Realised(View(), l, collateral);
      WritePosition(l, collateral, gained.(deposited := gained.deposited + seized));
      return Pass;
    }

    method WriteoffBadDebt(u: Address, debtAsset: Address) returns (r: Check)
      modifies this
      ensures Meets(r, View(), Ledger.WriteoffBadDebt(old(View()), u, debtAsset))
    {
      hide Accrue, Realised, Post;
      if paused {
        return Fail(ContractPaused);
      }
      AccrueAndPersist(debtAsset);
      ghost var start := View();
      var debt := Realised(View(), u, debtAsset);
      if debt.borrowed == 0 {
        return Pass;
      }
      var i := 0;
      AccrueKeepsList(old(View()), debtAsset);
      while i < |listed|
        invariant 0 <= i <= |listed| && listed == old(listed)
        invariant AccrueUncollateralised(start, u, listed[..i]) == Ok(View())
      {
        NextPrefix(listed, i);
        AccrueKeepsList(View(), listed[i]);
        AccrueAndPersist(listed[i]);
        if Realised(View(), u, listed[i]).deposited > 0 {
          UncollateralisedStops(start, u, listed, i + 1);
          return Fail(BadDebtStillCollateralized);
        }
        i := i + 1;
      }
      assert listed[..i] == listed;
      WriteBack(u, debtAsset, debt, Entry(0, -debt.borrowed, 0, 0, debt.borrowed));
      return Pass;
    }

    // Rewards.

    method RealizeUnclaimedForAsset(u: Address, a: Address) returns (amount: int)
      modifies this
      ensures (View(), amount) == RealizeUnclaimed(old(View()), u, a)
    {
      hide Accrue, Realised, Touch;
      AccrueAndPersist(a);
      AccrueUserRewards(u, a, Realised(View(), u, a));
      var c := ReadAccount(u, a);
      amount := c.rew.unclaimedSupply + c.rew.unclaimedBorrow;
      if amount > 0 {
        var r := ReadAsset(a);
        accounts := accounts[(u, a) := c.(rew := c.rew.(unclaimedSupply := 0, unclaimedBorrow := 0))];
        assets := assets[a := r.(book := r.book.(grantedSupply := r.book.grantedSupply + c.rew.unclaimedSupply,
                                                 grantedBorrow := r.book.grantedBorrow + c.rew.unclaimedBorrow))];
      }
    }

    method PushVestingGrant(u: Address, amount: int)
      modifies this
      ensures View() == PushGrant(old(View()), u, amount)
    {
      var mine := GrantsOf(View(), u);
      grants := grants[u := mine + [Grant(amount, 0, now, vestCliff, vestDuration)]];
      grantedTotal := grantedTotal + amount;
    }

    method ClaimAsset(u: Address, a: Address) returns (r: Check)
      modifies this
      ensures Meets(r, View(), Ledger.ClaimAsset(old(View()), u, a))
    {
      hide RealizeUnclaimed;
      var amount := RealizeUnclaimedForAsset(u, a);
      if amount == 0 {
        return Fail(ZeroAmount);
      }
      PushVestingGrant(u, amount);
      return Pass;
    }

    method ClaimAll(u: Address) returns (r: Check)
      modifies this
      ensures Meets(r, View(), Ledger.ClaimAll(old(View()), u))
    {
      hide RealizeUnclaimed;
      var list := listed;
      var total := 0;
      var i := 0;
      while i < |list|
        invariant 0 <= i <= |list| && (View(), total) == RealizeAll(old(View()), u, list[..i])
      {
        NextPrefix(list, i);
        var amount := RealizeUnclaimedForAsset(u, list[i]);
        total := total + amount;
        i := i + 1;
      }
      assert list[..i] == list;
      if total == 0 {
        return Fail(ZeroAmount);
      }
      PushVestingGrant(u, total);
      return Pass;
    }

    /** Pays what has vested; a first loop sums it, a second one moves the claimed counters and prunes. */
    method VestClaimable(u: Address, available: int) returns (r: Check)
      modifies this
      ensures Meets(r, View(), Ledger.VestClaimable(old(View()), u, available))
    {
      hide ComputeReleasable, ComputeVested;
      var mine := GrantsOf(View(), u);
      var payout := 0;
      var i := 0;
      while i < |mine|
        invariant View() == old(View())
        invariant 0 <= i <= |mine| && payout == TotalReleasable(mine[..i], now)
      {
        NextPrefix(mine, i);
        payout := payout + ComputeReleasable(mine[i], now);
        i := i + 1;
      }
      assert mine[..i] == mine;
      if payout == 0 {
        return Fail(ZeroAmount);
      }
      if available < payout {
        return Fail(InsufficientReserve);
      }
      var remaining := [];
      var j := 0;
      while j < |mine|
        invariant View() == old(View())
        invariant 0 <= j <= |mine| && remaining == Remaining(mine[..j], now)
      {
        NextPrefix(mine, j);
        var g := mine[j].(claimed := ComputeVested(mine[j], now));
        SettleAllAppend(mine[..j], mine[j], now);
        assert mine[..j + 1] == mine[..j] + [mine[j]];
        UnfinishedAppend(SettleAll(mine[..j], now), g);
        if g.claimed < g.amount {
          remaining := remaining + [g];
        }
        j := j + 1;
      }
      assert mine[..j] == mine;
      grants := grants[u := remaining];
      paidTotal := paidTotal + payout;
      return Pass;
    }

    // Flash loans.

    method FlashLoan(a: Address, amount: int, callbackReturns: bool) returns (r: Check)
      modifies this
      ensures Meets(r, View(), Ledger.FlashLoan(old(View()), a, amount, callbackReturns))
    {
      hide Accrue, PremiumRoundedUp;
      if paused {
        return Fail(ContractPaused);
      }
      if !ReadAsset(a).supported {
        return Fail(UnsupportedAsset);
      }
      r := RequirePositive(amount);
      if r.Fail? {
        return;
      }
      var flash := ReadAsset(a).flash;
      if flash.None? {
        return Fail(FlashLoanNotConfigured);
      }
      if !flash.value.enabled {
        return Fail(FlashLoanDisabled);
      }
      AccrueAndPersist(a);
      var asset := ReadAsset(a);
      if amount > TruncDiv(asset.balance * flash.value.maxBps, 10_000) {
        return Fail(FlashLoanExceedsMaxBps);
      }
      if amount > asset.balance {
        return Fail(InsufficientReserve);
      }
      var premium := PremiumRoundedUp(amount, flash.value.premiumBps);
      // The loan leaves the pool, the receiver runs, and loan and premium come back.
      asset := asset.(balance := asset.balance - amount, totalDeposited := asset.totalDeposited - amount);
      if !callbackReturns {
        return Fail(FlashLoanCallbackFailed);
      }
      asset := asset.(balance := asset.balance + (amount + premium),
                      totalDeposited := asset.totalDeposited + (amount + premium),
                      fees := asset.fees + premium,
                      book := asset.book.(premiums := asset.book.premiums + premium));
      WriteAsset(a, asset);
      return Pass;
    }

    // Transactions.

    /** The entrypoints that this class carries out. */
    static predicate Carries(call: Call) {
      call.DoDeposit? || call.DoBorrow? || call.DoRepay? || call.DoWithdraw?
      || call.DoDepositBatch? || call.DoBorrowBatch? || call.DoRepayBatch? || call.DoWithdrawBatch?
      || call.DoLiquidate? || call.DoWriteoff? || call.DoFlashLoan?
      || call.DoClaimAsset? || call.DoClaimAll? || call.DoVestClaimable?
    }

    method Dispatch(call: Call) returns (r: Check)
      requires Carries(call)
      modifies this
      ensures Meets(r, View(), Invoke(old(View()), call))
    {
      match call {
        case DoDeposit(u, a, amount) => r := Deposit(u, a, amount);
        case DoBorrow(u, a, collateral, amount) => r := Borrow(u, a, collateral, amount);
        case DoRepay(u, a, amount) => r := Repay(u, a, amount);
        case DoWithdraw(u, a, debtAsset, amount) => r := Withdraw(u, a, debtAsset, amount);
        case DoDepositBatch(u, ops) => r := DepositBatch(u, ops);
        case DoBorrowBatch(u, collateral, ops) => r := BorrowBatch(u, collateral, ops);
        case DoRepayBatch(u, ops) => r := RepayBatch(u, ops);
        case DoWithdrawBatch(u, debtAsset, ops) => r := WithdrawBatch(u, debtAsset, ops);
        case DoLiquidate(l, u, collateral, debtAsset, amount) => r := Liquidate(l, u, collateral, debtAsset, amount);
        case DoWriteoff(u, debtAsset) => r := WriteoffBadDebt(u, debtAsset);
        case DoFlashLoan(a, amount, ok) => r := FlashLoan(a, amount, ok);
        case DoClaimAsset(u, a) => r := ClaimAsset(u, a);
        case DoClaimAll(u) => r := ClaimAll(u);
        case DoVestClaimable(u, available) => r := VestClaimable(u, available);
      }
    }

    method RestoreBooks(saved: State)
      modifies this
      ensures View() == old(View()).(
                listed := saved.listed, assets := saved.assets, accounts := saved.accounts, grants := saved.grants,
                grantedTotal := saved.grantedTotal, paidTotal := saved.paidTotal)
    {
      listed, assets, accounts, grants := saved.listed, saved.assets, saved.accounts, saved.grants;
      grantedTotal, paidTotal := saved.grantedTotal, saved.paidTotal;
    }

    method Restore(saved: State)
      modifies this
      ensures View() == saved
    {
      RestoreBooks(saved);
      now, paused, vestCliff, vestDuration := saved.now, saved.paused, saved.vestCliff, saved.vestDuration;
      minRatioBps, closeFactorBps, discountBps := saved.minRatioBps, saved.closeFactorBps, saved.discountBps;
      maxOracleAge, maxFeeBps := saved.maxOracleAge, saved.maxFeeBps;
    }

    /** One transaction: the host restores all storage when the contract panics. */
    method Transact(call: Call) returns (r: Check)
      requires Carries(call)
      modifies this
      ensures View() == After(old(View()), call)
      ensures r.Pass? <==> Invoke(old(View()), call).Ok?
      ensures Sound(old(View())) ==> Sound(View())
    {
      hide Invoke, Sound;
      var saved := View();
      r := Dispatch(call);
      if r.Fail? {
        Restore(saved);
      }
      if Sound(old(View())) {
        CallKeepsSound(old(View()), call);
      }
    }
  }
}
