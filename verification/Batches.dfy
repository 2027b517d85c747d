/**
 * The batch entrypoints against the single ones: accruals at one time commute and repeat harmlessly, so a
 * batch computes the state of its operations one by one, and its up-front and final checks stand for theirs.
 */
module Batches {
  import opened Prelude
  import opened Arith
  import opened Interest
  import opened Rewards
  import opened Ledger
  import opened Invariants
  import opened Health

  /** The operations of a batch as separate calls; `partner` is the other asset that each of them names. */
  function Each(k: Kind, s: State, u: Address, partner: Address, ops: seq<BatchOp>): Result<State> {
    if |ops| == 0 then Ok(s)
    else
      var op := ops[|ops| - 1];
      var t :- Each(k, s, u, partner, ops[..|ops| - 1]);
      Invoke(t, SingleCall(k, u, op.asset, partner, op.amount))
  }

  predicate Names(ops: seq<BatchOp>, a: Address) {
    exists i | 0 <= i < |ops| :: ops[i].asset == a
  }

  // ---------------------------------------------------------------- accruals and bodies commute

  function ThenAccrue(r: Result<State>, b: Address): Result<State> {
    match r
    case Ok(t) => Ok(Accrue(t, b))
    case Err(e) => Err(e)
  }

  function ThenAccrueAll(r: Result<State>, list: seq<Address>): Result<State> {
    match r
    case Ok(t) => Ok(AccrueAll(t, list))
    case Err(e) => Err(e)
  }

  lemma AccrueFresh(s: State, a: Address)
    requires Fresh(AssetOf(s, a), s.now)
    ensures Accrue(s, a) == s
  {
  }

  lemma AccrueIsFresh(s: State, a: Address)
    ensures Fresh(AssetOf(Accrue(s, a), a), s.now) && Accrue(s, a).now == s.now
    ensures forall b | b != a :: AssetOf(Accrue(s, a), b) == AssetOf(s, b)
    ensures forall b | Fresh(AssetOf(s, b), s.now) :: AssetOf(Accrue(s, a), b) == AssetOf(s, b)
  {
    hide ComputeAccrual;
    AccrueAssetFacts(AssetOf(s, a), s.now);
  }

  lemma AccrueCommutes(s: State, a: Address, b: Address)
    ensures Accrue(Accrue(s, a), b) == Accrue(Accrue(s, b), a)
  {
    hide AccrueAsset;
    if a != b {
      assert Accrue(Accrue(s, a), b).assets == Accrue(Accrue(s, b), a).assets;
    }
  }

  /** An operation rewrites one asset record and one account. */
  function PostedAsset(r: Asset, now: nat, e: Entry): Asset {
    PostAsset(AdvanceRewards(r, now), e)
  }

  function PostedAccount(c: Account, pool: AssetRewards, p: Position, e: Entry): Account {
    Account(Stored(p.(deposited := p.deposited + e.deposited, borrowed := p.borrowed + e.borrowed)),
            AccrueFromIndexes(c.rew, pool, p.deposited, p.borrowed))
  }

  lemma TouchAndPostForm(s: State, u: Address, a: Address, e: Entry)
    ensures var r := AdvanceRewards(AssetOf(s, a), s.now);
      && r.rewards.Some?
      && TouchAndPost(s, u, a, e) == s.(
           assets := s.assets[a := PostedAsset(AssetOf(s, a), s.now, e)],
           accounts := s.accounts[(u, a) := PostedAccount(AccountOf(s, u, a), r.rewards.value, Realised(s, u, a), e)])
  {
    hide Realised, AccrueFromIndexes, Stored;
    var t := TouchAndPost(s, u, a, e);
    assert t.assets == s.assets[a := PostedAsset(AssetOf(s, a), s.now, e)];
    var r := AdvanceRewards(AssetOf(s, a), s.now);
    assert t.accounts == s.accounts[(u, a) := PostedAccount(AccountOf(s, u, a), r.rewards.value, Realised(s, u, a), e)];
  }

  lemma PostedAssetFrame(r: Asset, now: nat, e: Entry)
    ensures var q := PostedAsset(r, now, e);
      && q.interest == r.interest && SameTerms(r, q)
      && q.totalDeposited == r.totalDeposited + e.deposited && q.totalBorrowed == r.totalBorrowed + e.borrowed
      && (Fresh(r, now) ==> Fresh(q, now))
  {
    hide ComputeIndexAdvance;
  }

  lemma TouchAndPostCommutes(s: State, u: Address, a: Address, e: Entry, b: Address)
    requires Fresh(AssetOf(s, a), s.now)
    ensures TouchAndPost(Accrue(s, b), u, a, e) == Accrue(TouchAndPost(s, u, a, e), b)
  {
    hide AccrueAsset, Realised, TouchAndPost, PostedAsset, PostedAccount, AdvanceRewards;
    AccrueUnseen(s, b);
    TouchAndPostForm(s, u, a, e);
    TouchAndPostForm(Accrue(s, b), u, a, e);
    if a == b {
      AccrueFresh(s, a);
      PostedAssetFrame(AssetOf(s, a), s.now, e);
      AccrueFresh(TouchAndPost(s, u, a, e), a);
    } else {
      assert TouchAndPost(Accrue(s, b), u, a, e).assets == Accrue(TouchAndPost(s, u, a, e), b).assets;
    }
  }

  lemma BodyCommutes(k: Kind, s: State, u: Address, a: Address, amount: int, b: Address)
    requires Fresh(AssetOf(s, a), s.now)
    ensures Body(k, Accrue(s, b), u, a, amount) == ThenAccrue(Body(k, s, u, a, amount), b)
  {
    hide Accrue, Realised, TouchAndPost, EntryFor;
    AccrueUnseen(s, b);
    AccrueIsFresh(s, b);
    var r := EntryFor(k, Realised(s, u, a), AssetOf(s, a).balance, amount);
    if r.Ok? {
      TouchAndPostCommutes(s, u, a, r.value, b);
    }
  }

  lemma {:induction false} BodiesCommute(k: Kind, s: State, u: Address, ops: seq<BatchOp>, b: Address)
    ensures Bodies(k, Accrue(s, b), u, ops) == ThenAccrue(Bodies(k, s, u, ops), b)
  {
    hide Accrue, Body;
    if |ops| > 0 {
      var before, op := ops[..|ops| - 1], ops[|ops| - 1];
      BodiesCommute(k, s, u, before, b);
      if Bodies(k, s, u, before).Ok? {
        var t := Bodies(k, s, u, before).value;
        AccrueCommutes(t, b, op.asset);
        AccrueIsFresh(t, op.asset);
        BodyCommutes(k, Accrue(t, op.asset), u, op.asset, op.amount, b);
      }
    }
  }

  lemma {:induction false} BodiesCommuteAll(k: Kind, s: State, u: Address, ops: seq<BatchOp>, list: seq<Address>)
    ensures Bodies(k, AccrueAll(s, list), u, ops) == ThenAccrueAll(Bodies(k, s, u, ops), list)
  {
    hide Accrue, Bodies;
    if |list| > 0 {
      BodiesCommuteAll(k, s, u, ops, list[..|list| - 1]);
      BodiesCommute(k, AccrueAll(s, list[..|list| - 1]), u, ops, list[|list| - 1]);
    }
  }

  // ---------------------------------------------------------------- a batch accrues nothing its operations do not

  lemma BodyFrame(k: Kind, s: State, u: Address, a: Address, amount: int)
    requires Fresh(AssetOf(s, a), s.now) && Body(k, s, u, a, amount).Ok?
    ensures var t := Body(k, s, u, a, amount).value;
      && t.now == s.now && t.paused == s.paused && t.listed == s.listed
      && (forall b | b != a :: AssetOf(t, b) == AssetOf(s, b))
      && Fresh(AssetOf(t, a), s.now) && SameTerms(AssetOf(s, a), AssetOf(t, a))
      && (k.Supplying? ==> AssetOf(t, a).totalDeposited == AssetOf(s, a).totalDeposited + amount)
      && (k.Borrowing? ==> AssetOf(t, a).totalBorrowed == AssetOf(s, a).totalBorrowed + amount)
  {
    hide Realised, TouchAndPost, PostedAsset, PostedAccount, SameTerms, Fresh;
    var e := EntryFor(k, Realised(s, u, a), AssetOf(s, a).balance, amount).value;
    TouchAndPostForm(s, u, a, e);
    PostedAssetFrame(AssetOf(s, a), s.now, e);
  }

  lemma {:induction false} BodiesFresh(k: Kind, s: State, u: Address, ops: seq<BatchOp>)
    requires Bodies(k, s, u, ops).Ok?
    ensures var t := Bodies(k, s, u, ops).value;
      && t.now == s.now && t.paused == s.paused && t.listed == s.listed
      && (forall b | Names(ops, b) :: Fresh(AssetOf(t, b), s.now))
      && (forall b :: AssetOf(t, b).supported == AssetOf(s, b).supported)
  {
    hide Accrue, Body, Fresh, AssetOf;
    if |ops| > 0 {
      var before, op := ops[..|ops| - 1], ops[|ops| - 1];
      BodiesFresh(k, s, u, before);
      var t := Bodies(k, s, u, before).value;
      AccrueIsFresh(t, op.asset);
      AccrueKeepsSwitches(t, op.asset);
      BodyFrame(k, Accrue(t, op.asset), u, op.asset, op.amount);
      forall b | Names(ops, b)
        ensures Fresh(AssetOf(Bodies(k, s, u, ops).value, b), s.now)
      {
        if b != op.asset {
          assert Names(before, b);
        }
      }
    }
  }

  lemma AccrueKeepsSwitches(s: State, a: Address)
    ensures var t := Accrue(s, a);
      t.paused == s.paused && t.listed == s.listed && forall b :: SameTerms(AssetOf(s, b), AssetOf(t, b))
  {
    hide ComputeAccrual;
    AccrueAssetFacts(AssetOf(s, a), s.now);
  }

  lemma {:induction false} UniqueAssetsNamed(ops: seq<BatchOp>)
    ensures forall a :: a in UniqueAssets(ops) <==> Names(ops, a)
    ensures NoDuplicates(UniqueAssets(ops))
  {
    if |ops| > 0 {
      var before, op := ops[..|ops| - 1], ops[|ops| - 1];
      UniqueAssetsNamed(before);
      forall a
        ensures Names(ops, a) <==> Names(before, a) || a == op.asset
      {
        if Names(before, a) {
          var i :| 0 <= i < |before| && before[i].asset == a;
          assert ops[i].asset == a;
        }
      }
    }
  }

  lemma {:induction false} AccrueAllFresh(s: State, list: seq<Address>)
    requires forall a | a in list :: Fresh(AssetOf(s, a), s.now)
    ensures AccrueAll(s, list) == s
  {
    hide Fresh, Accrue, AssetOf;
    if |list| > 0 {
      AccrueAllFresh(s, list[..|list| - 1]);
      AccrueFresh(s, list[|list| - 1]);
    }
  }

  /** Accruing every asset of the batch up front changes nothing in the end. */
  lemma UpFrontAccrual(k: Kind, s: State, u: Address, ops: seq<BatchOp>)
    ensures Bodies(k, AccrueAll(s, UniqueAssets(ops)), u, ops) == Bodies(k, s, u, ops)
  {
    hide Bodies, AccrueAll, Fresh, AssetOf;
    BodiesCommuteAll(k, s, u, ops, UniqueAssets(ops));
    if Bodies(k, s, u, ops).Ok? {
      BodiesFresh(k, s, u, ops);
      UniqueAssetsNamed(ops);
      AccrueAllFresh(Bodies(k, s, u, ops).value, UniqueAssets(ops));
    }
  }

  /** One more asset accrued up front is one more asset accrued at the end. */
  lemma UpFrontAccrualWith(k: Kind, s: State, u: Address, ops: seq<BatchOp>, extra: Address)
    ensures Bodies(k, AccrueAll(s, AddAsset(UniqueAssets(ops), extra)), u, ops) == ThenAccrue(Bodies(k, s, u, ops), extra)
  {
    hide Bodies, Fresh, AssetOf, Accrue, UniqueAssets;
    var list := UniqueAssets(ops);
    UpFrontAccrual(k, s, u, ops);
    if extra in list {
      UniqueAssetsNamed(ops);
      if Bodies(k, s, u, ops).Ok? {
        BodiesFresh(k, s, u, ops);
        AccrueFresh(Bodies(k, s, u, ops).value, extra);
      }
    } else {
      assert (list + [extra])[..|list|] == list;
      BodiesCommute(k, AccrueAll(s, list), u, ops, extra);
    }
  }

  // ---------------------------------------------------------------- caps

  function CheckCaps(k: Kind, r: Asset, amount: int): Check {
    match k
    case Supplying => CheckSupplyCaps(r, amount)
    case Borrowing => CheckBorrowCaps(r, amount)
    case _ => Pass
  }

  /** Every asset of the batch takes the batch's total within its caps. */
  predicate CapsHold(k: Kind, s: State, ops: seq<BatchOp>) {
    forall i | 0 <= i < |ops| :: CheckCaps(k, AssetOf(Accrue(s, ops[i].asset), ops[i].asset), TotalFor(ops, ops[i].asset)).Pass?
  }

  /** After some operations, an asset's caps see what they would have seen before them plus the amounts moved. */
  lemma {:induction false} CapsAfterBodies(k: Kind, s: State, u: Address, ops: seq<BatchOp>, a: Address, amount: int)
    requires (k.Supplying? || k.Borrowing?) && Bodies(k, s, u, ops).Ok?
    ensures CheckCaps(k, AssetOf(Accrue(Bodies(k, s, u, ops).value, a), a), amount)
              == CheckCaps(k, AssetOf(Accrue(s, a), a), TotalFor(ops, a) + amount)
  {
    hide Accrue, Body, Fresh, AssetOf, CheckCaps;
    if |ops| > 0 {
      var before, op := ops[..|ops| - 1], ops[|ops| - 1];
      var t, b := Bodies(k, s, u, before).value, op.asset;
      var t', end := Accrue(t, b), Bodies(k, s, u, ops).value;
      AccrueIsFresh(t, b);
      BodyFrame(k, t', u, b, op.amount);
      if a == b {
        CapsAfterBodies(k, s, u, before, a, op.amount + amount);
        AccrueFresh(end, a);
        CapsShift(k, AssetOf(t', a), AssetOf(end, a), op.amount, amount);
      } else {
        CapsAfterBodies(k, s, u, before, a, amount);
        AccrueSameAsset(t, end, a);
      }
    }
  }

  lemma CapsShift(k: Kind, r: Asset, q: Asset, moved: int, amount: int)
    requires SameTerms(r, q) && (k.Supplying? || k.Borrowing?)
    requires k.Supplying? ==> q.totalDeposited == r.totalDeposited + moved
    requires k.Borrowing? ==> q.totalBorrowed == r.totalBorrowed + moved
    ensures CheckCaps(k, q, amount) == CheckCaps(k, r, moved + amount)
  {
  }

  lemma AccrueSameAsset(s: State, t: State, a: Address)
    requires s.now == t.now && AssetOf(s, a) == AssetOf(t, a)
    ensures AssetOf(Accrue(s, a), a) == AssetOf(Accrue(t, a), a)
  {
  }

  lemma CapsMonotone(k: Kind, r: Asset, x: int, y: int)
    requires x <= y && CheckCaps(k, r, y).Pass?
    ensures CheckCaps(k, r, x).Pass?
  {
  }

  predicate AllPositive(ops: seq<BatchOp>) {
    forall i | 0 <= i < |ops| :: ops[i].amount > 0
  }

  lemma {:induction false} TotalForNonNeg(ops: seq<BatchOp>, a: Address)
    requires AllPositive(ops)
    ensures 0 <= TotalFor(ops, a)
  {
    if |ops| > 0 {
      TotalForNonNeg(ops[..|ops| - 1], a);
    }
  }

  /** The batch totals fit exactly when they fit without the last operation and that one fits after the others. */
  lemma CapsHoldLast(k: Kind, s: State, ops: seq<BatchOp>)
    requires AllPositive(ops) && |ops| > 0
    ensures var before, op := ops[..|ops| - 1], ops[|ops| - 1];
      CapsHold(k, s, ops) <==>
        CapsHold(k, s, before)
        && CheckCaps(k, AssetOf(Accrue(s, op.asset), op.asset), TotalFor(before, op.asset) + op.amount).Pass?
  {
    hide Accrue, AssetOf, CheckCaps;
    var before, op := ops[..|ops| - 1], ops[|ops| - 1];
    assert TotalFor(ops, op.asset) == TotalFor(before, op.asset) + op.amount;
    if CapsHold(k, s, ops) {
      assert ops[|ops| - 1] == op;
      forall i | 0 <= i < |before|
        ensures CheckCaps(k, AssetOf(Accrue(s, before[i].asset), before[i].asset), TotalFor(before, before[i].asset)).Pass?
      {
        var a := before[i].asset;
        assert ops[i].asset == a;
        CapsMonotone(k, AssetOf(Accrue(s, a), a), TotalFor(before, a), TotalFor(ops, a));
      }
    } else {
      var i :| 0 <= i < |ops|
        && !CheckCaps(k, AssetOf(Accrue(s, ops[i].asset), ops[i].asset), TotalFor(ops, ops[i].asset)).Pass?;
      if ops[i].asset != op.asset {
        assert before[i] == ops[i];
        assert TotalFor(ops, ops[i].asset) == TotalFor(before, ops[i].asset);
      }
    }
  }

  /** The loop over the distinct assets with its nested totals decides the same. */
  lemma {:induction false} BatchCapsIff(k: Kind, s: State, ops: seq<BatchOp>, list: seq<Address>)
    requires k.Supplying? || k.Borrowing?
    ensures CheckBatchCaps(s, ops, list, k.Supplying?).Pass?
      <==> forall a | a in list :: CheckCaps(k, AssetOf(s, a), TotalFor(ops, a)).Pass?
  {
    if |list| > 0 {
      BatchCapsIff(k, s, ops, list[..|list| - 1]);
      assert list == list[..|list| - 1] + [list[|list| - 1]];
    }
  }

  lemma {:induction false} AccrueAllAt(s: State, list: seq<Address>, a: Address)
    ensures AccrueAll(s, list).now == s.now && AccrueAll(s, list).paused == s.paused
    ensures AssetOf(AccrueAll(s, list), a) == if a in list then AssetOf(Accrue(s, a), a) else AssetOf(s, a)
    ensures AssetOf(AccrueAll(s, list), a).supported == AssetOf(s, a).supported
  {
    hide AccrueAsset;
    AccrueAssetFacts(AssetOf(s, a), s.now);
    if |list| > 0 {
      var before, b := list[..|list| - 1], list[|list| - 1];
      assert list == before + [b];
      AccrueAllAt(s, before, a);
      AccrueAllAt(s, before, b);
    }
  }

  /** The caps check of a batch, made on the accrued state, is the one above. */
  lemma BatchCapsAreCapsHold(k: Kind, s: State, ops: seq<BatchOp>, list: seq<Address>)
    requires (k.Supplying? || k.Borrowing?) && forall a | Names(ops, a) :: a in list
    ensures CheckBatchCaps(AccrueAll(s, list), ops, UniqueAssets(ops), k.Supplying?).Pass? <==> CapsHold(k, s, ops)
  {
    hide Accrue, AccrueAll, AssetOf, CheckCaps, CheckBatchCaps;
    UniqueAssetsNamed(ops);
    BatchCapsIff(k, AccrueAll(s, list), ops, UniqueAssets(ops));
    forall a | Names(ops, a)
      ensures AssetOf(AccrueAll(s, list), a) == AssetOf(Accrue(s, a), a)
    {
      AccrueAllAt(s, list, a);
    }
    forall i | 0 <= i < |ops|
      ensures Names(ops, ops[i].asset)
    {
    }
  }

  /** The totals of the asset are within its caps; -1 and 0 stand for none. */
  predicate WithinCaps(k: Kind, r: Asset) {
    && (k.Supplying? ==> (r.depositCap == -1 || r.totalDeposited <= r.depositCap)
                         && (r.supplyCap == 0 || r.totalDeposited <= r.supplyCap))
    && (k.Borrowing? ==> (r.borrowCap == -1 || r.totalBorrowed <= r.borrowCap)
                         && (r.aggregateBorrowCap == 0 || r.totalBorrowed <= r.aggregateBorrowCap))
  }

  /** When every check passed, every asset of the batch ends within its caps. */
  lemma BatchEndsWithinCaps(k: Kind, s: State, u: Address, ops: seq<BatchOp>, i: nat)
    requires (k.Supplying? || k.Borrowing?) && CapsHold(k, s, ops) && Bodies(k, s, u, ops).Ok? && i < |ops|
    ensures WithinCaps(k, AssetOf(Bodies(k, s, u, ops).value, ops[i].asset))
  {
    hide Accrue, Bodies, Fresh;
    var a, t := ops[i].asset, Bodies(k, s, u, ops).value;
    CapsAfterBodies(k, s, u, ops, a, 0);
    BodiesFresh(k, s, u, ops);
    assert Names(ops, a);
    AccrueFresh(t, a);
  }

  // ---------------------------------------------------------------- one by one

  /** The debt asset whose health an operation is checked against. */
  function CheckedDebt(k: Kind, a: Address, partner: Address): Address {
    if k.Borrowing? then a else partner
  }

  predicate Switches(k: Kind, s: State, partner: Address) {
    && (k.Supplying? || k.Borrowing? ==> !s.paused)
    && (k.Borrowing? || k.Withdrawing? ==> AssetOf(s, partner).supported)
  }

  /** A single operation succeeds exactly when its guards pass and the state it writes is healthy. */
  lemma SingleOkIff(k: Kind, s: State, u: Address, a: Address, partner: Address, amount: int)
    requires k.Borrowing? || k.Withdrawing? ==> Sound(s)
    ensures var body := Body(k, Accrue(s, a), u, a, amount);
      Invoke(s, SingleCall(k, u, a, partner, amount)).Ok? <==>
        && Switches(k, s, partner) && AssetOf(s, a).supported && amount > 0
        && CheckCaps(k, AssetOf(Accrue(s, a), a), amount).Pass?
        && body.Ok?
        && (k.Borrowing? || k.Withdrawing? ==> CheckHealth(body.value, u, CheckedDebt(k, a, partner), 0, NoCut).Pass?)
  {
    hide Sound, Accrue, AssetOf, Realised, CheckHealth, Post, Touch, CheckBorrowCaps, CheckSupplyCaps;
    if k.Borrowing? || k.Withdrawing? {
      var t := Accrue(s, a);
      var p := Realised(t, u, a);
      OperationStage(s, u, a);
      TouchUnseen(t, u, a, p);
      PreWriteCheckIsPostWriteCheck(Touch(t, u, a, p), u, a, partner, amount);
    }
  }

  /** The state after every prefix of the batch passes the check of its last operation. */
  predicate PrefixesHealthy(k: Kind, s: State, u: Address, partner: Address, ops: seq<BatchOp>) {
    |ops| > 0 ==>
      && PrefixesHealthy(k, s, u, partner, ops[..|ops| - 1])
      && Bodies(k, s, u, ops).Ok?
      && CheckHealth(Bodies(k, s, u, ops).value, u, CheckedDebt(k, ops[|ops| - 1].asset, partner), 0, NoCut).Pass?
  }

  lemma {:induction false} ValidateIff(s: State, ops: seq<BatchOp>)
    ensures ValidateOps(s, ops).Pass? <==> AllPositive(ops) && forall i | 0 <= i < |ops| :: AssetOf(s, ops[i].asset).supported
  {
    if |ops| > 0 {
      ValidateIff(s, ops[..|ops| - 1]);
    }
  }

  lemma ValidateFrame(s: State, t: State, ops: seq<BatchOp>)
    requires forall b :: AssetOf(s, b).supported == AssetOf(t, b).supported
    ensures ValidateOps(s, ops).Pass? == ValidateOps(t, ops).Pass?
  {
    hide AssetOf, ValidateOps;
    ValidateIff(s, ops);
    ValidateIff(t, ops);
  }

  /** A sequence of single operations runs the same bodies. */
  lemma {:induction false} EachRunsBodies(k: Kind, s: State, u: Address, partner: Address, ops: seq<BatchOp>)
    requires Each(k, s, u, partner, ops).Ok?
    ensures Each(k, s, u, partner, ops) == Bodies(k, s, u, ops) && AllPositive(ops)
  {
    hide Accrue, Body, Invoke;
    if |ops| > 0 {
      EachRunsBodies(k, s, u, partner, ops[..|ops| - 1]);
      SingleForm(k, Each(k, s, u, partner, ops[..|ops| - 1]).value, u, ops[|ops| - 1].asset, partner, ops[|ops| - 1].amount);
    }
  }

  /** A sequence of single operations succeeds exactly when these checks on the initial state and the bodies pass. */
  lemma {:induction false} EachOkIff(k: Kind, s: State, u: Address, partner: Address, ops: seq<BatchOp>)
    requires k.Borrowing? || k.Withdrawing? ==> Sound(s)
    ensures Each(k, s, u, partner, ops).Ok? <==>
      && (|ops| > 0 ==> Switches(k, s, partner)) && ValidateOps(s, ops).Pass?
      && CapsHold(k, s, ops) && Bodies(k, s, u, ops).Ok?
      && (k.Borrowing? || k.Withdrawing? ==> PrefixesHealthy(k, s, u, partner, ops))
  {
    hide Sound, Accrue, AssetOf, Body, Invoke, CheckHealth, CapsHold, CheckCaps;
    if |ops| == 0 {
      EmptyCapsHold(k, s);
    } else {
      var before, op := ops[..|ops| - 1], ops[|ops| - 1];
      EachOkIff(k, s, u, partner, before);
      ValidateIff(s, ops);
      if Bodies(k, s, u, before).Ok? && ValidateOps(s, ops).Pass? {
        CapsHoldLast(k, s, ops);
        var t := Bodies(k, s, u, before).value;
        BodiesFresh(k, s, u, before);
        if k.Borrowing? || k.Withdrawing? {
          BodiesSound(k, s, u, before);
        }
        SingleOkIff(k, t, u, op.asset, partner, op.amount);
        CapsFree(k, s, t, op.asset, TotalFor(before, op.asset), op.amount);
        if k.Supplying? || k.Borrowing? {
          CapsAfterBodies(k, s, u, before, op.asset, op.amount);
        }
      }
      if Each(k, s, u, partner, before).Ok? {
        EachRunsBodies(k, s, u, partner, before);
        var t := Each(k, s, u, partner, before).value;
        BodiesFresh(k, s, u, before);
        if k.Borrowing? || k.Withdrawing? {
          BodiesSound(k, s, u, before);
        }
        SingleOkIff(k, t, u, op.asset, partner, op.amount);
      }
    }
  }

  lemma EmptyCapsHold(k: Kind, s: State)
    ensures CapsHold(k, s, [])
  {
  }

  lemma CapsFree(k: Kind, s: State, t: State, a: Address, moved: int, amount: int)
    ensures k.Repaying? || k.Withdrawing? ==>
      CheckCaps(k, AssetOf(Accrue(s, a), a), moved + amount).Pass? && CheckCaps(k, AssetOf(Accrue(t, a), a), amount).Pass?
  {
  }

  /** No successful sequence of deposits or of borrows leaves an asset it touched above its caps. */
  lemma SequenceEndsWithinCaps(k: Kind, s: State, u: Address, partner: Address, ops: seq<BatchOp>, i: nat)
    requires (k.Supplying? || k.Borrowing?) && Sound(s) && Each(k, s, u, partner, ops).Ok? && i < |ops|
    ensures WithinCaps(k, AssetOf(Each(k, s, u, partner, ops).value, ops[i].asset))
  {
    hide Sound, Each, CapsHold, Bodies, WithinCaps, AssetOf;
    EachOkIff(k, s, u, partner, ops);
    EachRunsBodies(k, s, u, partner, ops);
    BatchEndsWithinCaps(k, s, u, ops, i);
  }

  // ---------------------------------------------------------------- deposit and repay batches

  /**
   * A deposit batch is its deposits one by one: same success and same final state, for any list with any
   * repetitions. The one difference is a paused contract and an empty list, which only the batch rejects.
   */
  lemma DepositBatchIsFold(s: State, u: Address, ops: seq<BatchOp>)
    ensures var one, all := DepositBatch(s, u, ops), Each(Supplying, s, u, u, ops);
      && (one.Ok? ==> all == one)
      && ((one.Ok? <==> all.Ok?) <==> (!s.paused || |ops| > 0))
  {
    hide Bodies, CapsHold, CheckBatchCaps, ValidateOps, Accrue, AccrueAll, AssetOf, UniqueAssets;
    var list := UniqueAssets(ops);
    EachOkIff(Supplying, s, u, u, ops);
    UniqueAssetsNamed(ops);
    BatchCapsAreCapsHold(Supplying, s, ops, list);
    AccrueAllSwitches(s, list);
    ValidateFrame(s, AccrueAll(s, list), ops);
    UpFrontAccrual(Supplying, s, u, ops);
    SupplyingNeverFails(s, u, ops);
    if Each(Supplying, s, u, u, ops).Ok? {
      EachRunsBodies(Supplying, s, u, u, ops);
    }
    if |ops| == 0 {
      EmptyCapsHold(Supplying, s);
    }
  }

  lemma AccrueAllSwitches(s: State, list: seq<Address>)
    ensures AccrueAll(s, list).paused == s.paused
    ensures forall b :: AssetOf(AccrueAll(s, list), b).supported == AssetOf(s, b).supported
  {
    hide AssetOf, AccrueAll;
    AccrueAllAt(s, list, Address(0));
    forall b
      ensures AssetOf(AccrueAll(s, list), b).supported == AssetOf(s, b).supported
    {
      AccrueAllAt(s, list, b);
    }
  }

  lemma {:induction false} SupplyingNeverFails(s: State, u: Address, ops: seq<BatchOp>)
    ensures Bodies(Supplying, s, u, ops).Ok?
  {
    hide Accrue, Realised, TouchAndPost;
    if |ops| > 0 {
      SupplyingNeverFails(s, u, ops[..|ops| - 1]);
    }
  }

  /** A repay batch is its repayments one by one, for every state and every list. */
  lemma RepayBatchIsFold(s: State, u: Address, ops: seq<BatchOp>)
    ensures RepayBatch(s, u, ops).Ok? <==> Each(Repaying, s, u, u, ops).Ok?
    ensures RepayBatch(s, u, ops).Ok? ==> RepayBatch(s, u, ops) == Each(Repaying, s, u, u, ops)
  {
    hide Bodies, CapsHold, ValidateOps, Accrue, AccrueAll, AssetOf, UniqueAssets;
    var list := UniqueAssets(ops);
    EachOkIff(Repaying, s, u, u, ops);
    AccrueAllSwitches(s, list);
    ValidateFrame(s, AccrueAll(s, list), ops);
    UpFrontAccrual(Repaying, s, u, ops);
    if Each(Repaying, s, u, u, ops).Ok? {
      EachRunsBodies(Repaying, s, u, u, ops);
    }
    NoCapsHold(Repaying, s, ops);
  }

  lemma NoCapsHold(k: Kind, s: State, ops: seq<BatchOp>)
    ensures k.Repaying? || k.Withdrawing? ==> CapsHold(k, s, ops)
  {
  }

  // ---------------------------------------------------------------- borrow and withdraw batches

  /** From an earlier to a later state of one batch: what the user owns and owes moves one way. */
  ghost predicate Leads(k: Kind, s: State, t: State, u: Address) {
    && SameMarket(s, t)
    && forall b ::
         && Realised(t, u, b).deposited <= Realised(s, u, b).deposited
         && Realised(s, u, b).borrowed <= Realised(t, u, b).borrowed
         && (k.Borrowing? ==> Realised(t, u, b).deposited == Realised(s, u, b).deposited)
         && (k.Withdrawing? ==> Realised(t, u, b).borrowed == Realised(s, u, b).borrowed)
  }

  lemma LeadsTrans(k: Kind, s: State, t: State, r: State, u: Address)
    requires Leads(k, s, t, u) && Leads(k, t, r, u)
    ensures Leads(k, s, r, u)
  {
    hide SameMarket, Realised;
    SameMarketTrans(s, t, r);
  }

  lemma LeadsReflexive(k: Kind, s: State, u: Address)
    ensures Leads(k, s, s, u)
  {
    SameMarketReflexive(s);
  }

  lemma AccrueLeads(k: Kind, s: State, u: Address, a: Address)
    ensures Leads(k, s, Accrue(s, a), u)
  {
    hide SameMarket, Realised, Accrue;
    AccrueUnseen(s, a);
  }

  lemma BodyLeads(k: Kind, s: State, u: Address, a: Address, amount: int)
    requires Sound(s) && (k.Borrowing? || k.Withdrawing?) && amount > 0
    requires Body(k, Accrue(s, a), u, a, amount).Ok?
    ensures Leads(k, s, Body(k, Accrue(s, a), u, a, amount).value, u)
  {
    hide Sound, SameMarket, Realised, Accrue, TouchAndPost, AssetOf, Fresh;
    var t := Accrue(s, a);
    AccrueLeads(k, s, u, a);
    AccrueSound(s, a);
    var e := EntryFor(k, Realised(t, u, a), AssetOf(t, a).balance, amount).value;
    TouchAndPostSeen(t, u, a, e);
    LeadsTrans(k, s, t, TouchAndPost(t, u, a, e), u);
  }

  /** Before the last operation the user owed no more and held no less than after it. */
  lemma LastBodyLeads(k: Kind, s: State, u: Address, ops: seq<BatchOp>)
    requires Sound(s) && (k.Borrowing? || k.Withdrawing?) && AllPositive(ops)
    requires |ops| > 0 && Bodies(k, s, u, ops).Ok?
    ensures Leads(k, Bodies(k, s, u, ops[..|ops| - 1]).value, Bodies(k, s, u, ops).value, u)
  {
    hide Sound, Accrue, Body, Leads;
    BodiesSound(k, s, u, ops[..|ops| - 1]);
    BodyLeads(k, Bodies(k, s, u, ops[..|ops| - 1]).value, u, ops[|ops| - 1].asset, ops[|ops| - 1].amount);
  }

  // Borrowing.

  /** One debt out of a list is worth at most the whole list. */
  lemma {:induction false} DebtWithinSum(s: State, u: Address, list: seq<Address>, d: Address)
    requires Sound(s) && DebtValue(s, u, list).Ok?
    ensures DebtValue(s, u, list).value >= 0
    ensures d in list ==> PriceOf(s, d).Ok? && Realised(s, u, d).borrowed * PriceOf(s, d).value <= DebtValue(s, u, list).value
  {
    hide Sound, Realised, PriceOf;
    if |list| > 0 {
      var before, last := list[..|list| - 1], list[|list| - 1];
      assert list == before + [last];
      DebtWithinSum(s, u, before, d);
      RealisedSound(s, u, last);
      PricePositive(s, last);
      MulMono(0, Realised(s, u, last).borrowed, PriceOf(s, last).value);
    }
  }

  /** The joint check at the end covers each named debt in every earlier state of the batch. */
  lemma JointCheckCoversEach(s: State, end: State, u: Address, list: seq<Address>, d: Address)
    requires Sound(s) && Sound(end) && Leads(Borrowing, s, end, u)
    requires d in list && CheckBatchBorrowHealth(end, u, list).Pass?
    ensures CheckHealth(s, u, d, 0, NoCut).Pass?
  {
    hide Sound, SameMarket, Realised, PriceOf;
    DebtWithinSum(end, u, list, d);
    SameMarketReads(s, end, d, CollateralFactor);
    SameMarketList(s, end);
    RealisedSound(s, u, d);
    PricePositive(s, d);
    WeightedValueFrame(s, end, u, s.listed, CollateralFactor, NoCut, NoCut);
    var x, y, price := Realised(s, u, d).borrowed, Realised(end, u, d).borrowed, PriceOf(s, d).value;
    MulMono(x, y, price);
    MulMono(1, price, x);
  }

  lemma {:induction false} JointCheckCoversPrefixes(s: State, end: State, u: Address, collateral: Address, list: seq<Address>, ops: seq<BatchOp>)
    requires Sound(s) && Sound(end) && AllPositive(ops) && Bodies(Borrowing, s, u, ops).Ok?
    requires Leads(Borrowing, Bodies(Borrowing, s, u, ops).value, end, u)
    requires (forall i | 0 <= i < |ops| :: ops[i].asset in list) && CheckBatchBorrowHealth(end, u, list).Pass?
    ensures PrefixesHealthy(Borrowing, s, u, collateral, ops)
  {
    hide Sound, Accrue, Body, Leads, CheckBatchBorrowHealth, CheckHealth;
    if |ops| > 0 {
      var before := ops[..|ops| - 1];
      var t := Bodies(Borrowing, s, u, ops).value;
      LastBodyLeads(Borrowing, s, u, ops);
      LeadsTrans(Borrowing, Bodies(Borrowing, s, u, before).value, t, end, u);
      JointCheckCoversPrefixes(s, end, u, collateral, list, before);
      BodiesSound(Borrowing, s, u, ops);
      JointCheckCoversEach(t, end, u, list, ops[|ops| - 1].asset);
    }
  }

  lemma {:induction false} DebtValueFrame(s: State, t: State, u: Address, list: seq<Address>)
    requires SameMarket(s, t) && forall b :: Realised(s, u, b) == Realised(t, u, b)
    ensures DebtValue(s, u, list) == DebtValue(t, u, list)
  {
    hide SameMarket, Realised, PriceOf;
    if |list| > 0 {
      DebtValueFrame(s, t, u, list[..|list| - 1]);
      SameMarketReads(s, t, list[|list| - 1], CollateralFactor);
    }
  }

  lemma JointCheckFrame(s: State, u: Address, a: Address, list: seq<Address>)
    ensures CheckBatchBorrowHealth(Accrue(s, a), u, list) == CheckBatchBorrowHealth(s, u, list)
  {
    hide SameMarket, Realised, Accrue;
    AccrueUnseen(s, a);
    DebtValueFrame(s, Accrue(s, a), u, list);
    SameMarketList(s, Accrue(s, a));
    WeightedValueFrame(s, Accrue(s, a), u, s.listed, CollateralFactor, NoCut, NoCut);
  }

  /** What a borrow batch checks, in terms of the bodies alone. */
  lemma BorrowBatchForm(s: State, u: Address, collateral: Address, ops: seq<BatchOp>)
    ensures BorrowBatch(s, u, collateral, ops).Ok? <==>
      && Switches(Borrowing, s, collateral) && ValidateOps(s, ops).Pass? && CapsHold(Borrowing, s, ops)
      && Bodies(Borrowing, s, u, ops).Ok?
      && CheckBatchBorrowHealth(Bodies(Borrowing, s, u, ops).value, u, UniqueAssets(ops)).Pass?
    ensures BorrowBatch(s, u, collateral, ops).Ok? ==>
      BorrowBatch(s, u, collateral, ops) == ThenAccrue(Bodies(Borrowing, s, u, ops), collateral)
  {
    hide Bodies, CapsHold, CheckBatchCaps, ValidateOps, Accrue, AccrueAll, AssetOf, UniqueAssets, CheckBatchBorrowHealth;
    var list := AddAsset(UniqueAssets(ops), collateral);
    UniqueAssetsNamed(ops);
    BatchCapsAreCapsHold(Borrowing, s, ops, list);
    AccrueAllSwitches(s, list);
    ValidateFrame(s, AccrueAll(s, list), ops);
    UpFrontAccrualWith(Borrowing, s, u, ops, collateral);
    if Bodies(Borrowing, s, u, ops).Ok? {
      JointCheckFrame(Bodies(Borrowing, s, u, ops).value, u, collateral, UniqueAssets(ops));
    }
  }

  lemma ValidMeansPositive(s: State, ops: seq<BatchOp>)
    requires ValidateOps(s, ops).Pass?
    ensures AllPositive(ops)
  {
    hide AssetOf, ValidateOps;
    ValidateIff(s, ops);
  }

  /**
   * A borrow batch is its borrows one by one, plus one joint check. It succeeds exactly when the separate
   * borrows do and the collateral covers all the debts it names together, and it leaves the state they leave
   * up to the accrual of the collateral asset. In particular the joint check implies every separate check.
   */
  lemma BorrowBatchRefinesSequence(s: State, u: Address, collateral: Address, ops: seq<BatchOp>)
    requires Sound(s)
    ensures var one, all := BorrowBatch(s, u, collateral, ops), Each(Borrowing, s, u, collateral, ops);
      && (one.Ok? ==> all.Ok? && one.value == Accrue(all.value, collateral))
      && (|ops| > 0 ==>
            (one.Ok? <==> all.Ok? && CheckBatchBorrowHealth(all.value, u, UniqueAssets(ops)).Pass?))
  {
    hide Sound, Bodies, BorrowBatch, CapsHold, ValidateOps, Accrue, AssetOf, CheckBatchBorrowHealth, PrefixesHealthy, Leads;
    hide UniqueAssets, Each;
    BorrowBatchForm(s, u, collateral, ops);
    EachOkIff(Borrowing, s, u, collateral, ops);
    if Each(Borrowing, s, u, collateral, ops).Ok? {
      EachRunsBodies(Borrowing, s, u, collateral, ops);
    }
    if BorrowBatch(s, u, collateral, ops).Ok? {
      var end := Bodies(Borrowing, s, u, ops).value;
      UniqueAssetsNamed(ops);
      ValidMeansPositive(s, ops);
      BodiesSound(Borrowing, s, u, ops);
      LeadsReflexive(Borrowing, end, u);
      JointCheckCoversPrefixes(s, end, u, collateral, UniqueAssets(ops), ops);
      EachRunsBodies(Borrowing, s, u, collateral, ops);
    }
  }

  /** After a borrow batch none of the debts it names can be liquidated. */
  lemma BorrowBatchThenNotLiquidatable(
    s: State, u: Address, collateral: Address, ops: seq<BatchOp>, i: nat, l: Address, seize: Address, repayAmount: int)
    requires Sound(s) && BorrowBatch(s, u, collateral, ops).Ok? && i < |ops|
    ensures Liquidate(BorrowBatch(s, u, collateral, ops).value, l, u, seize, ops[i].asset, repayAmount).Err?
  {
    hide Sound, Bodies, BorrowBatch, CapsHold, ValidateOps, Accrue, AssetOf, CheckBatchBorrowHealth, Leads;
    hide UniqueAssets, Liquidate, CheckHealth;
    BorrowBatchForm(s, u, collateral, ops);
    var end := Bodies(Borrowing, s, u, ops).value;
    ValidMeansPositive(s, ops);
    BodiesSound(Borrowing, s, u, ops);
    AccrueSound(end, collateral);
    UniqueAssetsNamed(ops);
    JointCheckFrame(end, u, collateral, UniqueAssets(ops));
    var t := Accrue(end, collateral);
    LeadsReflexive(Borrowing, t, u);
    JointCheckCoversEach(t, t, u, UniqueAssets(ops), ops[i].asset);
    HealthyNotLiquidatable(t, l, u, seize, ops[i].asset, repayAmount);
  }

  // Withdrawing.

  /**
   * The prices that the separate withdrawals read and the batch may not: unless the user has no debt, those
   * of every asset in which a deposit is left after the first withdrawal.
   */
  ghost predicate ReadableAfterFirst(s: State, u: Address, debtAsset: Address, first: BatchOp) {
    Realised(s, u, debtAsset).borrowed == 0
    || (PriceOf(s, debtAsset).Ok?
        && forall b | b in s.listed :: CutDeposit(s, u, b, Cut(first.asset, first.amount)) > 0 ==> PriceOf(s, b).Ok?)
  }

  /** Health at the end of the batch implies health before, where the prices can be read. */
  lemma LaterHealthCoversEarlier(s: State, end: State, u: Address, d: Address)
    requires Sound(s) && Leads(Withdrawing, s, end, u) && CheckHealth(end, u, d, 0, NoCut).Pass?
    ensures CheckHealth(s, u, d, 0, NoCut).Pass? <==>
      Realised(s, u, d).borrowed == 0 || WeightedValue(s, u, s.listed, CollateralFactor, NoCut).Ok?
  {
    hide Sound, SameMarket, Realised, PriceOf, WeightBps;
    SameMarketReads(s, end, d, CollateralFactor);
    SameMarketList(s, end);
    if WeightedValue(s, u, s.listed, CollateralFactor, NoCut).Ok? {
      SameMarketSymmetric(s, end);
      forall b | b in s.listed
        ensures WeightBps(end, b, CollateralFactor) <= WeightBps(s, b, CollateralFactor)
      {
        SameMarketReads(s, end, b, CollateralFactor);
      }
      WeightedValueMono(end, s, u, s.listed, CollateralFactor, CollateralFactor, NoCut, NoCut);
    }
  }

  /** Prices readable at an earlier state are enough at a later one. */
  lemma ReadableLater(s: State, t: State, u: Address)
    requires Leads(Withdrawing, s, t, u) && WeightedValue(s, u, s.listed, CollateralFactor, NoCut).Ok?
    ensures WeightedValue(t, u, t.listed, CollateralFactor, NoCut).Ok?
  {
    hide SameMarket, Realised, PriceOf, WeightedValue;
    SameMarketList(s, t);
    WeightedValueReadable(s, u, s.listed, CollateralFactor, NoCut);
    WeightedValueReadable(t, u, t.listed, CollateralFactor, NoCut);
    forall b | b in t.listed && CutDeposit(t, u, b, NoCut) > 0
      ensures PriceOf(t, b).Ok?
    {
      SameMarketReads(s, t, b, CollateralFactor);
    }
  }

  /** The state after the first operation of the list. */
  function FirstState(k: Kind, s: State, u: Address, ops: seq<BatchOp>): Result<State>
    requires |ops| > 0
  {
    Bodies(k, s, u, ops[..1])
  }

  /** Every prefix of a healthy withdraw batch is healthy exactly when the first one can be priced. */
  lemma {:induction false} PrefixesHealthyIff(s: State, end: State, u: Address, debtAsset: Address, ops: seq<BatchOp>)
    requires Sound(s) && AllPositive(ops) && |ops| > 0 && Bodies(Withdrawing, s, u, ops).Ok?
    requires Leads(Withdrawing, Bodies(Withdrawing, s, u, ops).value, end, u)
    requires CheckHealth(end, u, debtAsset, 0, NoCut).Pass?
    ensures FirstState(Withdrawing, s, u, ops).Ok?
    ensures var t := FirstState(Withdrawing, s, u, ops).value;
      && Leads(Withdrawing, t, end, u)
      && (PrefixesHealthy(Withdrawing, s, u, debtAsset, ops) <==>
            Realised(t, u, debtAsset).borrowed == 0 || WeightedValue(t, u, t.listed, CollateralFactor, NoCut).Ok?)
      && Leads(Withdrawing, t, Bodies(Withdrawing, s, u, ops).value, u)
  {
    hide Sound, Accrue, Body, Leads, CheckHealth, WeightedValue, Realised;
    var last := Bodies(Withdrawing, s, u, ops).value;
    BodiesSound(Withdrawing, s, u, ops);
    LaterHealthCoversEarlier(last, end, u, debtAsset);
    var before := ops[..|ops| - 1];
    if |ops| == 1 {
      assert ops[..1] == ops && before == [];
      LeadsReflexive(Withdrawing, last, u);
    } else {
      assert before[..1] == ops[..1];
      LastBodyLeads(Withdrawing, s, u, ops);
      LeadsTrans(Withdrawing, Bodies(Withdrawing, s, u, before).value, last, end, u);
      PrefixesHealthyIff(s, end, u, debtAsset, before);
      var t := FirstState(Withdrawing, s, u, ops).value;
      LeadsTrans(Withdrawing, t, Bodies(Withdrawing, s, u, before).value, last, u);
      LeadsKeepsDebt(t, last, u, debtAsset);
      if WeightedValue(t, u, t.listed, CollateralFactor, NoCut).Ok? {
        ReadableLater(t, last, u);
      }
    }
  }

  lemma LeadsKeepsDebt(s: State, t: State, u: Address, d: Address)
    requires Leads(Withdrawing, s, t, u)
    ensures Realised(s, u, d).borrowed == Realised(t, u, d).borrowed
  {
  }

  /** After one withdrawal, the deposits left are those the pending cut shows. */
  lemma FirstStateReadable(s: State, u: Address, debtAsset: Address, first: BatchOp)
    requires Sound(s) && Body(Withdrawing, Accrue(s, first.asset), u, first.asset, first.amount).Ok?
    ensures var t := Body(Withdrawing, Accrue(s, first.asset), u, first.asset, first.amount).value;
      && SameMarket(s, t)
      && Realised(t, u, debtAsset).borrowed == Realised(s, u, debtAsset).borrowed
      && (WeightedValue(t, u, t.listed, CollateralFactor, NoCut).Ok? <==>
            forall b | b in s.listed :: CutDeposit(s, u, b, Cut(first.asset, first.amount)) > 0 ==> PriceOf(s, b).Ok?)
  {
    hide Sound, SameMarket, Realised, PriceOf, WeightedValue, Accrue, TouchAndPost, AssetOf, Fresh;
    var a := first.asset;
    var r := Accrue(s, a);
    AccrueSound(s, a);
    AccrueUnseen(s, a);
    var e := EntryFor(Withdrawing, Realised(r, u, a), AssetOf(r, a).balance, first.amount).value;
    TouchAndPostSeen(r, u, a, e);
    var t := TouchAndPost(r, u, a, e);
    SameMarketTrans(s, r, t);
    SameMarketList(s, t);
    WeightedValueReadable(t, u, t.listed, CollateralFactor, NoCut);
    forall b
      ensures CutDeposit(t, u, b, NoCut) == CutDeposit(s, u, b, Cut(a, first.amount)) && PriceOf(t, b) == PriceOf(s, b)
    {
      SameMarketReads(s, t, b, CollateralFactor);
    }
  }

  lemma WithdrawBatchForm(s: State, u: Address, debtAsset: Address, ops: seq<BatchOp>)
    ensures WithdrawBatch(s, u, debtAsset, ops).Ok? <==>
      && Switches(Withdrawing, s, debtAsset) && ValidateOps(s, ops).Pass?
      && Bodies(Withdrawing, s, u, ops).Ok?
      && CheckHealth(Bodies(Withdrawing, s, u, ops).value, u, debtAsset, 0, NoCut).Pass?
    ensures WithdrawBatch(s, u, debtAsset, ops).Ok? ==>
      WithdrawBatch(s, u, debtAsset, ops) == ThenAccrue(Bodies(Withdrawing, s, u, ops), debtAsset)
  {
    hide Bodies, ValidateOps, Accrue, AccrueAll, AssetOf, UniqueAssets, CheckHealth, Realised, SameMarket;
    var list := AddAsset(UniqueAssets(ops), debtAsset);
    AccrueAllSwitches(s, list);
    ValidateFrame(s, AccrueAll(s, list), ops);
    UpFrontAccrualWith(Withdrawing, s, u, ops, debtAsset);
    if Bodies(Withdrawing, s, u, ops).Ok? {
      var end := Bodies(Withdrawing, s, u, ops).value;
      AccrueUnseen(end, debtAsset);
      CheckHealthFrame(end, Accrue(end, debtAsset), u, debtAsset);
    }
  }

  /**
   * A non-empty withdraw batch against its withdrawals one by one. If the sequence succeeds, so does the
   * batch, with the same state up to the accrual of the debt asset. If the batch succeeds, the sequence does
   * exactly when the prices it needs after its first withdrawal can be read, and in particular when every
   * listed asset and the debt asset has a readable price.
   */
  lemma WithdrawBatchIsSequence(s: State, u: Address, debtAsset: Address, ops: seq<BatchOp>)
    requires Sound(s) && |ops| > 0
    ensures var one, all := WithdrawBatch(s, u, debtAsset, ops), Each(Withdrawing, s, u, debtAsset, ops);
      && (all.Ok? ==> one.Ok? && one.value == Accrue(all.value, debtAsset))
      && (all.Ok? <==> one.Ok? && ReadableAfterFirst(s, u, debtAsset, ops[0]))
  {
    hide Sound, Bodies, WithdrawBatch, ValidateOps, Accrue, AssetOf, PrefixesHealthy, Leads, CheckHealth, Realised;
    hide Each, PriceOf, WeightedValue, SameMarket;
    WithdrawBatchForm(s, u, debtAsset, ops);
    EachOkIff(Withdrawing, s, u, debtAsset, ops);
    NoCapsHold(Withdrawing, s, ops);
    if Each(Withdrawing, s, u, debtAsset, ops).Ok? {
      EachRunsBodies(Withdrawing, s, u, debtAsset, ops);
      PrefixesHealthyLast(s, u, debtAsset, ops);
    }
    if WithdrawBatch(s, u, debtAsset, ops).Ok? {
      var end := Bodies(Withdrawing, s, u, ops).value;
      ValidMeansPositive(s, ops);
      LeadsReflexive(Withdrawing, end, u);
      PrefixesHealthyIff(s, end, u, debtAsset, ops);
      OneBody(Withdrawing, s, u, ops);
      FirstStateReadable(s, u, debtAsset, ops[0]);
      HealthReadsDebtPrice(end, u, debtAsset);
      var t := FirstState(Withdrawing, s, u, ops).value;
      LeadsKeepsDebt(t, end, u, debtAsset);
      LeadsMarket(Withdrawing, t, end, u);
      SameMarketTrans(s, t, end);
      SameMarketReads(s, end, debtAsset, CollateralFactor);
    }
  }

  lemma LeadsMarket(k: Kind, s: State, t: State, u: Address)
    requires Leads(k, s, t, u)
    ensures SameMarket(s, t)
  {
  }

  lemma HealthReadsDebtPrice(s: State, u: Address, d: Address)
    requires CheckHealth(s, u, d, 0, NoCut).Pass?
    ensures Realised(s, u, d).borrowed == 0 || PriceOf(s, d).Ok?
  {
  }

  lemma PrefixesHealthyLast(s: State, u: Address, partner: Address, ops: seq<BatchOp>)
    requires |ops| > 0 && PrefixesHealthy(Withdrawing, s, u, partner, ops)
    ensures Bodies(Withdrawing, s, u, ops).Ok?
    ensures CheckHealth(Bodies(Withdrawing, s, u, ops).value, u, partner, 0, NoCut).Pass?
  {
  }

  lemma OneBody(k: Kind, s: State, u: Address, ops: seq<BatchOp>)
    requires |ops| > 0
    ensures FirstState(k, s, u, ops) == Body(k, Accrue(s, ops[0].asset), u, ops[0].asset, ops[0].amount)
  {
    var one := ops[..1];
    assert one[..|one| - 1] == [] && one[|one| - 1] == ops[0];
    assert Bodies(k, s, u, []) == Ok(s);
  }

  /** With every listed asset and the debt asset readable, a non-empty batch succeeds exactly when the sequence does. */
  lemma ReadablePricesMakeThemEqual(s: State, u: Address, debtAsset: Address, ops: seq<BatchOp>)
    requires Sound(s) && |ops| > 0
    requires PriceOf(s, debtAsset).Ok? && forall b | b in s.listed :: PriceOf(s, b).Ok?
    ensures WithdrawBatch(s, u, debtAsset, ops).Ok? <==> Each(Withdrawing, s, u, debtAsset, ops).Ok?
  {
    hide Sound, WithdrawBatch, Each, PriceOf, Realised, Accrue;
    WithdrawBatchIsSequence(s, u, debtAsset, ops);
  }
}
