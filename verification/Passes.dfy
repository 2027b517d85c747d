/** What one pass over a list of events leaves in the position table, said with sums of deltas only. */
module Passes {
  import opened Indexer

  datatype Side = Deposits | Borrows

  function DeltaOf(e: Event, side: Side): int {
    match side
    case Deposits => e.deposited
    case Borrows => e.borrowed
  }

  function HeldOn(held: Holding, side: Side): int {
    match side
    case Deposits => held.deposited
    case Borrows => held.borrowed
  }

  predicate Names(e: Event, user: nat, asset: nat) {
    e.user == user && e.asset == asset
  }

  /** The plain sum of one side's deltas for one user and asset. */
  function DeltaSum(events: seq<Event>, user: nat, asset: nat, side: Side): int {
    if |events| == 0 then 0
    else
      var e := events[|events| - 1];
      DeltaSum(events[..|events| - 1], user, asset, side) + if Names(e, user, asset) then DeltaOf(e, side) else 0
  }

  /** `x` is the largest sum of that user's and asset's deltas over a suffix, which may be empty. */
  ghost predicate LargestSuffixSum(x: int, events: seq<Event>, user: nat, asset: nat, side: Side) {
    && (forall i | 0 <= i <= |events| :: DeltaSum(events[i..], user, asset, side) <= x)
    && (exists i | 0 <= i <= |events| :: DeltaSum(events[i..], user, asset, side) == x)
  }

  lemma {:induction false} SumSplits(events: seq<Event>, i: nat, user: nat, asset: nat, side: Side)
    requires i <= |events|
    ensures DeltaSum(events, user, asset, side)
         == DeltaSum(events[..i], user, asset, side) + DeltaSum(events[i..], user, asset, side)
    decreases |events|
  {
    var n := |events|;
    if i == n {
      assert events[..i] == events;
    } else {
      SumSplits(events[..n - 1], i, user, asset, side);
      assert events[..n - 1][..i] == events[..i];
      assert events[i..][..n - i - 1] == events[..n - 1][i..];
    }
  }

  /** One more event lifts every suffix by its delta and adds the empty one. */
  lemma SuffixAppend(before: seq<Event>, e: Event, x: int, user: nat, asset: nat, side: Side)
    requires LargestSuffixSum(x, before, user, asset, side)
    ensures var d := if Names(e, user, asset) then DeltaOf(e, side) else 0;
            LargestSuffixSum(if x + d > 0 then x + d else 0, before + [e], user, asset, side)
  {
    var after, n := before + [e], |before|;
    var d := if Names(e, user, asset) then DeltaOf(e, side) else 0;
    forall i | 0 <= i <= n
      ensures DeltaSum(after[i..], user, asset, side) == DeltaSum(before[i..], user, asset, side) + d
    {
      assert after[i..][..n - i] == before[i..];
    }
    assert after[n + 1..] == [];
    var j :| 0 <= j <= n && DeltaSum(before[j..], user, asset, side) == x;
    var k := if x + d > 0 then j else n + 1;
    assert DeltaSum(after[k..], user, asset, side) == if x + d > 0 then x + d else 0;
  }

  ghost predicate Named(events: seq<Event>, user: nat, asset: nat) {
    exists i | 0 <= i < |events| :: Names(events[i], user, asset)
  }

  /** An absent row reads as nothing held. */
  function BalanceOf(positions: Positions, user: nat, asset: nat, side: Side): int {
    if (user, asset) in positions then HeldOn(positions[(user, asset)], side) else 0
  }

  /** Rows appear for the keys that some event names, and for no others. */
  lemma {:induction false} RowIffNamed(events: seq<Event>, user: nat, asset: nat)
    ensures (user, asset) in Balances(events) <==> Named(events, user, asset)
    decreases |events|
  {
    var n := |events|;
    if n > 0 {
      var before := events[..n - 1];
      RowIffNamed(before, user, asset);
      assert forall i | 0 <= i < n - 1 :: before[i] == events[i];
      assert Named(events, user, asset) <==> Named(before, user, asset) || Names(events[n - 1], user, asset);
    }
  }

  lemma OneMore(positions: Positions, e: Event, user: nat, asset: nat, side: Side)
    ensures var x, d := BalanceOf(positions, user, asset, side), if Names(e, user, asset) then DeltaOf(e, side) else 0;
      x >= 0 ==> BalanceOf(ApplyDelta(positions, e), user, asset, side) == if x + d > 0 then x + d else 0
  {
  }

  /** After a pass over the events, each balance is the largest suffix sum of the deltas of its own key and side. */
  lemma {:induction false} BalanceIsSuffixMaximum(events: seq<Event>, user: nat, asset: nat, side: Side)
    ensures LargestSuffixSum(BalanceOf(Balances(events), user, asset, side), events, user, asset, side)
    ensures BalanceOf(Balances(events), user, asset, side) >= 0
    decreases |events|
  {
    hide ApplyDelta;
    var n := |events|;
    if n == 0 {
      assert DeltaSum(events[0..], user, asset, side) == 0;
    } else {
      hide DeltaSum, LargestSuffixSum, BalanceOf;
      var before, e := events[..n - 1], events[n - 1];
      assert events == before + [e];
      BalanceIsSuffixMaximum(before, user, asset, side);
      OneMore(Balances(before), e, user, asset, side);
      SuffixAppend(before, e, BalanceOf(Balances(before), user, asset, side), user, asset, side);
    }
  }

  /** The clamps leave no trace exactly when the deltas of a key never add up to less than nothing on the way. */
  lemma PlainSumIff(events: seq<Event>, user: nat, asset: nat, side: Side)
    ensures BalanceOf(Balances(events), user, asset, side) == DeltaSum(events, user, asset, side)
       <==> forall i | 0 <= i <= |events| :: DeltaSum(events[..i], user, asset, side) >= 0
  {
    hide BalanceOf, Balances, DeltaSum;
    BalanceIsSuffixMaximum(events, user, asset, side);
    forall i | 0 <= i <= |events|
      ensures DeltaSum(events, user, asset, side)
           == DeltaSum(events[..i], user, asset, side) + DeltaSum(events[i..], user, asset, side)
    {
      SumSplits(events, i, user, asset, side);
    }
    assert events[0..] == events;
  }

  /**
   * In every run, whatever died and was repeated: the table has a row for each key named in the history and no
   * other, and each balance is the largest suffix sum over the history.
   */
  lemma PositionsAreSuffixMaxima(chain: seq<Event>, actions: seq<Action>, user: nat, asset: nat, side: Side)
    requires ValidChain(chain)
    ensures var db := Run(chain, actions);
      && ((user, asset) in db.positions <==> Named(db.history, user, asset))
      && LargestSuffixSum(BalanceOf(db.positions, user, asset, side), db.history, user, asset, side)
      && (BalanceOf(db.positions, user, asset, side) == DeltaSum(db.history, user, asset, side) <==>
            forall i | 0 <= i <= |db.history| :: DeltaSum(db.history[..i], user, asset, side) >= 0)
  {
    hide Run, BalanceOf, Balances, DeltaSum, LargestSuffixSum, Named, ValidChain;
    var db := Run(chain, actions);
    TablesFollowCommitted(chain, actions);
    RowIffNamed(db.history, user, asset);
    BalanceIsSuffixMaximum(db.history, user, asset, side);
    PlainSumIff(db.history, user, asset, side);
  }
}
