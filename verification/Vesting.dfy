/** Vesting grants: cliff and linear release, and the claim that pays out and prunes. */
module Vesting {
  import opened Arith

  datatype Grant = Grant(amount: int, claimed: int, start: nat, cliff: nat, duration: nat)

  function ComputeVested(g: Grant, now: nat): int {
    if g.amount <= 0 then 0
    else if g.duration == 0 then g.amount
    else
      var elapsed := if now <= g.start then 0 else now - g.start;
      if elapsed < g.cliff then 0
      else if elapsed >= g.duration then g.amount
      else g.amount * elapsed / g.duration
  }

  function ComputeReleasable(g: Grant, now: nat): int {
    var vested := ComputeVested(g, now);
    if vested > g.claimed then vested - g.claimed else 0
  }

  /** What `total_releasable` sums. */
  function TotalReleasable(gs: seq<Grant>, now: nat): int {
    if |gs| == 0 then 0 else TotalReleasable(gs[..|gs| - 1], now) + ComputeReleasable(gs[|gs| - 1], now)
  }

  function Settle(g: Grant, now: nat): Grant {
    g.(claimed := ComputeVested(g, now))
  }

  function SettleAll(gs: seq<Grant>, now: nat): seq<Grant> {
    seq(|gs|, i requires 0 <= i < |gs| => Settle(gs[i], now))
  }

  function Unfinished(gs: seq<Grant>): seq<Grant> {
    if |gs| == 0 then []
    else
      var g := gs[|gs| - 1];
      Unfinished(gs[..|gs| - 1]) + if g.claimed < g.amount then [g] else []
  }

  /** The grants that a successful claim keeps. */
  function Remaining(gs: seq<Grant>, now: nat): seq<Grant> {
    Unfinished(SettleAll(gs, now))
  }

  function TotalClaimed(gs: seq<Grant>): int {
    if |gs| == 0 then 0 else TotalClaimed(gs[..|gs| - 1]) + gs[|gs| - 1].claimed
  }

  function TotalVested(gs: seq<Grant>, now: nat): int {
    if |gs| == 0 then 0 else TotalVested(gs[..|gs| - 1], now) + ComputeVested(gs[|gs| - 1], now)
  }

  /** Vesting only grows and never passes the granted amount. */
  lemma VestedMonotone(g: Grant, t: nat, u: nat)
    requires t <= u
    ensures 0 <= ComputeVested(g, t) <= ComputeVested(g, u) <= Max(g.amount, 0)
  {
    if g.amount > 0 && g.duration > 0 {
      var e := if t <= g.start then 0 else t - g.start;
      var f := if u <= g.start then 0 else u - g.start;
      LinearShare(g.amount, e, g.duration);
      LinearShare(g.amount, f, g.duration);
      MulMono(e, f, g.amount);
      DivMono(g.amount * e, g.amount * f, g.duration);
    }
  }

  lemma LinearShare(amount: nat, elapsed: nat, duration: nat)
    requires 0 < duration
    ensures 0 <= amount * elapsed / duration
    ensures elapsed < duration ==> amount * elapsed / duration <= amount
  {
    DivNonNeg(amount * elapsed, duration);
    if elapsed < duration {
      MulMono(elapsed, duration, amount);
      DivLe(amount * elapsed, duration, amount);
    }
  }

  // ---------------------------------------------------------------- runs

  /** One user's vesting history: grants pushed and claims attempted, each at a ledger time. */
  datatype Event =
    | Push(at: nat, amount: int, cliff: nat, duration: nat)
    | Claim(at: nat)

  datatype VestingAccount = VestingAccount(live: seq<Grant>, paid: int)

  /** `push_vesting_grant` and `vest_claimable`; a claim of nothing is rejected and changes nothing. */
  function Step(acc: VestingAccount, e: Event): VestingAccount {
    match e
    case Push(at, amount, cliff, duration) => acc.(live := acc.live + [Grant(amount, 0, at, cliff, duration)])
    case Claim(at) =>
      if TotalReleasable(acc.live, at) == 0 then acc
      else VestingAccount(Remaining(acc.live, at), acc.paid + TotalReleasable(acc.live, at))
  }

  function Run(events: seq<Event>): VestingAccount {
    if |events| == 0 then VestingAccount([], 0) else Step(Run(events[..|events| - 1]), events[|events| - 1])
  }

  /** Every grant ever pushed, as pushed. */
  function Pushed(events: seq<Event>): seq<Grant> {
    if |events| == 0 then []
    else
      var before := Pushed(events[..|events| - 1]);
      match events[|events| - 1]
      case Push(at, amount, cliff, duration) => before + [Grant(amount, 0, at, cliff, duration)]
      case Claim(_) => before
  }

  /** Every grant ever pushed, each with what it has paid so far: the account without pruning. */
  function Unpruned(events: seq<Event>): seq<Grant> {
    if |events| == 0 then []
    else
      var before := Unpruned(events[..|events| - 1]);
      match events[|events| - 1]
      case Push(at, amount, cliff, duration) => before + [Grant(amount, 0, at, cliff, duration)]
      case Claim(at) => SettleAll(before, at)
  }

  ghost predicate Chronological(events: seq<Event>) {
    && (forall i, j | 0 <= i < j < |events| :: events[i].at <= events[j].at)
    && (forall i | 0 <= i < |events| :: events[i].Push? ==> events[i].amount > 0)
  }

  function LastAt(events: seq<Event>): nat {
    if |events| == 0 then 0 else events[|events| - 1].at
  }

  /** No grant has paid more than it has vested. */
  ghost predicate Within(gs: seq<Grant>, now: nat) {
    forall i | 0 <= i < |gs| :: gs[i].amount > 0 && 0 <= gs[i].claimed <= ComputeVested(gs[i], now)
  }

  lemma {:induction false} UnfinishedAppend(gs: seq<Grant>, g: Grant)
    ensures Unfinished(gs + [g]) == Unfinished(gs) + if g.claimed < g.amount then [g] else []
  {
    assert (gs + [g])[..|gs|] == gs;
  }

  lemma {:induction false} TotalReleasableAppend(gs: seq<Grant>, g: Grant, now: nat)
    ensures TotalReleasable(gs + [g], now) == TotalReleasable(gs, now) + ComputeReleasable(g, now)
  {
    assert (gs + [g])[..|gs|] == gs;
  }

  lemma SettleAllAppend(gs: seq<Grant>, g: Grant, now: nat)
    ensures SettleAll(gs + [g], now) == SettleAll(gs, now) + [Settle(g, now)]
  {
  }

  /** A grant that has paid in full releases nothing more and settles to itself. */
  lemma FinishedStaysFinished(g: Grant, now: nat)
    requires Within([g], now) && g.claimed >= g.amount
    ensures ComputeReleasable(g, now) == 0 && Settle(g, now) == g
  {
    VestedMonotone(g, now, now);
    assert [g][0] == g;
  }

  /** The step of the induction below, on the last grant. */
  lemma PruneLast(before: seq<Grant>, g: Grant, now: nat)
    requires Within([g], now)
    requires TotalReleasable(Unfinished(before), now) == TotalReleasable(before, now)
    requires Remaining(Unfinished(before), now) == Remaining(before, now)
    ensures TotalReleasable(Unfinished(before + [g]), now) == TotalReleasable(before + [g], now)
    ensures Remaining(Unfinished(before + [g]), now) == Remaining(before + [g], now)
  {
    var kept, settled := Unfinished(before), Settle(g, now);
    UnfinishedAppend(before, g);
    TotalReleasableAppend(before, g, now);
    SettleAllAppend(before, g, now);
    UnfinishedAppend(SettleAll(before, now), settled);
    if g.claimed < g.amount {
      TotalReleasableAppend(kept, g, now);
      SettleAllAppend(kept, g, now);
      UnfinishedAppend(SettleAll(kept, now), settled);
    } else {
      FinishedStaysFinished(g, now);
      assert kept + [] == kept;
    }
  }

  /** Pruned grants have nothing left to release, and pruning before or after settling agrees. */
  lemma {:induction false} PruningUnobservable(gs: seq<Grant>, now: nat)
    requires Within(gs, now)
    ensures TotalReleasable(Unfinished(gs), now) == TotalReleasable(gs, now)
    ensures Remaining(Unfinished(gs), now) == Remaining(gs, now)
  {
    if |gs| == 0 {
      assert SettleAll(gs, now) == gs;
    } else {
      var before, g := gs[..|gs| - 1], gs[|gs| - 1];
      PruningUnobservable(before, now);
      PruneLast(before, g, now);
      assert gs == before + [g];
    }
  }

  /** The two loops of a claim agree: what is transferred is exactly the rise in the claimed counters. */
  lemma {:induction false} PayoutIsRiseInClaimed(gs: seq<Grant>, now: nat)
    requires Within(gs, now)
    ensures 0 <= TotalReleasable(gs, now) == TotalClaimed(SettleAll(gs, now)) - TotalClaimed(gs)
    ensures TotalReleasable(gs, now) == 0 ==> SettleAll(gs, now) == gs
  {
    if |gs| > 0 {
      var before, g := gs[..|gs| - 1], gs[|gs| - 1];
      PayoutIsRiseInClaimed(before, now);
      assert SettleAll(gs, now)[..|gs| - 1] == SettleAll(before, now);
      if TotalReleasable(gs, now) == 0 {
        assert SettleAll(gs, now) == before + [g];
      }
    }
  }

  lemma {:induction false} SettledIsVested(gs: seq<Grant>, now: nat)
    ensures TotalClaimed(SettleAll(gs, now)) == TotalVested(gs, now)
  {
    if |gs| > 0 {
      SettledIsVested(gs[..|gs| - 1], now);
      assert SettleAll(gs, now)[..|gs| - 1] == SettleAll(gs[..|gs| - 1], now);
    }
  }

  lemma WithinLater(gs: seq<Grant>, t: nat, u: nat)
    requires Within(gs, t) && t <= u
    ensures Within(gs, u) && Within(SettleAll(gs, u), u)
  {
    forall i | 0 <= i < |gs|
      ensures gs[i].claimed <= ComputeVested(gs[i], u)
      ensures 0 <= ComputeVested(SettleAll(gs, u)[i], u) == SettleAll(gs, u)[i].claimed
    {
      VestedMonotone(gs[i], t, u);
    }
  }

  /** The pruned account is the unpruned one with its finished grants hidden, at every point of every run. */
  lemma {:induction false} AccountMatchesUnpruned(events: seq<Event>)
    requires Chronological(events)
    ensures Within(Unpruned(events), LastAt(events))
    ensures Run(events) == VestingAccount(Unfinished(Unpruned(events)), TotalClaimed(Unpruned(events)))
    ensures |Unpruned(events)| == |Pushed(events)|
    ensures forall i | 0 <= i < |Pushed(events)| ::
              Unpruned(events)[i] == Pushed(events)[i].(claimed := Unpruned(events)[i].claimed)
  {
    if |events| > 0 {
      var before, e := events[..|events| - 1], events[|events| - 1];
      AccountMatchesUnpruned(before);
      var gs := Unpruned(before);
      WithinLater(gs, LastAt(before), e.at);
      match e {
        case Push(at, amount, cliff, duration) => PushMatches(gs, Grant(amount, 0, at, cliff, duration), at);
        case Claim(at) => ClaimMatches(gs, at);
      }
    }
  }

  lemma PushMatches(gs: seq<Grant>, g: Grant, now: nat)
    requires Within(gs, now) && g.amount > 0 && g.claimed == 0
    ensures Within(gs + [g], now) && Unfinished(gs + [g]) == Unfinished(gs) + [g]
    ensures TotalClaimed(gs + [g]) == TotalClaimed(gs)
  {
    hide ComputeVested;
    VestedMonotone(g, now, now);
    UnfinishedAppend(gs, g);
    assert (gs + [g])[..|gs|] == gs;
  }

  /** A claim on the pruned account, seen on the unpruned one; a claim of nothing changes neither. */
  lemma ClaimMatches(gs: seq<Grant>, now: nat)
    requires Within(gs, now)
    ensures Step(VestingAccount(Unfinished(gs), TotalClaimed(gs)), Claim(now))
              == VestingAccount(Unfinished(SettleAll(gs, now)), TotalClaimed(SettleAll(gs, now)))
  {
    hide ComputeVested, SettleAll, Unfinished;
    PruningUnobservable(gs, now);
    PayoutIsRiseInClaimed(gs, now);
  }

  /**
   * Vesting does not depend on the claim schedule. Whatever was claimed before, right after a claim at time
   * `t` the user has been paid exactly what all grants ever pushed had vested by `t`, each surviving grant
   * records its own vested share as claimed, and the grants that are gone are exactly those paid in full.
   */
  lemma ScheduleIndependence(events: seq<Event>)
    requires Chronological(events) && |events| > 0 && events[|events| - 1].Claim?
    ensures var t := events[|events| - 1].at;
      && Run(events).paid == TotalVested(Pushed(events), t)
      && Run(events).live == Unfinished(SettleAll(Pushed(events), t))
  {
    hide Run, ComputeVested, ComputeReleasable;
    var before, t := events[..|events| - 1], events[|events| - 1].at;
    AccountMatchesUnpruned(before);
    AccountMatchesUnpruned(events);
    SettleForgetsClaims(Unpruned(before), Pushed(before), t);
    SettledIsVested(Pushed(events), t);
  }

  lemma SettleForgetsClaims(gs: seq<Grant>, hs: seq<Grant>, now: nat)
    requires |gs| == |hs| && forall i | 0 <= i < |hs| :: gs[i] == hs[i].(claimed := gs[i].claimed)
    ensures SettleAll(gs, now) == SettleAll(hs, now)
  {
    forall i | 0 <= i < |hs|
      ensures Settle(gs[i], now) == Settle(hs[i], now)
    {
    }
  }

  /** A grant leaves the account only when every unit of it has been paid. */
  lemma {:induction false} UnfinishedKeepsOwed(gs: seq<Grant>, i: nat)
    requires i < |gs|
    ensures gs[i] in Unfinished(gs) <==> gs[i].claimed < gs[i].amount
  {
    var before, g := gs[..|gs| - 1], gs[|gs| - 1];
    if i < |gs| - 1 {
      UnfinishedKeepsOwed(before, i);
    } else if g.claimed >= g.amount {
      UnfinishedOnlyOwed(before);
    }
  }

  lemma {:induction false} UnfinishedOnlyOwed(gs: seq<Grant>)
    ensures forall g | g in Unfinished(gs) :: g.claimed < g.amount
  {
    if |gs| > 0 {
      UnfinishedOnlyOwed(gs[..|gs| - 1]);
    }
  }

  // ---------------------------------------------------------------- what is still to be paid

  function Outstanding(gs: seq<Grant>): int {
    if |gs| == 0 then 0 else Outstanding(gs[..|gs| - 1]) + gs[|gs| - 1].amount - gs[|gs| - 1].claimed
  }

  lemma {:induction false} OutstandingNonNeg(gs: seq<Grant>, now: nat)
    requires Within(gs, now)
    ensures 0 <= Outstanding(gs)
  {
    if |gs| > 0 {
      OutstandingNonNeg(gs[..|gs| - 1], now);
      VestedMonotone(gs[|gs| - 1], now, now);
    }
  }

  lemma OutstandingAppend(gs: seq<Grant>, g: Grant)
    ensures Outstanding(gs + [g]) == Outstanding(gs) + g.amount - g.claimed
  {
    assert (gs + [g])[..|gs|] == gs;
  }

  lemma {:induction false} OutstandingOfUnfinished(gs: seq<Grant>, now: nat)
    requires Within(gs, now)
    ensures Outstanding(Unfinished(gs)) == Outstanding(gs)
  {
    hide ComputeVested;
    if |gs| > 0 {
      var before, g := gs[..|gs| - 1], gs[|gs| - 1];
      OutstandingOfUnfinished(before, now);
      VestedMonotone(g, now, now);
      assert gs == before + [g];
      UnfinishedAppend(before, g);
      OutstandingAppend(Unfinished(before), g);
      assert Unfinished(before) + [] == Unfinished(before);
    }
  }

  lemma {:induction false} UnfinishedSubset(gs: seq<Grant>)
    ensures forall g | g in Unfinished(gs) :: g in gs
  {
    if |gs| > 0 {
      UnfinishedSubset(gs[..|gs| - 1]);
    }
  }

  lemma WithinUnfinished(gs: seq<Grant>, now: nat)
    requires Within(gs, now)
    ensures Within(Unfinished(gs), now)
  {
    hide ComputeVested;
    UnfinishedSubset(gs);
    forall i | 0 <= i < |Unfinished(gs)|
      ensures Unfinished(gs)[i] in gs
    {
    }
  }

  lemma {:induction false} OutstandingOfSettled(gs: seq<Grant>, now: nat)
    ensures Outstanding(SettleAll(gs, now)) - Outstanding(gs) == TotalClaimed(gs) - TotalClaimed(SettleAll(gs, now))
  {
    if |gs| > 0 {
      OutstandingOfSettled(gs[..|gs| - 1], now);
      assert SettleAll(gs, now)[..|gs| - 1] == SettleAll(gs[..|gs| - 1], now);
    }
  }

  /** A new grant has paid nothing, and everything of it is outstanding. */
  lemma NewGrantOutstanding(gs: seq<Grant>, g: Grant, now: nat)
    requires Within(gs, now) && g.amount > 0 && g.claimed == 0
    ensures Within(gs + [g], now) && Outstanding(gs + [g]) == Outstanding(gs) + g.amount
  {
    hide ComputeVested;
    VestedMonotone(g, now, now);
    OutstandingAppend(gs, g);
  }

  /** A claim pays exactly the fall in what is outstanding. */
  lemma ClaimPaysOutstanding(gs: seq<Grant>, now: nat)
    requires Within(gs, now)
    ensures Outstanding(Remaining(gs, now)) == Outstanding(gs) - TotalReleasable(gs, now)
    ensures Within(Remaining(gs, now), now)
  {
    WithinLater(gs, now, now);
    PayoutIsRiseInClaimed(gs, now);
    OutstandingOfSettled(gs, now);
    OutstandingOfUnfinished(SettleAll(gs, now), now);
    WithinUnfinished(SettleAll(gs, now), now);
  }

  // ---------------------------------------------------------------- the schedule

  function Elapsed(g: Grant, now: nat): nat {
    if now <= g.start then 0 else now - g.start
  }

  /** Nothing before the cliff, then linear from the start of the grant, rounded down, and all of it at the end. */
  lemma VestedBySchedule(g: Grant, now: nat)
    requires g.amount > 0
    ensures var v, e := ComputeVested(g, now), Elapsed(g, now);
      && (g.duration == 0 || (g.cliff <= e && g.duration <= e) ==> v == g.amount)
      && (g.duration > 0 && e < g.cliff ==> v == 0)
      && (g.duration > 0 && g.cliff <= e < g.duration ==> v * g.duration <= g.amount * e < (v + 1) * g.duration)
  {
    if g.duration > 0 {
      DivBounds(g.amount * Elapsed(g, now), g.duration);
    }
  }

  /** The linear part of the schedule. */
  ghost function Ramp(amount: int, elapsed: nat, duration: nat): real
    requires duration > 0
  {
    (amount as real) * (elapsed as real) / (duration as real)
  }

  /** The schedule without rounding. */
  ghost function Scheduled(g: Grant, now: nat): real {
    var e := Elapsed(g, now);
    if g.amount <= 0 || (g.duration > 0 && e < g.cliff) then 0.0
    else if g.duration <= e then g.amount as real
    else Ramp(g.amount, e, g.duration)
  }

  lemma RealShare(v: int, a: nat, e: nat, d: nat)
    requires 0 < d && v * d <= a * e < (v + 1) * d
    ensures (v as real) <= Ramp(a, e, d) < (v as real) + 1.0
  {
    var p, q := (a as real) * (e as real), d as real;
    assert p == (a * e) as real;
    assert (v as real) * q == (v * d) as real;
    assert ((v + 1) as real) * q == ((v + 1) * d) as real;
    RealQuotient(v as real, p, q);
    RealQuotient((v + 1) as real, p, q);
  }

  lemma RealQuotient(x: real, p: real, q: real)
    requires 0.0 < q
    ensures x * q <= p <==> x <= p / q
  {
    var y := p / q;
    assert y * q == p;
    RealLess(x, y, q);
    RealLess(y, x, q);
  }

  lemma RealLess(x: real, y: real, d: real)
    requires 0.0 < d
    ensures x <= y ==> x * d <= y * d
    ensures x < y ==> x * d < y * d
  {
  }

  /** What has vested is the schedule rounded down. */
  lemma VestedIsScheduleRoundedDown(g: Grant, now: nat)
    ensures ComputeVested(g, now) as real <= Scheduled(g, now) < ComputeVested(g, now) as real + 1.0
  {
    hide Elapsed, Ramp;
    if g.amount > 0 {
      hide ComputeVested;
      VestedBySchedule(g, now);
      if g.duration > 0 && g.cliff <= Elapsed(g, now) < g.duration {
        RealShare(ComputeVested(g, now), g.amount, Elapsed(g, now), g.duration);
      }
    }
  }

  ghost function TotalScheduled(gs: seq<Grant>, now: nat): real {
    if |gs| == 0 then 0.0 else TotalScheduled(gs[..|gs| - 1], now) + Scheduled(gs[|gs| - 1], now)
  }

  /** Over a list of grants, one rounding each. */
  lemma {:induction false} TotalVestedIsScheduled(gs: seq<Grant>, now: nat)
    ensures TotalVested(gs, now) as real <= TotalScheduled(gs, now) <= TotalVested(gs, now) as real + |gs| as real
    ensures |gs| > 0 ==> TotalScheduled(gs, now) < TotalVested(gs, now) as real + |gs| as real
  {
    hide ComputeVested, Scheduled;
    if |gs| > 0 {
      TotalVestedIsScheduled(gs[..|gs| - 1], now);
      VestedIsScheduleRoundedDown(gs[|gs| - 1], now);
    }
  }
}
