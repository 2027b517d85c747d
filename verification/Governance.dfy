/**
 * Timelocked governance over the ledger: the admin set, the delay, and the propose / execute / cancel protocol
 * as a state machine, with its safety over every run.
 */
module Governance {
  import opened Prelude
  import opened Arith
  import opened Ledger
  import opened Invariants

  const DEFAULT_TIMELOCK: nat := 50
  const MIN_TIMELOCK: nat := 1
  const MAX_TIMELOCK: nat := 100_000
  const UPGRADE_MIN_TIMELOCK: nat := 2_000

  datatype ActionKind =
    | KindConfigureAsset | KindSetOraclePrice | KindUpdateAssetCaps | KindSetMinCollateralRatio | KindSetPaused
    | KindRecordProtocolFee | KindWithdrawReserves | KindUpgrade | KindSetAssetRiskParams | KindRecoverRewards

  /** Every propose entrypoint pairs its payload with its own kind. */
  function KindOf(payload: ActionPayload): ActionKind {
    match payload
    case ConfigureAsset(_, _) => KindConfigureAsset
    case SetOraclePriceTo(_, _) => KindSetOraclePrice
    case UpdateAssetCaps(_, _, _) => KindUpdateAssetCaps
    case SetMinCollateralRatio(_) => KindSetMinCollateralRatio
    case SetPaused(_) => KindSetPaused
    case RecordFee(_, _) => KindRecordProtocolFee
    case WithdrawFees(_, _, _) => KindWithdrawReserves
    case Upgrade(_) => KindUpgrade
    case SetAssetRiskParams(_, _) => KindSetAssetRiskParams
    case RecoverRewards(_, _) => KindRecoverRewards
  }

  datatype PendingAction = PendingAction(kind: ActionKind, payload: ActionPayload, executableAt: nat, proposer: Address)

  datatype Gov = Gov(
    ledger: State, sequence: nat, admins: seq<Address>, timelock: nat, nextId: nat, pending: map<nat, PendingAction>)

  function Start(founder: Address, minRatioBps: nat, now: nat, sequence: nat): Gov {
    Gov(Initial(minRatioBps, now), sequence, [founder], DEFAULT_TIMELOCK, 0, map[])
  }

  datatype Request =
    | Propose(admin: Address, payload: ActionPayload)
    | Execute(admin: Address, id: nat, kind: ActionKind, host: Host)
    | Cancel(caller: Address, id: nat, kind: ActionKind)
    | SetTimelock(admin: Address, ledgers: nat)
    | AddAdmin(caller: Address, newAdmin: Address)
    | RemoveAdmin(caller: Address, removed: Address)
    | CloseLedgers(count: nat, seconds: nat)
    | Ordinary(call: Call)

  /** The delay that a proposal of this kind snapshots. */
  function Delay(g: Gov, kind: ActionKind): nat {
    if kind.KindUpgrade? then Max(g.timelock, UPGRADE_MIN_TIMELOCK) else g.timelock
  }

  function ReadyAt(g: Gov, kind: ActionKind): nat {
    Min(g.sequence + Delay(g, kind), U32_MAX)
  }

  function ProposeAction(g: Gov, admin: Address, payload: ActionPayload): Result<Gov> {
    var kind := KindOf(payload);
    :- Require(admin in g.admins, Unauthorized);
    :- ValidatePayload(g.ledger, payload);
    Ok(g.(nextId := g.nextId + 1,
          pending := g.pending[g.nextId := PendingAction(kind, payload, ReadyAt(g, kind), admin)]))
  }

  /** Pausing and upgrading must work on a paused contract. */
  predicate RunsWhilePaused(kind: ActionKind) {
    kind.KindSetPaused? || kind.KindUpgrade?
  }

  function ExecuteAction(g: Gov, admin: Address, id: nat, kind: ActionKind, host: Host): Result<Gov> {
    var known := id in g.pending && g.pending[id].kind == kind;
    :- Require(admin in g.admins, Unauthorized);
    :- Require(RunsWhilePaused(kind) || !g.ledger.paused, ContractPaused);
    :- Require(known, UnknownAction);
    :- Require(g.pending[id].executableAt <= g.sequence, TimelockNotReady);
    var ledger :- ApplyAction(g.ledger, g.pending[id].payload, host);
    Ok(g.(ledger := ledger, pending := g.pending - {id}))
  }

  function CancelAction(g: Gov, caller: Address, id: nat, kind: ActionKind): Result<Gov> {
    var known := id in g.pending && g.pending[id].kind == kind;
    :- Require(known, UnknownAction);
    :- Require(caller in g.admins || g.pending[id].proposer == caller, Unauthorized);
    Ok(g.(pending := g.pending - {id}))
  }

  function Handle(g: Gov, req: Request): Result<Gov> {
    match req
    case Propose(admin, payload) => ProposeAction(g, admin, payload)
    case Execute(admin, id, kind, host) => ExecuteAction(g, admin, id, kind, host)
    case Cancel(caller, id, kind) => CancelAction(g, caller, id, kind)
    case SetTimelock(admin, ledgers) =>
      if admin !in g.admins then Err(Unauthorized)
      else if ledgers < MIN_TIMELOCK || MAX_TIMELOCK < ledgers then Err(InvalidTimelock)
      else Ok(g.(timelock := ledgers))
    case AddAdmin(caller, newAdmin) =>
      if caller !in g.admins then Err(Unauthorized) else Ok(g.(admins := AddAsset(g.admins, newAdmin)))
    case RemoveAdmin(caller, removed) =>
      if caller !in g.admins then Err(Unauthorized)
      else if |g.admins| <= 1 then Err(LastAdminRequired)
      else if removed !in g.admins then Err(Unauthorized)
      else Ok(g.(admins := Without(g.admins, removed)))
    case CloseLedgers(count, seconds) =>
      Ok(g.(sequence := g.sequence + count, ledger := After(g.ledger, Wait(seconds))))
    case Ordinary(call) =>
      if call.DoAction? || call.Wait? then Err(TimelockRequired)
      else
        var ledger :- Invoke(g.ledger, call);
        Ok(g.(ledger := ledger))
  }

  /** The state after the first `i` requests; a failing request reverts. */
  function At(g: Gov, reqs: seq<Request>, i: nat): Gov
    requires i <= |reqs|
  {
    if i == 0 then g
    else
      match Handle(At(g, reqs, i - 1), reqs[i - 1])
      case Ok(next) => next
      case Err(_) => At(g, reqs, i - 1)
  }

  // ---------------------------------------------------------------- the history of an action

  predicate Succeeds(g: Gov, reqs: seq<Request>, i: nat)
    requires i < |reqs|
  {
    Handle(At(g, reqs, i), reqs[i]).Ok?
  }

  /** Request `j` is a successful proposal that received this id. */
  predicate ProposedAt(g: Gov, reqs: seq<Request>, j: nat, id: nat)
    requires j < |reqs|
  {
    reqs[j].Propose? && Succeeds(g, reqs, j) && At(g, reqs, j).nextId == id
  }

  predicate ConsumedAt(g: Gov, reqs: seq<Request>, k: nat, id: nat)
    requires k < |reqs|
  {
    && (reqs[k].Execute? || reqs[k].Cancel?)
    && reqs[k].id == id && Succeeds(g, reqs, k)
  }

  /** Proposed at `j` and neither executed nor cancelled before `n`. */
  predicate Outstanding(g: Gov, reqs: seq<Request>, id: nat, j: nat, n: nat)
    requires j < n <= |reqs|
  {
    ProposedAt(g, reqs, j, id) && forall k | j < k < n :: !ConsumedAt(g, reqs, k, id)
  }

  /** What a proposal stores. */
  function Recorded(g: Gov, req: Request): PendingAction
    requires req.Propose?
  {
    PendingAction(KindOf(req.payload), req.payload, ReadyAt(g, KindOf(req.payload)), req.admin)
  }

  predicate NoPending(g: Gov) {
    g.pending == map[] && g.nextId == 0
  }

  /** What one successful request does to the ids and the pending actions. */
  lemma HandleEffect(g: Gov, req: Request)
    requires Handle(g, req).Ok?
    ensures var t := Handle(g, req).value;
      && (req.Propose? ==> t.nextId == g.nextId + 1 && t.pending == g.pending[g.nextId := Recorded(g, req)])
      && (!req.Propose? ==> t.nextId == g.nextId)
      && (req.Execute? || req.Cancel? ==> req.id in g.pending && t.pending == g.pending - {req.id})
      && (!req.Propose? && !req.Execute? && !req.Cancel? ==> t.pending == g.pending)
  {
    hide ApplyAction, ValidatePayload, Invoke;
  }

  /** Ids are handed out in order and never again. */
  lemma {:induction false} IdsGrow(g: Gov, reqs: seq<Request>, i: nat, n: nat)
    requires i <= n <= |reqs|
    ensures At(g, reqs, i).nextId <= At(g, reqs, n).nextId
    ensures i < n && (exists id :: ProposedAt(g, reqs, i, id)) ==> At(g, reqs, i).nextId < At(g, reqs, n).nextId
  {
    hide Handle;
    if i < n {
      IdsGrow(g, reqs, i, n - 1);
      if Succeeds(g, reqs, n - 1) {
        HandleEffect(At(g, reqs, n - 1), reqs[n - 1]);
      }
    }
  }

  /** A pending entry is exactly an outstanding proposal, with the payload and delay of its proposal. */
  lemma {:induction false} PendingIsOutstanding(g: Gov, reqs: seq<Request>, n: nat)
    requires NoPending(g) && n <= |reqs|
    ensures forall id | id in At(g, reqs, n).pending ::
              && id < At(g, reqs, n).nextId
              && exists j | 0 <= j < n :: Outstanding(g, reqs, id, j, n)
    ensures forall id, j | 0 <= j < n && Outstanding(g, reqs, id, j, n) ::
              && id in At(g, reqs, n).pending
              && At(g, reqs, n).pending[id] == Recorded(At(g, reqs, j), reqs[j])
  {
    hide Handle, Recorded;
    if n > 0 {
      PendingIsOutstanding(g, reqs, n - 1);
      var before, after, last := At(g, reqs, n - 1), At(g, reqs, n), n - 1;
      if Succeeds(g, reqs, last) {
        HandleEffect(before, reqs[last]);
      }
      forall id | id in after.pending
        ensures id < after.nextId && exists j | 0 <= j < n :: Outstanding(g, reqs, id, j, n)
      {
        if id in before.pending {
          var j :| 0 <= j < n - 1 && Outstanding(g, reqs, id, j, n - 1);
          assert !ConsumedAt(g, reqs, last, id);
          assert Outstanding(g, reqs, id, j, n);
        } else {
          assert ProposedAt(g, reqs, last, id);
          assert Outstanding(g, reqs, id, last, n);
        }
      }
      forall id, j | 0 <= j < n && Outstanding(g, reqs, id, j, n)
        ensures id in after.pending && after.pending[id] == Recorded(At(g, reqs, j), reqs[j])
      {
        if j < n - 1 {
          assert Outstanding(g, reqs, id, j, n - 1);
          assert !ConsumedAt(g, reqs, last, id);
          IdsGrow(g, reqs, j, n - 1);
        }
      }
    }
  }

  // ---------------------------------------------------------------- safety

  /**
   * The timelock, exactly. In any run, an execution request for an id succeeds if and only if its sender is
   * an admin, the contract is not paused (or the kind is exempt), and some earlier request proposed under that
   * same id and kind a payload that has been neither executed nor cancelled since, whose delay, as snapshotted
   * at the proposal, has passed, and which still applies. A success applies exactly that payload.
   */
  lemma ExecutionIff(g: Gov, reqs: seq<Request>, n: nat)
    requires NoPending(g) && n < |reqs| && reqs[n].Execute?
    ensures var now, req := At(g, reqs, n), reqs[n];
      Succeeds(g, reqs, n) <==>
        && req.admin in now.admins && (RunsWhilePaused(req.kind) || !now.ledger.paused)
        && exists j | 0 <= j < n ::
             && Outstanding(g, reqs, req.id, j, n)
             && KindOf(reqs[j].payload) == req.kind
             && ReadyAt(At(g, reqs, j), req.kind) <= now.sequence
             && ApplyAction(now.ledger, reqs[j].payload, req.host).Ok?
    ensures Succeeds(g, reqs, n) ==>
      forall j | 0 <= j < n && Outstanding(g, reqs, reqs[n].id, j, n) ::
        ApplyAction(At(g, reqs, n).ledger, reqs[j].payload, reqs[n].host) == Ok(At(g, reqs, n + 1).ledger)
  {
    hide ApplyAction, ValidatePayload, Invoke;
    PendingIsOutstanding(g, reqs, n);
    var now, req := At(g, reqs, n), reqs[n];
    if Succeeds(g, reqs, n) {
      assert req.id in now.pending;
      var j :| 0 <= j < n && Outstanding(g, reqs, req.id, j, n);
      assert now.pending[req.id] == Recorded(At(g, reqs, j), reqs[j]);
    }
  }

  /**
   * What the snapshot means in ledgers: an executed action was proposed by a then-admin at least its delay
   * earlier (saturating at the largest ledger number), where the delay is at least one ledger and at least
   * 2000 for an upgrade, whatever `set_timelock_ledgers` did in between.
   */
  lemma TimelockSafety(g: Gov, reqs: seq<Request>, n: nat)
    requires NoPending(g) && WellFormed(g) && n < |reqs| && reqs[n].Execute? && Succeeds(g, reqs, n)
    ensures exists j | 0 <= j < n ::
      && Outstanding(g, reqs, reqs[n].id, j, n)
      && KindOf(reqs[j].payload) == reqs[n].kind
      && reqs[j].admin in At(g, reqs, j).admins
      && var delay := Delay(At(g, reqs, j), reqs[n].kind);
         && 1 <= delay && (reqs[n].kind.KindUpgrade? ==> UPGRADE_MIN_TIMELOCK <= delay)
         && Min(At(g, reqs, j).sequence + delay, U32_MAX) <= At(g, reqs, n).sequence
  {
    hide ApplyAction, ValidatePayload, Invoke, Handle;
    ExecutionIff(g, reqs, n);
    var j :| 0 <= j < n && Outstanding(g, reqs, reqs[n].id, j, n)
             && KindOf(reqs[j].payload) == reqs[n].kind && ReadyAt(At(g, reqs, j), reqs[n].kind) <= At(g, reqs, n).sequence;
    ProposerIsAdmin(g, reqs, j, reqs[n].id);
    EveryRunWellFormed(g, reqs, j);
  }

  lemma ProposerIsAdmin(g: Gov, reqs: seq<Request>, j: nat, id: nat)
    requires j < |reqs| && ProposedAt(g, reqs, j, id)
    ensures reqs[j].admin in At(g, reqs, j).admins
  {
  }

  lemma ConsumedWasOutstanding(g: Gov, reqs: seq<Request>, n: nat, id: nat) returns (j: nat)
    requires NoPending(g) && n < |reqs| && ConsumedAt(g, reqs, n, id)
    ensures j < n && Outstanding(g, reqs, id, j, n)
  {
    hide Handle, Recorded;
    PendingIsOutstanding(g, reqs, n);
    HandleEffect(At(g, reqs, n), reqs[n]);
    var k :| 0 <= k < n && Outstanding(g, reqs, id, k, n);
    j := k;
  }

  /** No id is proposed twice, and no action takes effect or is cancelled twice. */
  lemma AtMostOnce(g: Gov, reqs: seq<Request>, i: nat, n: nat, id: nat)
    requires NoPending(g) && i < n < |reqs|
    ensures !(ProposedAt(g, reqs, i, id) && ProposedAt(g, reqs, n, id))
    ensures !(ConsumedAt(g, reqs, i, id) && ConsumedAt(g, reqs, n, id))
  {
    hide Handle, At;
    if ProposedAt(g, reqs, i, id) {
      IdsGrow(g, reqs, i, n);
    }
    if ConsumedAt(g, reqs, i, id) && ConsumedAt(g, reqs, n, id) {
      var j0 := ConsumedWasOutstanding(g, reqs, i, id);
      var j := ConsumedWasOutstanding(g, reqs, n, id);
      if j > i {
        IdsGrow(g, reqs, j0, j);
      }
    }
  }

  /** A cancellation succeeds exactly for an admin or the proposer of an action of that kind still outstanding. */
  lemma CancelIff(g: Gov, reqs: seq<Request>, n: nat)
    requires NoPending(g) && n < |reqs| && reqs[n].Cancel?
    ensures var now, req := At(g, reqs, n), reqs[n];
      Succeeds(g, reqs, n) <==>
        exists j | 0 <= j < n ::
          && Outstanding(g, reqs, req.id, j, n)
          && KindOf(reqs[j].payload) == req.kind
          && (req.caller in now.admins || req.caller == reqs[j].admin)
  {
    hide ApplyAction, ValidatePayload, Invoke;
    PendingIsOutstanding(g, reqs, n);
    var now, req := At(g, reqs, n), reqs[n];
    if Succeeds(g, reqs, n) {
      assert req.id in now.pending;
      var j :| 0 <= j < n && Outstanding(g, reqs, req.id, j, n);
      assert now.pending[req.id] == Recorded(At(g, reqs, j), reqs[j]);
    }
  }

  /** Who sends a request, if it is one that only an admin may send. */
  function Sender(req: Request): Option<Address> {
    match req
    case Propose(admin, _) => Some(admin)
    case Execute(admin, _, _, _) => Some(admin)
    case SetTimelock(admin, _) => Some(admin)
    case AddAdmin(caller, _) => Some(caller)
    case RemoveAdmin(caller, _) => Some(caller)
    case _ => None
  }

  /**
   * In any run, what changes the admins, the delay or the actions on offer is a request sent by an admin of that
   * moment; and only time and calls that anyone may make change the ledger otherwise. A change of the admins
   * adds or removes the one address named.
   */
  lemma OnlyAdminsGovern(g: Gov, reqs: seq<Request>, n: nat)
    requires WellFormed(g) && n < |reqs|
    ensures var s, t, sender := At(g, reqs, n), At(g, reqs, n + 1), Sender(reqs[n]);
      && (s.admins != t.admins || s.timelock != t.timelock || s.nextId != t.nextId ==>
            sender.Some? && sender.value in s.admins)
      && (s.ledger != t.ledger ==>
            (sender.Some? && sender.value in s.admins) || reqs[n].CloseLedgers? || reqs[n].Ordinary?)
      && (forall a | a in t.admins && a !in s.admins :: reqs[n].AddAdmin? && reqs[n].newAdmin == a)
      && (forall a | a in s.admins && a !in t.admins :: reqs[n].RemoveAdmin? && reqs[n].removed == a)
  {
    hide ApplyAction, ValidatePayload, Invoke;
    var s := At(g, reqs, n);
    EveryRunWellFormed(g, reqs, n);
    if reqs[n].RemoveAdmin? {
      WithoutFacts(s.admins, reqs[n].removed);
    }
  }

  // ---------------------------------------------------------------- admins and delay

  /** There is always an admin, none is listed twice, and the delay is within its bounds. */
  predicate WellFormed(g: Gov) {
    && |g.admins| > 0 && NoDuplicates(g.admins)
    && MIN_TIMELOCK <= g.timelock <= MAX_TIMELOCK
  }

  lemma {:induction false} WithoutLength(list: seq<Address>, a: Address)
    requires NoDuplicates(list)
    ensures |Without(list, a)| == |list| - if a in list then 1 else 0
  {
    if |list| > 0 {
      var before := list[..|list| - 1];
      assert list == before + [list[|list| - 1]];
      WithoutLength(before, a);
    }
  }

  lemma {:induction false} EveryRunWellFormed(g: Gov, reqs: seq<Request>, n: nat)
    requires WellFormed(g) && n <= |reqs|
    ensures WellFormed(At(g, reqs, n))
  {
    hide ApplyAction, ValidatePayload, Invoke;
    if n > 0 {
      EveryRunWellFormed(g, reqs, n - 1);
      var before := At(g, reqs, n - 1);
      if reqs[n - 1].RemoveAdmin? {
        WithoutLength(before.admins, reqs[n - 1].removed);
        WithoutFacts(before.admins, reqs[n - 1].removed);
      }
    }
  }

  // ---------------------------------------------------------------- governed runs are ledger runs

  /** The ledger call that one request makes, if any. */
  function CallOf(g: Gov, req: Request): Option<Call> {
    match req
    case Execute(_, id, _, host) => if id in g.pending then Some(DoAction(g.pending[id].payload, host)) else None
    case CloseLedgers(_, seconds) => Some(Wait(seconds))
    case Ordinary(call) => Some(call)
    case _ => None
  }

  /** The ledger calls that a run of requests makes. */
  function CallsOf(g: Gov, reqs: seq<Request>, n: nat): seq<Call>
    requires n <= |reqs|
  {
    if n == 0 then []
    else
      var call := CallOf(At(g, reqs, n - 1), reqs[n - 1]);
      CallsOf(g, reqs, n - 1) + if Succeeds(g, reqs, n - 1) && call.Some? then [call.value] else []
  }

  lemma HandleLedger(g: Gov, req: Request)
    requires Handle(g, req).Ok?
    ensures var t := Handle(g, req).value;
      t.ledger == match CallOf(g, req) case Some(call) => After(g.ledger, call) case None => g.ledger
  {
    hide ApplyAction, ValidatePayload;
  }

  lemma RunAppend(s: State, calls: seq<Call>, call: Call)
    ensures Run(s, calls + [call]) == After(Run(s, calls), call)
  {
    assert (calls + [call])[..|calls|] == calls;
  }

  /** So everything proved of every run of the ledger holds under governance; the invariant in particular. */
  lemma {:induction false} GovernedRunIsLedgerRun(founder: Address, minRatioBps: nat, now: nat, sequence: nat, reqs: seq<Request>, n: nat)
    requires n <= |reqs|
    ensures var g := Start(founder, minRatioBps, now, sequence);
      && At(g, reqs, n).ledger == Run(Initial(minRatioBps, now), CallsOf(g, reqs, n))
      && (minRatioBps >= 10_000 ==> Sound(At(g, reqs, n).ledger))
  {
    hide Handle, Sound, Initial, Run, After, CallOf;
    var g := Start(founder, minRatioBps, now, sequence);
    if n == 0 {
      RunNothing(Initial(minRatioBps, now));
    } else {
      GovernedRunIsLedgerRun(founder, minRatioBps, now, sequence, reqs, n - 1);
      assert CallsOf(g, reqs, n - 1) + [] == CallsOf(g, reqs, n - 1);
      if Succeeds(g, reqs, n - 1) {
        HandleLedger(At(g, reqs, n - 1), reqs[n - 1]);
        var call := CallOf(At(g, reqs, n - 1), reqs[n - 1]);
        if call.Some? {
          RunAppend(Initial(minRatioBps, now), CallsOf(g, reqs, n - 1), call.value);
        }
      }
    }
    if minRatioBps >= 10_000 {
      EveryRunIsSound(minRatioBps, now, CallsOf(g, reqs, n));
    }
  }

  lemma RunNothing(s: State)
    ensures Run(s, []) == s
  {
  }

  // ---------------------------------------------------------------- the contract's governance half

  class Governor {
    var ledger: State
    var sequence: nat
    var admins: seq<Address>
    var timelock: nat
    var nextId: nat
    var pending: map<nat, PendingAction>

    function View(): Gov
      reads this
    {
      Gov(ledger, sequence, admins, timelock, nextId, pending)
    }

    constructor (founder: Address, minRatioBps: nat, now: nat, sequence: nat)
      ensures View() == Start(founder, minRatioBps, now, sequence)
    {
      this.ledger, this.sequence := Initial(minRatioBps, now), sequence;
      this.admins, this.timelock, this.nextId, this.pending := [founder], DEFAULT_TIMELOCK, 0, map[];
    }

    method NextActionId() returns (id: nat)
      modifies this
      ensures id == old(nextId) && View() == old(View()).(nextId := id + 1)
    {
      id := nextId;
      nextId := id + 1;
    }

    /** Stores a validated action under a new id, with its delay fixed now. */
    method Propose(admin: Address, payload: ActionPayload) returns (r: Result<nat>)
      modifies this
      ensures match ProposeAction(old(View()), admin, payload)
        case Ok(g) => r == Ok(old(nextId)) && View() == g
        case Err(e) => r == Err(e) && View() == old(View())
    {
      if admin !in admins {
        return Err(Unauthorized);
      }
      var valid := ValidatePayload(ledger, payload);
      if valid.Fail? {
        return Err(valid.error);
      }
      var id := NextActionId();
      var kind := KindOf(payload);
      var delay := timelock;
      if kind.KindUpgrade? && delay < UPGRADE_MIN_TIMELOCK {
        delay := UPGRADE_MIN_TIMELOCK;
      }
      var executableAt := if sequence + delay > U32_MAX then U32_MAX else sequence + delay;
      pending := pending[id := PendingAction(kind, payload, executableAt, admin)];
      return Ok(id);
    }

    /** Applies a ripe action and forgets it. */
    method Execute(admin: Address, id: nat, kind: ActionKind, host: Host) returns (r: Check)
      modifies this
      ensures match ExecuteAction(old(View()), admin, id, kind, host)
        case Ok(g) => r.Pass? && View() == g
        case Err(e) => r == Fail(e) && View() == old(View())
    {
      if admin !in admins {
        return Fail(Unauthorized);
      }
      if !RunsWhilePaused(kind) && ledger.paused {
        return Fail(ContractPaused);
      }
      if id !in pending || pending[id].kind != kind {
        return Fail(UnknownAction);
      }
      if sequence < pending[id].executableAt {
        return Fail(TimelockNotReady);
      }
      var applied := ApplyAction(ledger, pending[id].payload, host);
      if applied.Err? {
        return Fail(applied.error);
      }
      ledger := applied.value;
      pending := pending - {id};
      return Pass;
    }

    method Cancel(caller: Address, id: nat, kind: ActionKind) returns (r: Check)
      modifies this
      ensures match CancelAction(old(View()), caller, id, kind)
        case Ok(g) => r.Pass? && View() == g
        case Err(e) => r == Fail(e) && View() == old(View())
    {
      if id !in pending || pending[id].kind != kind {
        return Fail(UnknownAction);
      }
      if caller !in admins && pending[id].proposer != caller {
        return Fail(Unauthorized);
      }
      pending := pending - {id};
      return Pass;
    }

    /** Rebuilds the admin list without one member. */
    method Remove(caller: Address, removed: Address) returns (r: Check)
      modifies this
      ensures match Handle(old(View()), RemoveAdmin(caller, removed))
        case Ok(g) => r.Pass? && View() == g
        case Err(e) => r == Fail(e) && View() == old(View())
    {
      if caller !in admins {
        return Fail(Unauthorized);
      }
      if |admins| <= 1 {
        return Fail(LastAdminRequired);
      }
      if removed !in admins {
        return Fail(Unauthorized);
      }
      var remaining := [];
      var i := 0;
      while i < |admins|
        invariant View() == old(View())
        invariant 0 <= i <= |admins| && remaining == Without(admins[..i], removed)
      {
        assert admins[..i + 1][..i] == admins[..i];
        if admins[i] != removed {
          remaining := remaining + [admins[i]];
        }
        i := i + 1;
      }
      assert admins[..i] == admins;
      admins := remaining;
      return Pass;
    }
  }
}
