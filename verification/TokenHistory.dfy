/**
 * Where every token pair comes from: the steps that led to each exchange and each login of a run, with what
 * the tables showed at those steps.
 */
module TokenHistory {
  import opened Prelude
  import opened RefreshTokens

  // ---------------------------------------------------------------- single steps

  /** The row exists, is unrevoked and has not expired. */
  predicate Redeemable(db: DB, token: nat) {
    token in db.tokens && !db.tokens[token].revoked && db.tokens[token].expiresAt > db.now
  }

  /**
   * The look-up of a request goes on to the exchange exactly when the row exists, is unrevoked and unexpired at
   * that step, turns into a reuse response exactly when it is revoked, and is refused otherwise.
   */
  lemma LookUpIff(db: DB, request: nat, token: nat, ttl: nat)
    requires request in db.requests && db.requests[request] == Arrived(token)
    ensures var t := Next(db, Advance(request), ttl);
      && request in t.requests && t == db.(requests := t.requests)
      && (t.requests[request].Found? <==> Redeemable(db, token))
      && (t.requests[request].Found? ==> t.requests[request] == Found(token, db.tokens[token]))
      && (t.requests[request].RevokingFamily? <==> token in db.tokens && db.tokens[token].revoked)
      && (t.requests[request].Refused? <==>
            token !in db.tokens || (!db.tokens[token].revoked && db.tokens[token].expiresAt <= db.now))
  {
  }

  lemma LookUpOnly(db: DB, request: nat, ttl: nat)
    requires request in db.requests && db.requests[request].Arrived?
    ensures var t := Next(db, Advance(request), ttl);
      && request in t.requests && t.requests == db.requests[request := t.requests[request]]
      && !t.requests[request].Arrived?
      && (t.requests[request].Found? ==>
            && Redeemable(db, db.requests[request].token)
            && t.requests[request] == Found(db.requests[request].token, db.tokens[db.requests[request].token]))
  {
  }

  /** The nonce is stored for the wallet, unused and unexpired. */
  predicate Claimable(db: DB, wallet: nat, nonce: nat) {
    && nonce in db.nonces && db.nonces[nonce].wallet == wallet
    && !db.nonces[nonce].used && db.nonces[nonce].expiresAt > db.now
  }

  /** A login mints a pair exactly when its nonce can be claimed, and otherwise changes nothing. */
  lemma LoginIff(db: DB, wallet: nat, nonce: nat, ttl: nat)
    requires IdsUsed(db)
    ensures var t := Next(db, VerifyWallet(wallet, nonce), ttl);
      && (Claimable(db, wallet, nonce) <==> t.issued != db.issued)
      && (!Claimable(db, wallet, nonce) ==> t == db)
      && (Claimable(db, wallet, nonce) ==> nonce in t.nonces && t.nonces[nonce].used)
  {
    if Claimable(db, wallet, nonce) {
      var t := Next(db, VerifyWallet(wallet, nonce), ttl);
      assert db.next + 2 in t.issued && db.next + 2 !in db.issued;
    }
  }

  /** Cleanup drops no token that could still be used. */
  lemma CleanupKeepsUnexpired(db: DB, cutoff: nat, ttl: nat)
    ensures forall i | i in db.tokens && db.tokens[i].expiresAt > db.now ::
              i in Next(db, CleanTokens(cutoff), ttl).tokens && Next(db, CleanTokens(cutoff), ttl).tokens[i] == db.tokens[i]
    ensures forall j | j in db.jtis && db.jtis[j].expiresAt > db.now ::
              j in Next(db, CleanJtis(cutoff), ttl).jtis && Next(db, CleanJtis(cutoff), ttl).jtis[j] == db.jtis[j]
  {
  }

  /** Revoking sessions ends their access tokens and leaves no refresh token of theirs. */
  lemma RevocationEndsSessions(db: DB, gone: set<nat>, ttl: nat)
    ensures var t := Next(db, RevokeSessions(gone), ttl);
      && (forall i | i in t.tokens :: t.tokens[i].session !in gone)
      && (forall j | j in db.jtis && db.jtis[j].session in gone :: !Accepted(t, j))
      && (forall j | j in db.jtis && db.jtis[j].session !in gone :: Accepted(t, j) == Accepted(db, j))
  {
  }

  // ---------------------------------------------------------------- where things come from

  /** An exchange ends as one of three stages. */
  lemma ExchangeStage(db: DB, r: nat, token: nat, row: RefreshToken, ttl: nat)
    ensures var t := RotationTried(db, r, token, row, ttl);
      && r in t.requests && t.requests == db.requests[r := t.requests[r]]
      && (t.requests[r].RevokingFamily? || t.requests[r].Refused? || t.requests[r].Rotated?)
  {
  }

  /** The later stages of a request never lead back to the first two. */
  lemma AdvanceStage(db: DB, r: nat, ttl: nat)
    requires r in db.requests && !db.requests[r].Arrived?
    ensures var t := Next(db, Advance(r), ttl);
      && r in t.requests && t.requests == db.requests[r := t.requests[r]]
      && !t.requests[r].Arrived? && !t.requests[r].Found?
  {
    hide RotationTried, FamilyRevoked, JtisRevoked, FamilyJtis;
    assert db.requests[r := db.requests[r]] == db.requests;
    match db.requests[r] {
      case Found(token, row) => ExchangeStage(db, r, token, row, ttl);
      case RevokingFamily(family) => RevocationKeepsRequests(db, family, {});
      case RevokingJtis(family, found) => RevocationKeepsRequests(db, family, found);
      case _ =>
    }
  }

  /** No other action moves a request. */
  lemma OthersKeepRequests(db: DB, action: Action, ttl: nat)
    requires !action.Arrive? && !action.Advance?
    ensures Next(db, action, ttl).requests == db.requests
  {
  }

  /** A request is at its start, or found its token, only through its own steps. */
  lemma StageComesFrom(db: DB, action: Action, ttl: nat, r: nat)
    requires r in Next(db, action, ttl).requests
    ensures var stage := Next(db, action, ttl).requests[r];
      && (stage.Arrived? ==>
            (r in db.requests && db.requests[r] == stage) || (action == Arrive(r, stage.token) && r !in db.requests))
      && (stage.Found? ==>
            || (r in db.requests && db.requests[r] == stage)
            || (action == Advance(r) && r in db.requests && db.requests[r] == Arrived(stage.token)
                && Redeemable(db, stage.token) && stage.row == db.tokens[stage.token]))
  {
    if action.Advance? {
      var request := action.request;
      if request in db.requests {
        if db.requests[request].Arrived? {
          LookUpOnly(db, request, ttl);
        } else {
          AdvanceStage(db, request, ttl);
        }
      }
      hide Next;
    } else if !action.Arrive? {
      OthersKeepRequests(db, action, ttl);
    }
  }

  /** A pair is minted by a login with a claimable nonce or by an exchange of an unrevoked token. */
  predicate MintedBy(db: DB, action: Action, issue: Issue) {
    && issue.at == db.now
    && (match action
        case VerifyWallet(wallet, nonce) =>
          Claimable(db, wallet, nonce) && issue.nonce == Some(nonce) && issue.parent == None
        case Advance(r) =>
          && r in db.requests && db.requests[r].Found?
          && db.requests[r].token in db.tokens && !db.tokens[db.requests[r].token].revoked
          && issue.parent == Some(db.requests[r].token) && issue.nonce == None && issue.family == db.requests[r].row.family
        case _ => false)
  }

  lemma ExchangeIssues(db: DB, r: nat, token: nat, row: RefreshToken, ttl: nat, j: nat)
    requires j in RotationTried(db, r, token, row, ttl).issued
    ensures var issue := RotationTried(db, r, token, row, ttl).issued[j];
      (j in db.issued && db.issued[j] == issue)
      || (token in db.tokens && !db.tokens[token].revoked && issue == Issue(row.family, db.now, Some(token), None))
  {
  }

  lemma LoginIssues(db: DB, wallet: nat, nonce: nat, ttl: nat, j: nat)
    requires j in LoggedIn(db, wallet, nonce, ttl).issued
    ensures var issue := LoggedIn(db, wallet, nonce, ttl).issued[j];
      (j in db.issued && db.issued[j] == issue)
      || (Claimable(db, wallet, nonce) && issue == Issue(db.next + 1, db.now, None, Some(nonce)))
  {
  }

  lemma OthersIssueNothing(db: DB, action: Action, ttl: nat)
    requires !action.VerifyWallet? && (action.Advance? ==> action.request !in db.requests || !db.requests[action.request].Found?)
    ensures Next(db, action, ttl).issued == db.issued
  {
    hide RotationTried, FamilyJtis, LoggedIn;
  }

  lemma IssueComesFrom(db: DB, action: Action, ttl: nat, j: nat)
    requires j in Next(db, action, ttl).issued
    ensures var issue := Next(db, action, ttl).issued[j];
      (j in db.issued && db.issued[j] == issue) || MintedBy(db, action, issue)
  {
    hide LoggedIn, RotationTried, Claimable;
    match action {
      case VerifyWallet(wallet, nonce) => LoginIssues(db, wallet, nonce, ttl, j);
      case Advance(r) =>
        if r in db.requests && db.requests[r].Found? {
          ExchangeIssues(db, r, db.requests[r].token, db.requests[r].row, ttl, j);
        } else {
          OthersIssueNothing(db, action, ttl);
        }
      case _ => OthersIssueNothing(db, action, ttl);
    }
  }

  /** A nonce is stored by a request for it, to live five minutes, and keeps its wallet and its expiry. */
  lemma NonceComesFrom(db: DB, action: Action, ttl: nat, n: nat)
    requires n in Next(db, action, ttl).nonces
    ensures var nonce := Next(db, action, ttl).nonces[n];
      || (n in db.nonces && db.nonces[n].wallet == nonce.wallet && db.nonces[n].expiresAt == nonce.expiresAt)
      || (action == GenerateNonce(nonce.wallet) && n == db.next && nonce.expiresAt == db.now + 300_000)
  {
    hide PairIssued, RotationTried, FamilyRevoked, JtisRevoked, SessionsRevoked, FamilyJtis, Advanced, LoggedIn;
    match action {
      case VerifyWallet(wallet, nonce) => LoginNonces(db, wallet, nonce, ttl);
      case Advance(r) => AdvanceNonces(db, r, ttl);
      case RevokeSessions(gone) => SessionsKeepNonces(db, gone);
      case _ =>
    }
  }

  lemma LoginNonces(db: DB, wallet: nat, nonce: nat, ttl: nat)
    ensures var t := LoggedIn(db, wallet, nonce, ttl);
      t.nonces == db.nonces || (nonce in db.nonces && t.nonces == db.nonces[nonce := db.nonces[nonce].(used := true)])
  {
  }

  lemma AdvanceNonces(db: DB, r: nat, ttl: nat)
    ensures Advanced(db, r, ttl).nonces == db.nonces
  {
    hide FamilyJtis;
  }

  lemma SessionsKeepNonces(db: DB, gone: set<nat>)
    ensures SessionsRevoked(db, gone).nonces == db.nonces
  {
  }

  // ---------------------------------------------------------------- histories

  function Before(actions: seq<Action>, k: nat, ttl: nat): DB
    requires k <= |actions|
  {
    Run(EMPTY, actions[..k], ttl)
  }

  /** The request arrived with this token earlier in the run. */
  predicate Arrival(actions: seq<Action>, r: nat, token: nat) {
    exists i | 0 <= i < |actions| :: actions[i] == Arrive(r, token)
  }

  /** After it arrived, a step of the request found the token's row unrevoked and unexpired, less than 30 days old. */
  predicate LookedUpAt(actions: seq<Action>, k: nat, r: nat, token: nat, ttl: nat)
    requires k < |actions|
  {
    var db := Before(actions, k, ttl);
    && actions[k] == Advance(r) && Arrival(actions[..k], r, token)
    && Redeemable(db, token)
    && db.tokens[token].jti in db.issued && db.now < db.issued[db.tokens[token].jti].at + 2_592_000_000
  }

  predicate LookedUp(actions: seq<Action>, r: nat, token: nat, ttl: nat) {
    exists k | 0 <= k < |actions| :: LookedUpAt(actions, k, r, token, ttl)
  }

  /** A later step of the same request minted this pair while the row was still unrevoked. */
  predicate ExchangedAt(actions: seq<Action>, m: nat, token: nat, j: nat, ttl: nat)
    requires m < |actions|
  {
    var db := Before(actions, m, ttl);
    && actions[m].Advance? && LookedUp(actions[..m], actions[m].request, token, ttl)
    && token in db.tokens && !db.tokens[token].revoked
    && j !in db.issued && j in Next(db, actions[m], ttl).issued
  }

  predicate Exchanged(actions: seq<Action>, token: nat, j: nat, ttl: nat) {
    exists m | 0 <= m < |actions| :: ExchangedAt(actions, m, token, j, ttl)
  }

  /** The nonce was generated for the wallet, to expire then. */
  predicate Generated(actions: seq<Action>, wallet: nat, nonce: nat, expiresAt: nat, ttl: nat) {
    exists g | 0 <= g < |actions| ::
      && actions[g] == GenerateNonce(wallet) && Before(actions, g, ttl).next == nonce
      && expiresAt == Before(actions, g, ttl).now + 300_000
  }

  /** A login for the wallet it was generated for minted this pair within the nonce's five minutes. */
  predicate LoggedInAt(actions: seq<Action>, m: nat, nonce: nat, j: nat, ttl: nat)
    requires m < |actions|
  {
    var db := Before(actions, m, ttl);
    && actions[m].VerifyWallet? && actions[m].nonce == nonce
    && nonce in db.nonces && !db.nonces[nonce].used && db.now < db.nonces[nonce].expiresAt
    && Generated(actions[..m], actions[m].wallet, nonce, db.nonces[nonce].expiresAt, ttl)
    && j !in db.issued && j in Next(db, actions[m], ttl).issued
  }

  predicate ByLogin(actions: seq<Action>, nonce: nat, j: nat, ttl: nat) {
    exists m | 0 <= m < |actions| :: LoggedInAt(actions, m, nonce, j, ttl)
  }

  // Histories only grow.

  lemma PrefixOfPrefix(actions: seq<Action>, action: Action, k: nat)
    requires k <= |actions|
    ensures (actions + [action])[..k] == actions[..k]
  {
  }

  lemma ArrivalGrows(actions: seq<Action>, action: Action, r: nat, token: nat)
    requires Arrival(actions, r, token)
    ensures Arrival(actions + [action], r, token)
  {
    var i :| 0 <= i < |actions| && actions[i] == Arrive(r, token);
    assert (actions + [action])[i] == Arrive(r, token);
  }

  lemma LookedUpGrows(actions: seq<Action>, action: Action, r: nat, token: nat, ttl: nat)
    requires LookedUp(actions, r, token, ttl)
    ensures LookedUp(actions + [action], r, token, ttl)
  {
    hide Run, Arrival, Redeemable;
    var k :| 0 <= k < |actions| && LookedUpAt(actions, k, r, token, ttl);
    PrefixOfPrefix(actions, action, k);
    assert LookedUpAt(actions + [action], k, r, token, ttl);
  }

  lemma ExchangedGrows(actions: seq<Action>, action: Action, token: nat, j: nat, ttl: nat)
    requires Exchanged(actions, token, j, ttl)
    ensures Exchanged(actions + [action], token, j, ttl)
  {
    hide Run, LookedUp, Next;
    var m :| 0 <= m < |actions| && ExchangedAt(actions, m, token, j, ttl);
    PrefixOfPrefix(actions, action, m);
    assert ExchangedAt(actions + [action], m, token, j, ttl);
  }

  lemma GeneratedGrows(actions: seq<Action>, action: Action, wallet: nat, nonce: nat, expiresAt: nat, ttl: nat)
    requires Generated(actions, wallet, nonce, expiresAt, ttl)
    ensures Generated(actions + [action], wallet, nonce, expiresAt, ttl)
  {
    hide Run;
    var g :| 0 <= g < |actions| && actions[g] == GenerateNonce(wallet) && Before(actions, g, ttl).next == nonce
             && expiresAt == Before(actions, g, ttl).now + 300_000;
    PrefixOfPrefix(actions, action, g);
    assert (actions + [action])[g] == GenerateNonce(wallet);
  }

  lemma ByLoginGrows(actions: seq<Action>, action: Action, nonce: nat, j: nat, ttl: nat)
    requires ByLogin(actions, nonce, j, ttl)
    ensures ByLogin(actions + [action], nonce, j, ttl)
  {
    hide Run, Generated, Next;
    var m :| 0 <= m < |actions| && LoggedInAt(actions, m, nonce, j, ttl);
    PrefixOfPrefix(actions, action, m);
    assert LoggedInAt(actions + [action], m, nonce, j, ttl);
  }

  // What the tables of any run go back to.

  predicate RequestsHaveHistory(actions: seq<Action>, ttl: nat) {
    var db := Run(EMPTY, actions, ttl);
    forall r | r in db.requests ::
      && (db.requests[r].Arrived? ==> Arrival(actions, r, db.requests[r].token))
      && (db.requests[r].Found? ==> LookedUp(actions, r, db.requests[r].token, ttl))
  }

  predicate NoncesHaveHistory(actions: seq<Action>, ttl: nat) {
    var db := Run(EMPTY, actions, ttl);
    forall n | n in db.nonces :: Generated(actions, db.nonces[n].wallet, n, db.nonces[n].expiresAt, ttl)
  }

  predicate PairsHaveHistory(actions: seq<Action>, ttl: nat) {
    var db := Run(EMPTY, actions, ttl);
    forall j | j in db.issued ::
      && (db.issued[j].parent.Some? || db.issued[j].nonce.Some?)
      && (db.issued[j].parent.Some? ==> Exchanged(actions, db.issued[j].parent.value, j, ttl))
      && (db.issued[j].nonce.Some? ==> ByLogin(actions, db.issued[j].nonce.value, j, ttl))
  }

  lemma LookUpRecorded(actions: seq<Action>, r: nat, token: nat, ttl: nat)
    requires Arrival(actions, r, token) && Redeemable(Run(EMPTY, actions, ttl), token)
    ensures LookedUp(actions + [Advance(r)], r, token, ttl)
  {
    hide Run, Arrival;
    EveryRunSane(actions, ttl);
    var all := actions + [Advance(r)];
    PrefixOfPrefix(actions, Advance(r), |actions|);
    assert actions[..|actions|] == actions;
    RowAge(Run(EMPTY, actions, ttl), token, ttl);
    assert all[|actions|] == Advance(r);
    assert LookedUpAt(all, |actions|, r, token, ttl);
  }

  /** A row that has not expired is less than 30 days old. */
  lemma RowAge(db: DB, token: nat, ttl: nat)
    requires Sane(db, ttl) && Redeemable(db, token)
    ensures db.tokens[token].jti in db.issued && db.now < db.issued[db.tokens[token].jti].at + 2_592_000_000
  {
    hide OneUnrevoked, OneUnusedNonce, SpentOnce, StagesDead;
  }

  lemma RequestsStep(actions: seq<Action>, action: Action, ttl: nat)
    requires RequestsHaveHistory(actions, ttl)
    ensures RequestsHaveHistory(actions + [action], ttl)
  {
    hide Run, Next, Arrival, LookedUp, Redeemable;
    var db := Run(EMPTY, actions, ttl);
    RunAppend(EMPTY, actions, action, ttl);
    var t := Next(db, action, ttl);
    forall r | r in t.requests
      ensures t.requests[r].Arrived? ==> Arrival(actions + [action], r, t.requests[r].token)
      ensures t.requests[r].Found? ==> LookedUp(actions + [action], r, t.requests[r].token, ttl)
    {
      StageComesFrom(db, action, ttl, r);
      if t.requests[r].Arrived? {
        if r in db.requests && db.requests[r] == t.requests[r] {
          ArrivalGrows(actions, action, r, t.requests[r].token);
        } else {
          ArrivesLast(actions, r, t.requests[r].token);
        }
      }
      if t.requests[r].Found? {
        if r in db.requests && db.requests[r] == t.requests[r] {
          LookedUpGrows(actions, action, r, t.requests[r].token, ttl);
        } else {
          LookUpRecorded(actions, r, t.requests[r].token, ttl);
        }
      }
    }
  }

  lemma ArrivesLast(actions: seq<Action>, r: nat, token: nat)
    ensures Arrival(actions + [Arrive(r, token)], r, token)
  {
    assert (actions + [Arrive(r, token)])[|actions|] == Arrive(r, token);
  }

  lemma NoncesStep(actions: seq<Action>, action: Action, ttl: nat)
    requires NoncesHaveHistory(actions, ttl)
    ensures NoncesHaveHistory(actions + [action], ttl)
  {
    hide Run, Next, Generated;
    var db := Run(EMPTY, actions, ttl);
    RunAppend(EMPTY, actions, action, ttl);
    var t := Next(db, action, ttl);
    forall n | n in t.nonces
      ensures Generated(actions + [action], t.nonces[n].wallet, n, t.nonces[n].expiresAt, ttl)
    {
      NonceComesFrom(db, action, ttl, n);
      if n in db.nonces && db.nonces[n].wallet == t.nonces[n].wallet && db.nonces[n].expiresAt == t.nonces[n].expiresAt {
        GeneratedGrows(actions, action, t.nonces[n].wallet, n, t.nonces[n].expiresAt, ttl);
      } else {
        GeneratesLast(actions, t.nonces[n].wallet, ttl);
      }
    }
  }

  lemma GeneratesLast(actions: seq<Action>, wallet: nat, ttl: nat)
    ensures var db := Run(EMPTY, actions, ttl);
      Generated(actions + [GenerateNonce(wallet)], wallet, db.next, db.now + 300_000, ttl)
  {
    hide Run;
    var all := actions + [GenerateNonce(wallet)];
    PrefixOfPrefix(actions, GenerateNonce(wallet), |actions|);
    assert actions[..|actions|] == actions && all[|actions|] == GenerateNonce(wallet);
    assert Before(all, |actions|, ttl) == Run(EMPTY, actions, ttl);
  }

  /** The last action of a run, and the state it met. */
  lemma LastAction(actions: seq<Action>, action: Action, ttl: nat)
    ensures var all := actions + [action];
      all[|actions|] == action && all[..|actions|] == actions && Before(all, |actions|, ttl) == Run(EMPTY, actions, ttl)
  {
  }

  lemma PairRecorded(actions: seq<Action>, action: Action, ttl: nat, j: nat)
    requires RequestsHaveHistory(actions, ttl) && NoncesHaveHistory(actions, ttl)
    requires var db := Run(EMPTY, actions, ttl);
      && j !in db.issued && j in Next(db, action, ttl).issued
      && MintedBy(db, action, Next(db, action, ttl).issued[j])
    ensures var issue := Next(Run(EMPTY, actions, ttl), action, ttl).issued[j];
      && (issue.parent.Some? || issue.nonce.Some?)
      && (issue.parent.Some? ==> Exchanged(actions + [action], issue.parent.value, j, ttl))
      && (issue.nonce.Some? ==> ByLogin(actions + [action], issue.nonce.value, j, ttl))
  {
    hide Run, Next, LookedUp, Generated;
    LastAction(actions, action, ttl);
    var db := Run(EMPTY, actions, ttl);
    match action {
      case VerifyWallet(wallet, nonce) =>
        assert LoggedInAt(actions + [action], |actions|, nonce, j, ttl);
      case Advance(r) =>
        assert ExchangedAt(actions + [action], |actions|, db.requests[r].token, j, ttl);
      case _ =>
    }
  }

  lemma PairsStep(actions: seq<Action>, action: Action, ttl: nat)
    requires RequestsHaveHistory(actions, ttl) && NoncesHaveHistory(actions, ttl) && PairsHaveHistory(actions, ttl)
    ensures PairsHaveHistory(actions + [action], ttl)
  {
    hide Run, Next, Exchanged, ByLogin, RequestsHaveHistory, NoncesHaveHistory, MintedBy;
    var db := Run(EMPTY, actions, ttl);
    RunAppend(EMPTY, actions, action, ttl);
    var t := Next(db, action, ttl);
    forall j | j in t.issued
      ensures t.issued[j].parent.Some? || t.issued[j].nonce.Some?
      ensures t.issued[j].parent.Some? ==> Exchanged(actions + [action], t.issued[j].parent.value, j, ttl)
      ensures t.issued[j].nonce.Some? ==> ByLogin(actions + [action], t.issued[j].nonce.value, j, ttl)
    {
      IssueComesFrom(db, action, ttl, j);
      if j in db.issued && db.issued[j] == t.issued[j] {
        if t.issued[j].parent.Some? {
          ExchangedGrows(actions, action, t.issued[j].parent.value, j, ttl);
        }
        if t.issued[j].nonce.Some? {
          ByLoginGrows(actions, action, t.issued[j].nonce.value, j, ttl);
        }
      } else {
        EveryRunSane(actions, ttl);
        MintIsNew(db, action, ttl, j);
        PairRecorded(actions, action, ttl, j);
      }
    }
  }

  /** Ids are never reused, so a changed record is a new pair. */
  lemma MintIsNew(db: DB, action: Action, ttl: nat, j: nat)
    requires Sane(db, ttl) && j in Next(db, action, ttl).issued
    requires !(j in db.issued && db.issued[j] == Next(db, action, ttl).issued[j])
    ensures j !in db.issued
  {
    hide OneUnrevoked, RowsMatchIssues, OneUnusedNonce, SpentOnce, StagesDead, LoggedIn, RotationTried, Claimable;
    match action {
      case VerifyWallet(wallet, nonce) => LoginKeepsIssues(db, wallet, nonce, ttl);
      case Advance(r) =>
        if r in db.requests && db.requests[r].Found? {
          ExchangeKeepsIssues(db, r, db.requests[r].token, db.requests[r].row, ttl);
        } else {
          OthersIssueNothing(db, action, ttl);
        }
      case _ => OthersIssueNothing(db, action, ttl);
    }
  }

  lemma LoginKeepsIssues(db: DB, wallet: nat, nonce: nat, ttl: nat)
    requires IdsUsed(db)
    ensures var t := LoggedIn(db, wallet, nonce, ttl);
      forall j | j in db.issued :: j in t.issued && t.issued[j] == db.issued[j]
  {
  }

  lemma ExchangeKeepsIssues(db: DB, r: nat, token: nat, row: RefreshToken, ttl: nat)
    requires IdsUsed(db)
    ensures var t := RotationTried(db, r, token, row, ttl);
      forall j | j in db.issued :: j in t.issued && t.issued[j] == db.issued[j]
  {
  }

  /**
   * Every token pair of every run goes back either to an exchange or to a login. An exchange: the request had
   * arrived with the parent token, a later step of it found the parent's row unrevoked, unexpired and less than
   * 30 days old, and a still later step, with the row still unrevoked, minted the pair. A login: it was for the
   * wallet that the nonce had been generated for, with the nonce unused and less than five minutes old.
   */
  lemma {:induction false} EveryPairHasHistory(actions: seq<Action>, ttl: nat)
    ensures PairsHaveHistory(actions, ttl) && RequestsHaveHistory(actions, ttl) && NoncesHaveHistory(actions, ttl)
  {
    hide PairsHaveHistory, RequestsHaveHistory, NoncesHaveHistory;
    if |actions| == 0 {
      NothingYet(ttl);
    } else {
      var before, last := actions[..|actions| - 1], actions[|actions| - 1];
      EveryPairHasHistory(before, ttl);
      assert actions == before + [last];
      PairsStep(before, last, ttl);
      RequestsStep(before, last, ttl);
      NoncesStep(before, last, ttl);
    }
  }

  lemma NothingYet(ttl: nat)
    ensures PairsHaveHistory([], ttl) && RequestsHaveHistory([], ttl) && NoncesHaveHistory([], ttl)
  {
    assert Run(EMPTY, [], ttl) == EMPTY;
  }
}
