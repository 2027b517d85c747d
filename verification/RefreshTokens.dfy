/**
 * Login and refresh-token rotation under every interleaving: each database call or serializable transaction
 * of a request is one atomic step, and any number of requests, cleanups and logouts run at once.
 */
module RefreshTokens {
  import opened Prelude

  /** Milliseconds. */
  const NONCE_TTL: nat := 300_000
  const REFRESH_TTL: nat := 2_592_000_000

  datatype Nonce = Nonce(wallet: nat, expiresAt: nat, used: bool)
  datatype RefreshToken = RefreshToken(session: nat, family: nat, jti: nat, expiresAt: nat, revoked: bool)
  datatype AccessToken = AccessToken(session: nat, expiresAt: nat, revoked: bool)

  /** Bookkeeping, read by no request: in which family, when, and for which refresh token or nonce a pair was minted. */
  datatype Issue = Issue(family: nat, at: nat, parent: Option<nat>, nonce: Option<nat>)

  /** Where a refresh request stands; every arrow between these is one database step. */
  datatype Stage =
    | Arrived(token: nat)
    | Found(token: nat, row: RefreshToken)
    | RevokingFamily(family: nat)
    | FindingJtis(family: nat)
    | RevokingJtis(family: nat, found: set<nat>)
    | ReuseAnswered(family: nat)
    | Refused
    | Rotated

  /** Rows by id. Ids of all kinds come from one supply, as random ids that never collide. */
  datatype DB = DB(
    now: nat, next: nat,
    nonces: map<nat, Nonce>, sessions: map<nat, nat>,
    tokens: map<nat, RefreshToken>, jtis: map<nat, AccessToken>,
    issued: map<nat, Issue>, requests: map<nat, Stage>)

  const EMPTY: DB := DB(0, 0, map[], map[], map[], map[], map[], map[])

  datatype Action =
    | GenerateNonce(wallet: nat)
    | BurnNonce(nonce: nat)
    | VerifyWallet(wallet: nat, nonce: nat)
    | Arrive(request: nat, token: nat)
    | Advance(request: nat)
    | RevokeSessions(sessions: set<nat>)
    | CleanTokens(cutoff: nat)
    | CleanJtis(cutoff: nat)
    | Tick(ms: nat)

  // ---------------------------------------------------------------- transactions

  /** Retires the wallet's unused nonces, then stores a new one. */
  function NonceIssued(db: DB, wallet: nat): DB {
    var retired := map n | n in db.nonces ::
      if db.nonces[n].wallet == wallet then db.nonces[n].(used := true) else db.nonces[n];
    db.(nonces := retired[db.next := Nonce(wallet, db.now + NONCE_TTL, false)], next := db.next + 1)
  }

  /** A jti row and a refresh-token row, both new; `ttl` is the access token's lifetime. */
  function PairIssued(db: DB, session: nat, family: nat, ttl: nat, parent: Option<nat>, nonce: Option<nat>): DB {
    var jti, token := db.next, db.next + 1;
    db.(jtis := db.jtis[jti := AccessToken(session, db.now + ttl, false)],
        tokens := db.tokens[token := RefreshToken(session, family, jti, db.now + REFRESH_TTL, false)],
        sessions := db.sessions[session := db.now + ttl],
        issued := db.issued[jti := Issue(family, db.now, parent, nonce)],
        next := db.next + 2)
  }

  predicate NonceClaimable(db: DB, wallet: nat, nonce: nat) {
    nonce in db.nonces && db.nonces[nonce].wallet == wallet && !db.nonces[nonce].used && db.nonces[nonce].expiresAt > db.now
  }

  /** Claims the nonce and opens a session with a new family, in one transaction. */
  function LoggedIn(db: DB, wallet: nat, nonce: nat, ttl: nat): DB {
    if !NonceClaimable(db, wallet, nonce) then db
    else
      var claimed := db.(nonces := db.nonces[nonce := db.nonces[nonce].(used := true)], next := db.next + 2);
      PairIssued(claimed, db.next, db.next + 1, ttl, None, Some(nonce))
  }

  /** Claims the presented token and mints its successor, or learns that somebody else got there first. */
  function RotationTried(db: DB, request: nat, token: nat, row: RefreshToken, ttl: nat): DB {
    if token !in db.tokens || db.tokens[token].revoked then
      db.(requests := db.requests[request := RevokingFamily(row.family)])
    else if row.session !in db.sessions then
      db.(requests := db.requests[request := Refused])
    else
      var claimed := db.(tokens := db.tokens[token := db.tokens[token].(revoked := true)]);
      PairIssued(claimed, row.session, row.family, ttl, Some(token), None).(requests := db.requests[request := Rotated])
  }

  function FamilyRevoked(db: DB, family: nat): DB {
    db.(tokens := map i | i in db.tokens ::
      if db.tokens[i].family == family then db.tokens[i].(revoked := true) else db.tokens[i])
  }

  function FamilyJtis(db: DB, family: nat): set<nat> {
    set i | i in db.tokens && db.tokens[i].family == family :: db.tokens[i].jti
  }

  function JtisRevoked(db: DB, found: set<nat>): DB {
    db.(jtis := map j | j in db.jtis :: if j in found then db.jtis[j].(revoked := true) else db.jtis[j])
  }

  /** The next database step of a request. */
  function Advanced(db: DB, request: nat, ttl: nat): DB {
    if request !in db.requests then db
    else
      match db.requests[request]
      case Arrived(token) =>
        var stage :=
          if token !in db.tokens then Refused
          else if db.tokens[token].revoked then RevokingFamily(db.tokens[token].family)
          else if db.tokens[token].expiresAt <= db.now then Refused
          else Found(token, db.tokens[token]);
        db.(requests := db.requests[request := stage])
      case Found(token, row) => RotationTried(db, request, token, row, ttl)
      case RevokingFamily(family) =>
        FamilyRevoked(db, family).(requests := db.requests[request := FindingJtis(family)])
      case FindingJtis(family) =>
        db.(requests := db.requests[request := RevokingJtis(family, FamilyJtis(db, family))])
      case RevokingJtis(family, found) =>
        JtisRevoked(db, found).(requests := db.requests[request := ReuseAnswered(family)])
      case _ => db
  }

  /** Deleting a session deletes its refresh tokens and jtis with it. */
  function SessionsRevoked(db: DB, gone: set<nat>): DB {
    db.(sessions := map s | s in db.sessions && s !in gone :: db.sessions[s],
        tokens := map i | i in db.tokens && db.tokens[i].session !in gone :: db.tokens[i],
        jtis := map j | j in db.jtis && db.jtis[j].session !in gone :: db.jtis[j])
  }

  function Next(db: DB, action: Action, ttl: nat): DB {
    match action
    case GenerateNonce(wallet) => NonceIssued(db, wallet)
    case BurnNonce(nonce) =>
      if nonce in db.nonces then db.(nonces := db.nonces[nonce := db.nonces[nonce].(used := true)]) else db
    case VerifyWallet(wallet, nonce) => LoggedIn(db, wallet, nonce, ttl)
    case Arrive(request, token) =>
      if request in db.requests then db else db.(requests := db.requests[request := Arrived(token)])
    case Advance(request) => Advanced(db, request, ttl)
    case RevokeSessions(gone) => SessionsRevoked(db, gone)
    case CleanTokens(cutoff) =>
      if cutoff > db.now then db
      else db.(tokens := map i | i in db.tokens && !(db.tokens[i].expiresAt < cutoff) :: db.tokens[i])
    case CleanJtis(cutoff) =>
      if cutoff > db.now then db
      else db.(jtis := map j | j in db.jtis && !(db.jtis[j].expiresAt < cutoff) :: db.jtis[j])
    case Tick(ms) => db.(now := db.now + ms)
  }

  function Run(db: DB, actions: seq<Action>, ttl: nat): DB {
    if |actions| == 0 then db else Next(Run(db, actions[..|actions| - 1], ttl), actions[|actions| - 1], ttl)
  }

  // ---------------------------------------------------------------- what holds at every step

  /** The access token could still be accepted as far as its registry row goes. */
  predicate Live(db: DB, jti: nat) {
    jti in db.jtis && !db.jtis[jti].revoked && db.jtis[jti].expiresAt > db.now
  }

  /** What the request guard checks of an access token. */
  predicate Accepted(db: DB, jti: nat) {
    Live(db, jti) && db.jtis[jti].session in db.sessions && db.now <= db.sessions[db.jtis[jti].session]
  }

  /** A used family without an unrevoked token. */
  predicate Dead(db: DB, family: nat) {
    family < db.next && forall i | i in db.tokens && db.tokens[i].family == family :: db.tokens[i].revoked
  }

  predicate IdsUsed(db: DB) {
    && (forall n | n in db.nonces :: n < db.next)
    && (forall s | s in db.sessions :: s < db.next)
    && (forall i | i in db.tokens ::
          i < db.next && db.tokens[i].family < db.next && db.tokens[i].session < db.next && db.tokens[i].jti in db.issued)
    && (forall j | j in db.jtis :: j in db.issued && db.jtis[j].session < db.next)
    && (forall j | j in db.issued :: j < db.next && db.issued[j].family < db.next)
  }

  /** A family never has two unrevoked refresh tokens. */
  predicate OneUnrevoked(db: DB) {
    forall i, k | i in db.tokens && k in db.tokens && db.tokens[i].family == db.tokens[k].family
                  && !db.tokens[i].revoked && !db.tokens[k].revoked :: i == k
  }

  /** Rows agree with the record of their minting. */
  predicate RowsMatchIssues(db: DB, ttl: nat) {
    && (forall i | i in db.tokens && db.tokens[i].jti in db.issued ::
          && db.tokens[i].family == db.issued[db.tokens[i].jti].family
          && db.tokens[i].expiresAt == db.issued[db.tokens[i].jti].at + REFRESH_TTL
          && (db.tokens[i].jti in db.jtis ==> db.jtis[db.tokens[i].jti].session == db.tokens[i].session))
    && (forall j | j in db.jtis && j in db.issued :: db.jtis[j].expiresAt == db.issued[j].at + ttl)
  }

  predicate HasRow(db: DB, jti: nat) {
    exists i :: i in db.tokens && db.tokens[i].jti == jti
  }

  /** A live access token is reachable through its refresh-token row, so a family revocation finds it. */
  predicate LiveHasRow(db: DB) {
    forall j | j in db.jtis && Live(db, j) :: HasRow(db, j)
  }

  /** The families that requests work on exist, and those whose tokens were revoked stay dead. */
  predicate StageDead(db: DB, stage: Stage) {
    match stage
    case Found(token, row) =>
      && token < db.next && row.family < db.next && row.session < db.next
      && (token in db.tokens ==> db.tokens[token].family == row.family && db.tokens[token].session == row.session)
    case RevokingFamily(family) => family < db.next
    case FindingJtis(family) => Dead(db, family)
    case RevokingJtis(family, _) => Dead(db, family)
    case ReuseAnswered(family) => Dead(db, family)
    case _ => true
  }

  predicate FamilyLiveWithin(db: DB, family: nat, found: set<nat>) {
    forall j | j in db.issued && db.issued[j].family == family && Live(db, j) :: j in found
  }

  /** The jtis still live are those the response is about to revoke; at its end there are none. */
  predicate StageCovers(db: DB, stage: Stage) {
    match stage
    case RevokingJtis(family, found) => FamilyLiveWithin(db, family, found)
    case ReuseAnswered(family) => FamilyLiveWithin(db, family, {})
    case _ => true
  }

  predicate StagesDead(db: DB) {
    forall r | r in db.requests :: StageDead(db, db.requests[r])
  }

  predicate StagesCover(db: DB) {
    forall r | r in db.requests :: StageCovers(db, db.requests[r])
  }

  predicate OneUnusedNonce(db: DB) {
    forall m, n | m in db.nonces && n in db.nonces && db.nonces[m].wallet == db.nonces[n].wallet
                  && !db.nonces[m].used && !db.nonces[n].used :: m == n
  }

  /** A spent credential is never spent again: its row is used, revoked or gone. */
  predicate SpentOnce(db: DB) {
    && (forall j | j in db.issued && db.issued[j].nonce.Some? ::
          var n := db.issued[j].nonce.value; n < db.next && (n in db.nonces ==> db.nonces[n].used))
    && (forall j | j in db.issued && db.issued[j].parent.Some? ::
          var p := db.issued[j].parent.value; p < db.next && (p in db.tokens ==> db.tokens[p].revoked))
    && (forall j, k | j in db.issued && k in db.issued && j != k ::
          && (db.issued[j].nonce.Some? ==> db.issued[j].nonce != db.issued[k].nonce)
          && (db.issued[j].parent.Some? ==> db.issued[j].parent != db.issued[k].parent))
  }

  /** What holds whatever the lifetimes are. */
  predicate Sane(db: DB, ttl: nat) {
    IdsUsed(db) && OneUnrevoked(db) && RowsMatchIssues(db, ttl) && OneUnusedNonce(db) && SpentOnce(db) && StagesDead(db)
  }

  // ---------------------------------------------------------------- minting a pair

  predicate Unspent(db: DB, parent: Option<nat>, nonce: Option<nat>) {
    && (parent.Some? ==> parent.value < db.next && (parent.value in db.tokens ==> db.tokens[parent.value].revoked))
    && (nonce.Some? ==> nonce.value < db.next && (nonce.value in db.nonces ==> db.nonces[nonce.value].used))
    && forall j | j in db.issued ::
         (parent.Some? ==> db.issued[j].parent != parent) && (nonce.Some? ==> db.issued[j].nonce != nonce)
  }

  lemma PairIdsUsed(db: DB, session: nat, family: nat, ttl: nat, parent: Option<nat>, nonce: Option<nat>)
    requires IdsUsed(db) && session < db.next && family < db.next
    ensures IdsUsed(PairIssued(db, session, family, ttl, parent, nonce))
  {
  }

  lemma PairOneUnrevoked(db: DB, session: nat, family: nat, ttl: nat, parent: Option<nat>, nonce: Option<nat>)
    requires OneUnrevoked(db) && Dead(db, family)
    ensures OneUnrevoked(PairIssued(db, session, family, ttl, parent, nonce))
  {
  }

  lemma PairRowsMatch(db: DB, session: nat, family: nat, ttl: nat, parent: Option<nat>, nonce: Option<nat>)
    requires IdsUsed(db) && RowsMatchIssues(db, ttl)
    ensures RowsMatchIssues(PairIssued(db, session, family, ttl, parent, nonce), ttl)
  {
  }

  lemma PairSpentOnce(db: DB, session: nat, family: nat, ttl: nat, parent: Option<nat>, nonce: Option<nat>)
    requires SpentOnce(db) && Unspent(db, parent, nonce)
    ensures SpentOnce(PairIssued(db, session, family, ttl, parent, nonce))
  {
  }

  // ---------------------------------------------------------------- steps that mint nothing

  /** Rows only disappear or are marked; time only passes. */
  predicate Shrinks(db: DB, t: DB) {
    && t.next == db.next && t.issued == db.issued && db.now <= t.now
    && (forall i | i in t.tokens ::
          i in db.tokens && t.tokens[i] == db.tokens[i].(revoked := t.tokens[i].revoked)
          && (db.tokens[i].revoked ==> t.tokens[i].revoked))
    && (forall j | j in t.jtis ::
          j in db.jtis && t.jtis[j] == db.jtis[j].(revoked := t.jtis[j].revoked)
          && (db.jtis[j].revoked ==> t.jtis[j].revoked))
    && (forall n | n in t.nonces ::
          n in db.nonces && t.nonces[n] == db.nonces[n].(used := t.nonces[n].used) && (db.nonces[n].used ==> t.nonces[n].used))
    && (forall s | s in t.sessions :: s in db.sessions)
  }

  predicate SaneRows(db: DB, ttl: nat) {
    IdsUsed(db) && OneUnrevoked(db) && RowsMatchIssues(db, ttl) && OneUnusedNonce(db) && SpentOnce(db)
  }

  lemma ShrinksSane(db: DB, t: DB, ttl: nat)
    requires SaneRows(db, ttl) && Shrinks(db, t)
    ensures SaneRows(t, ttl)
  {
    hide IdsUsed, OneUnrevoked, RowsMatchIssues, OneUnusedNonce, SpentOnce, Shrinks;
    ShrinksIds(db, t);
    ShrinksUnrevoked(db, t);
    ShrinksRows(db, t, ttl);
    ShrinksNonces(db, t);
    ShrinksSpent(db, t);
  }

  lemma ShrinksIds(db: DB, t: DB)
    requires IdsUsed(db) && Shrinks(db, t)
    ensures IdsUsed(t)
  {
  }

  lemma ShrinksUnrevoked(db: DB, t: DB)
    requires OneUnrevoked(db) && Shrinks(db, t)
    ensures OneUnrevoked(t)
  {
  }

  lemma ShrinksRows(db: DB, t: DB, ttl: nat)
    requires RowsMatchIssues(db, ttl) && Shrinks(db, t)
    ensures RowsMatchIssues(t, ttl)
  {
  }

  lemma ShrinksNonces(db: DB, t: DB)
    requires OneUnusedNonce(db) && Shrinks(db, t)
    ensures OneUnusedNonce(t)
  {
  }

  lemma ShrinksSpent(db: DB, t: DB)
    requires SpentOnce(db) && Shrinks(db, t)
    ensures SpentOnce(t)
  {
  }

  /** Token rows come from before, up to revocation, or are new and belong to one family. */
  predicate RowsFrom(db: DB, t: DB, minted: nat) {
    && db.next <= t.next
    && (forall i | i in t.tokens && i < db.next ::
          i in db.tokens && t.tokens[i] == db.tokens[i].(revoked := t.tokens[i].revoked)
          && (db.tokens[i].revoked ==> t.tokens[i].revoked))
    && (forall i | i in t.tokens && i >= db.next :: t.tokens[i].family == minted)
  }

  /** A dead family stays dead as long as nothing is minted in it, and that is never the case. */
  lemma StageDeadKept(db: DB, t: DB, minted: nat, stage: Stage)
    requires StageDead(db, stage) && RowsFrom(db, t, minted) && !Dead(db, minted)
    ensures StageDead(t, stage)
  {
  }

  lemma ShrinksRowsFrom(db: DB, t: DB)
    requires Shrinks(db, t) && IdsUsed(db)
    ensures RowsFrom(db, t, db.next) && !Dead(db, db.next)
  {
  }

  /** A step that mints nothing and moves at most one request, to a stage that holds. */
  lemma QuietStep(db: DB, t: DB, ttl: nat, moved: Option<nat>)
    requires Sane(db, ttl) && Shrinks(db, t)
    requires forall r | r in t.requests && moved != Some(r) :: r in db.requests && t.requests[r] == db.requests[r]
    requires moved.Some? && moved.value in t.requests ==> StageDead(t, t.requests[moved.value])
    ensures Sane(t, ttl)
  {
    hide Shrinks, StageDead, RowsFrom, Dead;
    ShrinksSane(db, t, ttl);
    ShrinksRowsFrom(db, t);
    forall r | r in t.requests
      ensures StageDead(t, t.requests[r])
    {
      if moved != Some(r) {
        StageDeadKept(db, t, db.next, t.requests[r]);
      }
    }
  }

  // ---------------------------------------------------------------- every action keeps the rows sane

  lemma NonceIssuedSane(db: DB, wallet: nat, ttl: nat)
    requires SaneRows(db, ttl)
    ensures SaneRows(NonceIssued(db, wallet), ttl)
  {
    hide IdsUsed, OneUnrevoked, RowsMatchIssues, OneUnusedNonce, SpentOnce;
    NonceIdsUsed(db, wallet);
    NonceRetiresOthers(db, wallet);
    NonceSpentOnce(db, wallet);
    NonceKeepsTokens(db, wallet, ttl);
  }

  lemma NonceIdsUsed(db: DB, wallet: nat)
    requires IdsUsed(db)
    ensures IdsUsed(NonceIssued(db, wallet))
  {
  }

  /** The old nonces of the wallet are used before the new one exists. */
  lemma NonceRetiresOthers(db: DB, wallet: nat)
    requires OneUnusedNonce(db)
    ensures OneUnusedNonce(NonceIssued(db, wallet))
  {
  }

  lemma NonceSpentOnce(db: DB, wallet: nat)
    requires SpentOnce(db)
    ensures SpentOnce(NonceIssued(db, wallet))
  {
  }

  lemma NonceKeepsTokens(db: DB, wallet: nat, ttl: nat)
    requires OneUnrevoked(db) && RowsMatchIssues(db, ttl)
    ensures OneUnrevoked(NonceIssued(db, wallet)) && RowsMatchIssues(NonceIssued(db, wallet), ttl)
  {
    hide OneUnrevoked, RowsMatchIssues, NonceIssued;
    NonceIssuedForm(db, wallet);
    OtherNonces(db, NonceIssued(db, wallet).nonces, db.next + 1, ttl);
  }

  lemma NonceIssuedForm(db: DB, wallet: nat)
    ensures NonceIssued(db, wallet) == db.(nonces := NonceIssued(db, wallet).nonces, next := db.next + 1)
  {
  }

  lemma OtherNonces(db: DB, nonces: map<nat, Nonce>, next: nat, ttl: nat)
    ensures var t := db.(nonces := nonces, next := next);
      OneUnrevoked(t) == OneUnrevoked(db) && RowsMatchIssues(t, ttl) == RowsMatchIssues(db, ttl)
  {
  }

  lemma PairIssuedSane(db: DB, session: nat, family: nat, ttl: nat, parent: Option<nat>, nonce: Option<nat>)
    requires SaneRows(db, ttl) && session < db.next && Dead(db, family) && Unspent(db, parent, nonce)
    ensures SaneRows(PairIssued(db, session, family, ttl, parent, nonce), ttl)
  {
    hide IdsUsed, OneUnrevoked, RowsMatchIssues, SpentOnce, Unspent;
    PairIdsUsed(db, session, family, ttl, parent, nonce);
    PairOneUnrevoked(db, session, family, ttl, parent, nonce);
    PairRowsMatch(db, session, family, ttl, parent, nonce);
    PairSpentOnce(db, session, family, ttl, parent, nonce);
  }

  /** After the nonce is claimed and two ids are drawn, the new session and family are unused. */
  lemma LoginStage(db: DB, wallet: nat, nonce: nat, ttl: nat)
    requires SaneRows(db, ttl) && NonceClaimable(db, wallet, nonce)
    ensures var claimed := db.(nonces := db.nonces[nonce := db.nonces[nonce].(used := true)], next := db.next + 2);
      SaneRows(claimed, ttl) && Dead(claimed, db.next + 1) && Unspent(claimed, None, Some(nonce))
  {
    hide OneUnrevoked, RowsMatchIssues, OneUnusedNonce;
    var used := db.(nonces := db.nonces[nonce := db.nonces[nonce].(used := true)]);
    ShrinksSane(db, used, ttl);
    DrawIds(used, ttl);
  }

  /** Two ids drawn and not yet used. */
  lemma DrawIds(db: DB, ttl: nat)
    requires SaneRows(db, ttl)
    ensures var t := db.(next := db.next + 2);
      SaneRows(t, ttl) && Dead(t, db.next + 1) && t.now == db.now
  {
    hide IdsUsed, OneUnrevoked, RowsMatchIssues, OneUnusedNonce, SpentOnce;
    DrawIdsUsed(db);
    DrawIdsRows(db, ttl);
    DrawIdsSpent(db);
  }

  lemma DrawIdsUsed(db: DB)
    requires IdsUsed(db)
    ensures IdsUsed(db.(next := db.next + 2)) && Dead(db.(next := db.next + 2), db.next + 1)
  {
  }

  lemma DrawIdsRows(db: DB, ttl: nat)
    requires OneUnrevoked(db) && RowsMatchIssues(db, ttl) && OneUnusedNonce(db)
    ensures var t := db.(next := db.next + 2);
      OneUnrevoked(t) && RowsMatchIssues(t, ttl) && OneUnusedNonce(t)
  {
    hide IdsUsed, SpentOnce;
  }

  lemma DrawIdsSpent(db: DB)
    requires SpentOnce(db)
    ensures SpentOnce(db.(next := db.next + 2))
  {
  }

  lemma LoggedInSane(db: DB, wallet: nat, nonce: nat, ttl: nat)
    requires Sane(db, ttl)
    ensures Sane(LoggedIn(db, wallet, nonce, ttl), ttl)
  {
    hide IdsUsed, OneUnrevoked, RowsMatchIssues, SpentOnce, OneUnusedNonce, Unspent, Dead, RowsFrom, StageDead;
    if NonceClaimable(db, wallet, nonce) {
      LoginStage(db, wallet, nonce, ttl);
      var claimed := db.(nonces := db.nonces[nonce := db.nonces[nonce].(used := true)], next := db.next + 2);
      PairIssuedSane(claimed, db.next, db.next + 1, ttl, None, Some(nonce));
      LoginRows(db, wallet, nonce, ttl);
      var t := LoggedIn(db, wallet, nonce, ttl);
      forall r | r in t.requests
        ensures StageDead(t, t.requests[r])
      {
        StageDeadKept(db, t, db.next + 1, t.requests[r]);
      }
    }
  }

  lemma LoginRows(db: DB, wallet: nat, nonce: nat, ttl: nat)
    requires IdsUsed(db) && NonceClaimable(db, wallet, nonce)
    ensures var t := LoggedIn(db, wallet, nonce, ttl);
      RowsFrom(db, t, db.next + 1) && !Dead(db, db.next + 1) && t.requests == db.requests
  {
  }

  /** Claiming the family's one unrevoked token leaves the family without any. */
  lemma RotationStage(db: DB, token: nat, ttl: nat)
    requires SaneRows(db, ttl) && token in db.tokens && !db.tokens[token].revoked
    ensures var claimed := db.(tokens := db.tokens[token := db.tokens[token].(revoked := true)]);
      SaneRows(claimed, ttl) && Dead(claimed, db.tokens[token].family) && Unspent(claimed, Some(token), None)
  {
    var claimed := db.(tokens := db.tokens[token := db.tokens[token].(revoked := true)]);
    ShrinksSane(db, claimed, ttl);
  }

  lemma RotationRows(db: DB, request: nat, token: nat, row: RefreshToken, ttl: nat)
    requires IdsUsed(db) && StageDead(db, Found(token, row))
    requires token in db.tokens && !db.tokens[token].revoked && row.session in db.sessions
    ensures var t := RotationTried(db, request, token, row, ttl);
      RowsFrom(db, t, row.family) && !Dead(db, row.family) && t.requests == db.requests[request := Rotated]
  {
  }

  /** Every outcome of a rotation attempt is a stage that holds. */
  lemma RefusedOrReused(db: DB, request: nat, token: nat, row: RefreshToken, ttl: nat)
    requires StageDead(db, Found(token, row))
    ensures var t := RotationTried(db, request, token, row, ttl);
      request in t.requests && StageDead(t, t.requests[request])
  {
  }

  lemma RotationSane(db: DB, request: nat, token: nat, row: RefreshToken, ttl: nat)
    requires Sane(db, ttl) && StageDead(db, Found(token, row))
    ensures Sane(RotationTried(db, request, token, row, ttl), ttl)
  {
    hide IdsUsed, OneUnrevoked, RowsMatchIssues, SpentOnce, OneUnusedNonce, Unspent, Dead, RowsFrom, Shrinks;
    assert token in db.tokens ==> db.tokens[token].family == row.family;
    hide StageDead;
    RefusedOrReused(db, request, token, row, ttl);
    var t := RotationTried(db, request, token, row, ttl);
    if token in db.tokens && !db.tokens[token].revoked && row.session in db.sessions {
      RotationStage(db, token, ttl);
      var claimed := db.(tokens := db.tokens[token := db.tokens[token].(revoked := true)]);
      PairIssuedSane(claimed, row.session, row.family, ttl, Some(token), None);
      RequestsApart(PairIssued(claimed, row.session, row.family, ttl, Some(token), None), t, ttl);
      RotationRows(db, request, token, row, ttl);
      forall r | r in t.requests
        ensures StageDead(t, t.requests[r])
      {
        if r != request {
          StageDeadKept(db, t, row.family, t.requests[r]);
        }
      }
    } else {
      OnlyRequests(db, t);
      QuietStep(db, t, ttl, Some(request));
    }
  }

  /** Requests are not rows. */
  lemma RequestsApart(db: DB, t: DB, ttl: nat)
    requires SaneRows(db, ttl) && t == db.(requests := t.requests)
    ensures SaneRows(t, ttl)
  {
    hide SaneRows, Shrinks;
    OnlyRequests(db, t);
    ShrinksSane(db, t, ttl);
  }

  lemma OnlyRequests(db: DB, t: DB)
    requires t == db.(requests := t.requests)
    ensures Shrinks(db, t)
  {
  }

  lemma FamilyRevokedShrinks(db: DB, family: nat)
    ensures Shrinks(db, FamilyRevoked(db, family))
    ensures family < db.next ==> Dead(FamilyRevoked(db, family), family)
  {
  }

  lemma JtisRevokedShrinks(db: DB, found: set<nat>)
    ensures Shrinks(db, JtisRevoked(db, found))
    ensures forall j | j in found :: !Live(JtisRevoked(db, found), j)
  {
  }

  lemma ShrinksThenRequests(db: DB, t: DB, u: DB)
    requires Shrinks(db, t) && u == t.(requests := u.requests)
    ensures Shrinks(db, u)
  {
  }

  /** A family that is dead stays so whatever happens to requests and jtis. */
  lemma DeadByTokens(db: DB, t: DB, family: nat)
    requires Dead(db, family) && t.tokens == db.tokens && t.next == db.next
    ensures Dead(t, family)
  {
  }

  /** A step of a request other than the rotation marks rows at most. */
  lemma AdvancedQuietly(db: DB, request: nat, ttl: nat)
    requires IdsUsed(db) && request in db.requests && !db.requests[request].Found? && StageDead(db, db.requests[request])
    ensures var t := Advanced(db, request, ttl);
      && Shrinks(db, t) && request in t.requests && StageDead(t, t.requests[request])
      && t.requests == db.requests[request := t.requests[request]]
  {
    hide Shrinks, Dead, FamilyRevoked, JtisRevoked, FamilyJtis, Advanced, IdsUsed;
    match db.requests[request] {
      case Arrived(token) => LookUpQuietly(db, request, token, ttl);
      case RevokingFamily(family) => RevokeQuietly(db, request, family, ttl);
      case FindingJtis(family) => FindQuietly(db, request, family, ttl);
      case RevokingJtis(family, found) => RevokeJtisQuietly(db, request, family, found, ttl);
      case _ => EndQuietly(db, request, ttl);
    }
  }

  lemma LookUpQuietly(db: DB, request: nat, token: nat, ttl: nat)
    requires IdsUsed(db) && request in db.requests && db.requests[request] == Arrived(token)
    ensures var t := Advanced(db, request, ttl);
      && Shrinks(db, t) && request in t.requests && StageDead(t, t.requests[request])
      && t.requests == db.requests[request := t.requests[request]]
  {
    hide Shrinks, Dead;
    OnlyRequests(db, Advanced(db, request, ttl));
  }

  lemma RevokeQuietly(db: DB, request: nat, family: nat, ttl: nat)
    requires request in db.requests && db.requests[request] == RevokingFamily(family) && family < db.next
    ensures var t := Advanced(db, request, ttl);
      && Shrinks(db, t) && Dead(t, family) && t.requests == db.requests[request := FindingJtis(family)]
  {
    hide Shrinks, Dead, FamilyRevoked;
    FamilyRevokedShrinks(db, family);
    RevocationKeepsRequests(db, family, {});
    ShrinksThenRequests(db, FamilyRevoked(db, family), Advanced(db, request, ttl));
    DeadByTokens(FamilyRevoked(db, family), Advanced(db, request, ttl), family);
  }

  lemma FindQuietly(db: DB, request: nat, family: nat, ttl: nat)
    requires request in db.requests && db.requests[request] == FindingJtis(family) && Dead(db, family)
    ensures var t := Advanced(db, request, ttl);
      && Shrinks(db, t) && Dead(t, family)
      && t.requests == db.requests[request := RevokingJtis(family, FamilyJtis(db, family))]
  {
    hide Shrinks, Dead, FamilyJtis;
    OnlyRequests(db, Advanced(db, request, ttl));
    DeadByTokens(db, Advanced(db, request, ttl), family);
  }

  lemma RevokeJtisQuietly(db: DB, request: nat, family: nat, found: set<nat>, ttl: nat)
    requires request in db.requests && db.requests[request] == RevokingJtis(family, found) && Dead(db, family)
    ensures var t := Advanced(db, request, ttl);
      && Shrinks(db, t) && Dead(t, family) && t.requests == db.requests[request := ReuseAnswered(family)]
  {
    hide Shrinks, Dead, JtisRevoked;
    JtisRevokedShrinks(db, found);
    RevocationKeepsRequests(db, family, found);
    ShrinksThenRequests(db, JtisRevoked(db, found), Advanced(db, request, ttl));
    DeadByTokens(db, Advanced(db, request, ttl), family);
  }

  lemma EndQuietly(db: DB, request: nat, ttl: nat)
    requires request in db.requests && StageDead(db, db.requests[request])
    requires db.requests[request].ReuseAnswered? || db.requests[request].Refused? || db.requests[request].Rotated?
    ensures Advanced(db, request, ttl) == db && Shrinks(db, db)
  {
    hide Shrinks;
    OnlyRequests(db, db);
  }

  lemma RevocationKeepsRequests(db: DB, family: nat, found: set<nat>)
    ensures FamilyRevoked(db, family).requests == db.requests
    ensures var t := JtisRevoked(db, found);
      t.requests == db.requests && t.tokens == db.tokens && t.next == db.next
  {
  }

  lemma AdvancedSane(db: DB, request: nat, ttl: nat)
    requires Sane(db, ttl)
    ensures Sane(Advanced(db, request, ttl), ttl)
  {
    hide IdsUsed, OneUnrevoked, RowsMatchIssues, SpentOnce, OneUnusedNonce, StageDead, Shrinks, RotationTried;
    if request in db.requests {
      assert StageDead(db, db.requests[request]);
      match db.requests[request] {
        case Found(token, row) => RotationSane(db, request, token, row, ttl);
        case _ =>
          AdvancedQuietly(db, request, ttl);
          QuietStep(db, Advanced(db, request, ttl), ttl, Some(request));
      }
    }
  }

  /** The actions that are neither logins, nor nonces, nor steps of a request. */
  lemma HousekeepingShrinks(db: DB, action: Action, ttl: nat)
    requires action.BurnNonce? || action.RevokeSessions? || action.CleanTokens? || action.CleanJtis? || action.Tick?
    ensures Shrinks(db, Next(db, action, ttl)) && Next(db, action, ttl).requests == db.requests
  {
    hide Shrinks, SessionsRevoked;
    OnlyRequests(db, db);
    match action {
      case RevokeSessions(gone) => SessionsRevokedShrink(db, gone);
      case CleanTokens(_) => CleaningShrinks(db, action, ttl);
      case CleanJtis(_) => CleaningShrinks(db, action, ttl);
      case _ => TickOrBurnShrinks(db, action, ttl);
    }
  }

  lemma SessionsRevokedShrink(db: DB, gone: set<nat>)
    ensures Shrinks(db, SessionsRevoked(db, gone)) && SessionsRevoked(db, gone).requests == db.requests
  {
  }

  lemma CleaningShrinks(db: DB, action: Action, ttl: nat)
    requires action.CleanTokens? || action.CleanJtis?
    ensures Shrinks(db, Next(db, action, ttl))
  {
  }

  lemma TickOrBurnShrinks(db: DB, action: Action, ttl: nat)
    requires action.BurnNonce? || action.Tick?
    ensures Shrinks(db, Next(db, action, ttl))
  {
  }

  lemma NonceRows(db: DB, wallet: nat)
    requires IdsUsed(db)
    ensures var t := NonceIssued(db, wallet);
      RowsFrom(db, t, db.next) && !Dead(db, db.next) && t.requests == db.requests
  {
  }

  lemma NextSane(db: DB, action: Action, ttl: nat)
    requires Sane(db, ttl)
    ensures Sane(Next(db, action, ttl), ttl)
  {
    hide IdsUsed, OneUnrevoked, RowsMatchIssues, SpentOnce, OneUnusedNonce, Shrinks, StageDead, Advanced, LoggedIn;
    hide NonceIssued, RowsFrom, Dead, SessionsRevoked;
    var t := Next(db, action, ttl);
    match action {
      case GenerateNonce(wallet) =>
        NonceIssuedSane(db, wallet, ttl);
        NonceRows(db, wallet);
        forall r | r in t.requests
          ensures StageDead(t, t.requests[r])
        {
          StageDeadKept(db, t, db.next, t.requests[r]);
        }
      case VerifyWallet(wallet, nonce) => LoggedInSane(db, wallet, nonce, ttl);
      case Arrive(request, token) =>
        OnlyRequests(db, t);
        ArrivedHolds(t, token);
        if request !in db.requests {
          QuietStep(db, t, ttl, Some(request));
        }
      case Advance(request) => AdvancedSane(db, request, ttl);
      case _ =>
        HousekeepingShrinks(db, action, ttl);
        QuietStep(db, t, ttl, None);
    }
  }

  lemma ArrivedHolds(db: DB, token: nat)
    ensures StageDead(db, Arrived(token))
  {
  }

  lemma {:induction false} EveryRunSane(actions: seq<Action>, ttl: nat)
    ensures Sane(Run(EMPTY, actions, ttl), ttl)
  {
    hide Next;
    if |actions| == 0 {
      assert SaneRows(EMPTY, ttl);
    } else {
      EveryRunSane(actions[..|actions| - 1], ttl);
      NextSane(Run(EMPTY, actions[..|actions| - 1], ttl), actions[|actions| - 1], ttl);
    }
  }

  // ---------------------------------------------------------------- live access tokens can be found

  /** Nothing that was not live becomes live. */
  lemma LiveShrinks(db: DB, t: DB, j: nat)
    requires Shrinks(db, t) && Live(t, j)
    ensures Live(db, j)
  {
  }

  predicate KeepsRows(db: DB, t: DB) {
    forall i | i in db.tokens :: i in t.tokens && t.tokens[i].jti == db.tokens[i].jti
  }

  lemma HasRowKept(db: DB, t: DB)
    requires LiveHasRow(db) && Shrinks(db, t) && KeepsRows(db, t)
    ensures LiveHasRow(t)
  {
    forall j | j in t.jtis && Live(t, j)
      ensures HasRow(t, j)
    {
      LiveShrinks(db, t, j);
      var i :| i in db.tokens && db.tokens[i].jti == j;
      assert t.tokens[i].jti == j;
    }
  }

  /**
   * Cleanup drops a refresh-token row only once its access token has expired too; this is where the
   * access lifetime must not exceed the refresh lifetime by more than the strictness of the comparison.
   */
  lemma CleanTokensKeepsLive(db: DB, cutoff: nat, ttl: nat)
    requires Sane(db, ttl) && LiveHasRow(db) && ttl <= REFRESH_TTL + 1
    ensures LiveHasRow(Next(db, CleanTokens(cutoff), ttl))
  {
    var t := Next(db, CleanTokens(cutoff), ttl);
    forall j | j in t.jtis && Live(t, j)
      ensures HasRow(t, j)
    {
      assert Live(db, j);
      var i :| i in db.tokens && db.tokens[i].jti == j;
      assert db.jtis[j].expiresAt == db.issued[j].at + ttl;
      assert db.tokens[i].expiresAt == db.issued[j].at + REFRESH_TTL;
      assert t.tokens[i].jti == j;
    }
  }

  lemma SessionsRevokedKeepsLive(db: DB, gone: set<nat>, ttl: nat)
    requires Sane(db, ttl) && LiveHasRow(db)
    ensures LiveHasRow(SessionsRevoked(db, gone))
  {
    var t := SessionsRevoked(db, gone);
    forall j | j in t.jtis && Live(t, j)
      ensures HasRow(t, j)
    {
      assert Live(db, j);
      var i :| i in db.tokens && db.tokens[i].jti == j;
      assert db.jtis[j].session == db.tokens[i].session;
      assert t.tokens[i].jti == j;
    }
  }

  lemma PairKeepsLive(db: DB, session: nat, family: nat, ttl: nat, parent: Option<nat>, nonce: Option<nat>)
    requires IdsUsed(db) && LiveHasRow(db)
    ensures LiveHasRow(PairIssued(db, session, family, ttl, parent, nonce))
  {
    var t := PairIssued(db, session, family, ttl, parent, nonce);
    forall j | j in t.jtis && Live(t, j)
      ensures HasRow(t, j)
    {
      if j == db.next {
        assert t.tokens[db.next + 1].jti == j;
      } else {
        assert Live(db, j);
        var i :| i in db.tokens && db.tokens[i].jti == j;
        assert t.tokens[i].jti == j;
      }
    }
  }

  lemma SameRowsKeepLive(db: DB, t: DB)
    requires LiveHasRow(db) && t.tokens == db.tokens && t.jtis == db.jtis && t.now == db.now
    ensures LiveHasRow(t)
  {
    forall j | j in t.jtis && Live(t, j)
      ensures HasRow(t, j)
    {
      assert Live(db, j);
      var i :| i in db.tokens && db.tokens[i].jti == j;
      assert t.tokens[i].jti == j;
    }
  }

  lemma RotationKeepsLive(db: DB, request: nat, token: nat, row: RefreshToken, ttl: nat)
    requires IdsUsed(db) && LiveHasRow(db)
    ensures LiveHasRow(RotationTried(db, request, token, row, ttl))
  {
    hide IdsUsed, LiveHasRow, Shrinks, KeepsRows;
    var t := RotationTried(db, request, token, row, ttl);
    if token in db.tokens && !db.tokens[token].revoked && row.session in db.sessions {
      var claimed := db.(tokens := db.tokens[token := db.tokens[token].(revoked := true)]);
      ClaimShrinks(db, token);
      ShrinksIds(db, claimed);
      HasRowKept(db, claimed);
      PairKeepsLive(claimed, row.session, row.family, ttl, Some(token), None);
      SameRowsKeepLive(PairIssued(claimed, row.session, row.family, ttl, Some(token), None), t);
    } else {
      SameRowsKeepLive(db, t);
    }
  }

  lemma ClaimShrinks(db: DB, token: nat)
    requires token in db.tokens
    ensures var t := db.(tokens := db.tokens[token := db.tokens[token].(revoked := true)]);
      Shrinks(db, t) && KeepsRows(db, t)
  {
  }

  lemma AdvancedKeepsLive(db: DB, request: nat, ttl: nat)
    requires Sane(db, ttl) && LiveHasRow(db)
    ensures LiveHasRow(Advanced(db, request, ttl))
  {
    hide IdsUsed, OneUnrevoked, RowsMatchIssues, SpentOnce, OneUnusedNonce, LiveHasRow, Shrinks, StageDead, RotationTried;
    var t := Advanced(db, request, ttl);
    if request in db.requests {
      assert StageDead(db, db.requests[request]);
      match db.requests[request] {
        case Found(token, row) => RotationKeepsLive(db, request, token, row, ttl);
        case _ =>
          AdvancedQuietly(db, request, ttl);
          AdvancedKeepsRows(db, request, ttl);
          HasRowKept(db, t);
      }
    }
  }

  lemma AdvancedKeepsRows(db: DB, request: nat, ttl: nat)
    requires request in db.requests && !db.requests[request].Found?
    ensures KeepsRows(db, Advanced(db, request, ttl))
  {
  }

  lemma NextKeepsLive(db: DB, action: Action, ttl: nat)
    requires Sane(db, ttl) && LiveHasRow(db) && ttl <= REFRESH_TTL + 1
    ensures LiveHasRow(Next(db, action, ttl))
  {
    hide OneUnrevoked, RowsMatchIssues, SpentOnce, OneUnusedNonce, Shrinks, StageDead, Advanced, LiveHasRow, SessionsRevoked;
    var t := Next(db, action, ttl);
    match action {
      case VerifyWallet(wallet, nonce) =>
        if NonceClaimable(db, wallet, nonce) {
          var claimed := db.(nonces := db.nonces[nonce := db.nonces[nonce].(used := true)], next := db.next + 2);
          SameRowsKeepLive(db, claimed);
          PairKeepsLive(claimed, db.next, db.next + 1, ttl, None, Some(nonce));
        }
      case Advance(request) => AdvancedKeepsLive(db, request, ttl);
      case RevokeSessions(gone) => SessionsRevokedKeepsLive(db, gone, ttl);
      case CleanTokens(cutoff) => CleanTokensKeepsLive(db, cutoff, ttl);
      case CleanJtis(_) =>
        CleaningShrinks(db, action, ttl);
        HasRowKept(db, t);
      case Tick(_) =>
        TickOrBurnShrinks(db, action, ttl);
        HasRowKept(db, t);
      case _ => SameRowsKeepLive(db, t);
    }
  }

  // ---------------------------------------------------------------- what a reuse response has covered

  /** Every access token is an old one, live only if it was, or was minted just now in one family. */
  predicate IssuesFrom(db: DB, t: DB, minted: nat) {
    forall j | j in t.issued ::
      (j in db.issued && t.issued[j] == db.issued[j] && (Live(t, j) ==> Live(db, j))) || t.issued[j].family == minted
  }

  lemma StageCoversKept(db: DB, t: DB, minted: nat, stage: Stage)
    requires StageDead(db, stage) && StageCovers(db, stage) && IssuesFrom(db, t, minted) && !Dead(db, minted)
    ensures StageCovers(t, stage)
  {
  }

  lemma ShrinksIssuesFrom(db: DB, t: DB)
    requires Shrinks(db, t) && IdsUsed(db)
    ensures IssuesFrom(db, t, db.next) && !Dead(db, db.next)
  {
  }

  lemma PairIssuesFrom(db: DB, session: nat, family: nat, ttl: nat, parent: Option<nat>, nonce: Option<nat>)
    requires IdsUsed(db)
    ensures IssuesFrom(db, PairIssued(db, session, family, ttl, parent, nonce), family)
  {
  }

  lemma LoginIssuesFrom(db: DB, wallet: nat, nonce: nat, ttl: nat)
    requires IdsUsed(db) && NonceClaimable(db, wallet, nonce)
    ensures IssuesFrom(db, LoggedIn(db, wallet, nonce, ttl), db.next + 1)
  {
    var claimed := db.(nonces := db.nonces[nonce := db.nonces[nonce].(used := true)], next := db.next + 2);
    PairIssuesFrom(claimed, db.next, db.next + 1, ttl, None, Some(nonce));
  }

  lemma RotationIssuesFrom(db: DB, request: nat, token: nat, row: RefreshToken, ttl: nat)
    requires IdsUsed(db)
    ensures IssuesFrom(db, RotationTried(db, request, token, row, ttl), row.family)
  {
    if token in db.tokens && !db.tokens[token].revoked && row.session in db.sessions {
      var claimed := db.(tokens := db.tokens[token := db.tokens[token].(revoked := true)]);
      PairIssuesFrom(claimed, row.session, row.family, ttl, Some(token), None);
    }
  }

  /** The jtis that a response finds are all that are live in its family. */
  lemma FoundJtisCover(db: DB, family: nat, ttl: nat)
    requires Sane(db, ttl) && LiveHasRow(db)
    ensures FamilyLiveWithin(db, family, FamilyJtis(db, family))
  {
    forall j | j in db.issued && db.issued[j].family == family && Live(db, j)
      ensures j in FamilyJtis(db, family)
    {
      var i :| i in db.tokens && db.tokens[i].jti == j;
      assert db.tokens[i].family == family;
    }
  }

  lemma RevokedJtisCover(db: DB, family: nat, found: set<nat>)
    requires FamilyLiveWithin(db, family, found)
    ensures FamilyLiveWithin(JtisRevoked(db, found), family, {})
  {
    var t := JtisRevoked(db, found);
    assert forall j :: Live(t, j) ==> Live(db, j) && j !in found;
  }

  lemma CoverByRows(db: DB, t: DB, family: nat, found: set<nat>)
    requires FamilyLiveWithin(db, family, found) && t.jtis == db.jtis && t.issued == db.issued && t.now == db.now
    ensures FamilyLiveWithin(t, family, found)
  {
    assert forall j :: Live(t, j) == Live(db, j);
  }

  lemma RotationCovers(db: DB, request: nat, token: nat, row: RefreshToken, ttl: nat)
    ensures var t := RotationTried(db, request, token, row, ttl);
      request in t.requests && StageCovers(t, t.requests[request])
  {
  }

  /** The stage a request moves to covers its family. */
  lemma AdvancedCovers(db: DB, request: nat, ttl: nat)
    requires Sane(db, ttl) && LiveHasRow(db) && request in db.requests && StageCovers(db, db.requests[request])
    ensures request in Advanced(db, request, ttl).requests
    ensures StageCovers(Advanced(db, request, ttl), Advanced(db, request, ttl).requests[request])
  {
    hide LiveHasRow, FamilyLiveWithin, FamilyJtis, JtisRevoked, FamilyRevoked, RotationTried, SaneRows, StageDead;
    match db.requests[request] {
      case Found(token, row) => RotationCovers(db, request, token, row, ttl);
      case FindingJtis(family) => FindCovers(db, request, family, ttl);
      case RevokingJtis(family, found) => RevokeCovers(db, request, family, found, ttl);
      case _ =>
    }
  }

  lemma FindCovers(db: DB, request: nat, family: nat, ttl: nat)
    requires Sane(db, ttl) && LiveHasRow(db) && request in db.requests && db.requests[request] == FindingJtis(family)
    ensures var t := Advanced(db, request, ttl);
      t.requests[request] == RevokingJtis(family, FamilyJtis(db, family)) && FamilyLiveWithin(t, family, FamilyJtis(db, family))
  {
    hide Sane, LiveHasRow, FamilyLiveWithin, FamilyJtis;
    FoundJtisCover(db, family, ttl);
    CoverByRows(db, Advanced(db, request, ttl), family, FamilyJtis(db, family));
  }

  lemma RevokeCovers(db: DB, request: nat, family: nat, found: set<nat>, ttl: nat)
    requires request in db.requests && db.requests[request] == RevokingJtis(family, found)
    requires FamilyLiveWithin(db, family, found)
    ensures var t := Advanced(db, request, ttl);
      request in t.requests && t.requests[request] == ReuseAnswered(family) && FamilyLiveWithin(t, family, {})
  {
    hide FamilyLiveWithin, JtisRevoked;
    RevokedJtisCover(db, family, found);
    CoverByRows(JtisRevoked(db, found), Advanced(db, request, ttl), family, {});
  }

  /** The step's new request stage, if it has one. */
  function Moved(db: DB, action: Action): Option<nat> {
    match action
    case Arrive(request, _) => if request in db.requests then None else Some(request)
    case Advance(request) => if request in db.requests then Some(request) else None
    case _ => None
  }

  /** Every step leaves the other requests where they are and mints in at most one family that is not dead. */
  lemma NextFrame(db: DB, action: Action, ttl: nat) returns (minted: nat)
    requires Sane(db, ttl)
    ensures var t := Next(db, action, ttl);
      && IssuesFrom(db, t, minted) && RowsFrom(db, t, minted) && !Dead(db, minted)
      && (forall r | r in db.requests && Moved(db, action) != Some(r) :: r in t.requests && t.requests[r] == db.requests[r])
      && (forall r | r in t.requests && Moved(db, action) != Some(r) :: r in db.requests)
  {
    hide OneUnrevoked, RowsMatchIssues, SpentOnce, OneUnusedNonce, Shrinks, StageDead, IssuesFrom, RowsFrom, Dead;
    hide SessionsRevoked, FamilyRevoked, JtisRevoked, FamilyJtis, PairIssued;
    var t := Next(db, action, ttl);
    minted := db.next;
    OnlyRequests(db, db);
    match action {
      case GenerateNonce(wallet) =>
        NonceRows(db, wallet);
        NonceIssuesFrom(db, wallet);
      case VerifyWallet(wallet, nonce) =>
        if NonceClaimable(db, wallet, nonce) {
          minted := db.next + 1;
          LoginRows(db, wallet, nonce, ttl);
          LoginIssuesFrom(db, wallet, nonce, ttl);
        } else {
          ShrinksRowsFrom(db, t);
          ShrinksIssuesFrom(db, t);
        }
      case Arrive(request, token) =>
        OnlyRequests(db, t);
        ShrinksRowsFrom(db, t);
        ShrinksIssuesFrom(db, t);
      case Advance(request) =>
        minted := AdvancedFrame(db, request, ttl);
      case _ =>
        HousekeepingShrinks(db, action, ttl);
        ShrinksRowsFrom(db, t);
        ShrinksIssuesFrom(db, t);
    }
  }

  lemma NonceIssuesFrom(db: DB, wallet: nat)
    ensures IssuesFrom(db, NonceIssued(db, wallet), db.next)
  {
  }

  lemma AdvancedFrame(db: DB, request: nat, ttl: nat) returns (minted: nat)
    requires Sane(db, ttl)
    ensures var t := Advanced(db, request, ttl);
      && IssuesFrom(db, t, minted) && RowsFrom(db, t, minted) && !Dead(db, minted)
      && (request !in db.requests ==> t.requests == db.requests)
      && (request in db.requests ==> request in t.requests && t.requests == db.requests[request := t.requests[request]])
  {
    hide OneUnrevoked, RowsMatchIssues, SpentOnce, OneUnusedNonce, Shrinks, StageDead, IssuesFrom, RowsFrom, Dead;
    hide FamilyRevoked, JtisRevoked, FamilyJtis, PairIssued, IdsUsed;
    var t := Advanced(db, request, ttl);
    minted := db.next;
    if request !in db.requests {
      OnlyRequests(db, db);
      ShrinksRowsFrom(db, db);
      ShrinksIssuesFrom(db, db);
    } else {
      assert StageDead(db, db.requests[request]);
      match db.requests[request] {
        case Found(token, row) =>
          if token in db.tokens && !db.tokens[token].revoked && row.session in db.sessions {
            minted := row.family;
            RotationRows(db, request, token, row, ttl);
            RotationIssuesFrom(db, request, token, row, ttl);
          } else {
            OnlyRequests(db, t);
            ShrinksRowsFrom(db, t);
            ShrinksIssuesFrom(db, t);
          }
        case _ =>
          AdvancedQuietly(db, request, ttl);
          ShrinksRowsFrom(db, t);
          ShrinksIssuesFrom(db, t);
      }
    }
  }

  lemma NextCovers(db: DB, action: Action, ttl: nat)
    requires Sane(db, ttl) && LiveHasRow(db) && StagesCover(db)
    ensures StagesCover(Next(db, action, ttl))
  {
    hide SaneRows, LiveHasRow, StageDead, StageCovers, IssuesFrom, RowsFrom, Dead, Advanced, IdsUsed, OneUnrevoked;
    hide RowsMatchIssues, SpentOnce, OneUnusedNonce, SessionsRevoked, LoggedIn;
    var t := Next(db, action, ttl);
    var minted := NextFrame(db, action, ttl);
    forall r | r in t.requests
      ensures StageCovers(t, t.requests[r])
    {
      if Moved(db, action) == Some(r) {
        if action.Advance? {
          AdvancedCovers(db, r, ttl);
        } else {
          ArrivedCovers(t, action.token);
        }
      } else {
        assert StageDead(db, db.requests[r]);
        StageCoversKept(db, t, minted, t.requests[r]);
      }
    }
  }

  lemma ArrivedCovers(db: DB, token: nat)
    ensures StageCovers(db, Arrived(token))
  {
  }

  lemma {:induction false} EveryRunCovers(actions: seq<Action>, ttl: nat)
    requires ttl <= REFRESH_TTL + 1
    ensures LiveHasRow(Run(EMPTY, actions, ttl)) && StagesCover(Run(EMPTY, actions, ttl))
  {
    hide Next, Sane;
    if |actions| > 0 {
      var before := Run(EMPTY, actions[..|actions| - 1], ttl);
      EveryRunCovers(actions[..|actions| - 1], ttl);
      EveryRunSane(actions[..|actions| - 1], ttl);
      NextKeepsLive(before, actions[|actions| - 1], ttl);
      NextCovers(before, actions[|actions| - 1], ttl);
    }
  }

  // ---------------------------------------------------------------- results

  lemma RunAppend(db: DB, actions: seq<Action>, action: Action, ttl: nat)
    ensures Run(db, actions + [action], ttl) == Next(Run(db, actions, ttl), action, ttl)
  {
    assert (actions + [action])[..|actions|] == actions;
  }

  /**
   * In every interleaving: a family never has two unrevoked refresh tokens, a wallet never two usable
   * nonces, and no nonce or refresh token is ever exchanged for two token pairs.
   */
  lemma OneTokenOneExchange(actions: seq<Action>, ttl: nat)
    ensures var db := Run(EMPTY, actions, ttl);
      && (forall i, k | i in db.tokens && k in db.tokens && db.tokens[i].family == db.tokens[k].family
                        && !db.tokens[i].revoked && !db.tokens[k].revoked :: i == k)
      && (forall m, n | m in db.nonces && n in db.nonces && db.nonces[m].wallet == db.nonces[n].wallet
                        && !db.nonces[m].used && !db.nonces[n].used :: m == n)
      && (forall j, k | j in db.issued && k in db.issued && j != k ::
            && (db.issued[j].nonce.Some? ==> db.issued[j].nonce != db.issued[k].nonce)
            && (db.issued[j].parent.Some? ==> db.issued[j].parent != db.issued[k].parent))
  {
    hide Run;
    EveryRunSane(actions, ttl);
  }

  /** The family that a reuse response has revoked the tokens of, once it has. */
  function RevokedFamily(stage: Stage): Option<nat> {
    match stage
    case FindingJtis(family) => Some(family)
    case RevokingJtis(family, _) => Some(family)
    case ReuseAnswered(family) => Some(family)
    case _ => None
  }

  predicate OnlyOldIssues(db: DB, t: DB, family: nat) {
    forall j | j in t.issued && t.issued[j].family == family :: j in db.issued && t.issued[j] == db.issued[j]
  }

  lemma DeadStepMintsNothing(db: DB, t: DB, minted: nat, family: nat)
    requires Dead(db, family) && IssuesFrom(db, t, minted) && RowsFrom(db, t, minted) && !Dead(db, minted)
    ensures Dead(t, family) && OnlyOldIssues(db, t, family)
  {
  }

  /**
   * Once a reuse response has revoked a family's refresh tokens, no schedule of later actions, however long
   * and whatever requests were already under way, mints another token in that family.
   */
  lemma {:induction false} RevokedFamilyMintsNothing(actions: seq<Action>, more: seq<Action>, ttl: nat, request: nat)
    requires var db := Run(EMPTY, actions, ttl);
      request in db.requests && RevokedFamily(db.requests[request]).Some?
    ensures var db, end := Run(EMPTY, actions, ttl), Run(EMPTY, actions + more, ttl);
      var family := RevokedFamily(db.requests[request]).value;
      Dead(end, family) && OnlyOldIssues(db, end, family)
  {
    hide Dead, IssuesFrom, RowsFrom, Next, SaneRows;
    var db := Run(EMPTY, actions, ttl);
    var family := RevokedFamily(db.requests[request]).value;
    if |more| == 0 {
      assert actions + more == actions;
      EveryRunSane(actions, ttl);
      assert StageDead(db, db.requests[request]);
    } else {
      var before, last := more[..|more| - 1], more[|more| - 1];
      RevokedFamilyMintsNothing(actions, before, ttl, request);
      assert actions + more == actions + before + [last];
      RunAppend(EMPTY, actions + before, last, ttl);
      var t := Run(EMPTY, actions + before, ttl);
      EveryRunSane(actions + before, ttl);
      var minted := NextFrame(t, last, ttl);
      DeadStepMintsNothing(t, Next(t, last, ttl), minted, family);
    }
  }

  /** Every reuse response that has ended left its family without an acceptable access token. */
  predicate ResponsesComplete(db: DB) {
    forall r | r in db.requests && db.requests[r].ReuseAnswered? ::
      forall j | j in db.issued && db.issued[j].family == db.requests[r].family :: !Accepted(db, j)
  }

  lemma CoversMeansComplete(db: DB)
    requires StagesCover(db)
    ensures ResponsesComplete(db)
  {
    forall r, j | r in db.requests && db.requests[r].ReuseAnswered? && j in db.issued
                  && db.issued[j].family == db.requests[r].family
      ensures !Accepted(db, j)
    {
      assert StageCovers(db, db.requests[r]);
    }
  }

  // A run in which an access token outlives the refresh-token row that would have led to it.

  const FIRST_TOKEN: nat := 4
  const SECOND_TOKEN: nat := 6

  function LoginActions(): seq<Action> {
    [GenerateNonce(1), VerifyWallet(1, 0), Tick(1)]
  }

  function RotateActions(request: nat, token: nat): seq<Action> {
    [Arrive(request, token), Advance(request), Advance(request)]
  }

  function CleanupActions(): seq<Action> {
    [Tick(REFRESH_TTL), CleanTokens(REFRESH_TTL + 1), Arrive(2, SECOND_TOKEN)]
  }

  function ReplayActions(): seq<Action> {
    [Advance(2), Advance(2), Advance(2), Advance(2)]
  }

  function LongLivedRun(): seq<Action> {
    LoginActions() + RotateActions(0, FIRST_TOKEN) + RotateActions(1, SECOND_TOKEN) + CleanupActions() + ReplayActions()
  }

  /** The state after a login at time 0, read at time 1. */
  function AfterLogin(ttl: nat): DB {
    DB(1, 5, map[0 := Nonce(1, NONCE_TTL, true)], map[1 := ttl],
       map[4 := RefreshToken(1, 2, 3, REFRESH_TTL, false)], map[3 := AccessToken(1, ttl, false)],
       map[3 := Issue(2, 0, None, Some(0))], map[])
  }

  function AfterOneRotation(ttl: nat): DB {
    DB(1, 7, map[0 := Nonce(1, NONCE_TTL, true)], map[1 := ttl + 1],
       map[4 := RefreshToken(1, 2, 3, REFRESH_TTL, true), 6 := RefreshToken(1, 2, 5, REFRESH_TTL + 1, false)],
       map[3 := AccessToken(1, ttl, false), 5 := AccessToken(1, ttl + 1, false)],
       map[3 := Issue(2, 0, None, Some(0)), 5 := Issue(2, 1, Some(4), None)],
       map[0 := Rotated])
  }

  function AfterTwoRotations(ttl: nat): DB {
    DB(1, 9, map[0 := Nonce(1, NONCE_TTL, true)], map[1 := ttl + 1],
       map[4 := RefreshToken(1, 2, 3, REFRESH_TTL, true), 6 := RefreshToken(1, 2, 5, REFRESH_TTL + 1, true),
           8 := RefreshToken(1, 2, 7, REFRESH_TTL + 1, false)],
       map[3 := AccessToken(1, ttl, false), 5 := AccessToken(1, ttl + 1, false), 7 := AccessToken(1, ttl + 1, false)],
       map[3 := Issue(2, 0, None, Some(0)), 5 := Issue(2, 1, Some(4), None), 7 := Issue(2, 1, Some(6), None)],
       map[0 := Rotated, 1 := Rotated])
  }

  lemma {:induction false} RunConcat(db: DB, first: seq<Action>, second: seq<Action>, ttl: nat)
    ensures Run(db, first + second, ttl) == Run(Run(db, first, ttl), second, ttl)
  {
    hide Next;
    if |second| == 0 {
      assert first + second == first;
    } else {
      RunConcat(db, first, second[..|second| - 1], ttl);
      assert (first + second)[..|first + second| - 1] == first + second[..|second| - 1];
    }
  }

  lemma RunOne(db: DB, action: Action, ttl: nat)
    ensures Run(db, [action], ttl) == Next(db, action, ttl)
  {
    assert Run(db, [], ttl) == db;
    assert [action][..0] == [];
  }

  lemma RunThree(db: DB, a: Action, b: Action, c: Action, ttl: nat)
    ensures Run(db, [a, b, c], ttl) == Next(Next(Next(db, a, ttl), b, ttl), c, ttl)
  {
    hide Next;
    RunOne(db, a, ttl);
    RunAppend(db, [a], b, ttl);
    RunAppend(db, [a] + [b], c, ttl);
    assert [a, b, c] == [a] + [b] + [c];
  }

  lemma LoginReached(ttl: nat)
    ensures Run(EMPTY, LoginActions(), ttl) == AfterLogin(ttl)
  {
    RunThree(EMPTY, GenerateNonce(1), VerifyWallet(1, 0), Tick(1), ttl);
    var d1 := Next(EMPTY, GenerateNonce(1), ttl);
    assert d1.nonces == map[0 := Nonce(1, NONCE_TTL, false)];
  }

  /** An undisturbed exchange of a good token, written out. */
  function Exchanged(db: DB, request: nat, token: nat, ttl: nat): DB
    requires token in db.tokens
  {
    var row := db.tokens[token];
    db.(tokens := db.tokens[token := row.(revoked := true)]
                           [db.next + 1 := RefreshToken(row.session, row.family, db.next, db.now + REFRESH_TTL, false)],
        jtis := db.jtis[db.next := AccessToken(row.session, db.now + ttl, false)],
        sessions := db.sessions[row.session := db.now + ttl],
        issued := db.issued[db.next := Issue(row.family, db.now, Some(token), None)],
        next := db.next + 2,
        requests := db.requests[request := Rotated])
  }

  lemma ExchangeReached(db: DB, request: nat, token: nat, ttl: nat)
    requires token in db.tokens && !db.tokens[token].revoked && db.tokens[token].session in db.sessions
    requires db.tokens[token].expiresAt > db.now && request !in db.requests
    ensures Run(db, RotateActions(request, token), ttl) == Exchanged(db, request, token, ttl)
  {
    hide Run;
    RunThree(db, Arrive(request, token), Advance(request), Advance(request), ttl);
    var found := db.(requests := db.requests[request := Found(token, db.tokens[token])]);
    assert Next(Next(db, Arrive(request, token), ttl), Advance(request), ttl) == found by {
      assert db.requests[request := Arrived(token)][request := Found(token, db.tokens[token])] == found.requests;
    }
    assert Next(found, Advance(request), ttl).requests == Exchanged(db, request, token, ttl).requests;
  }

  lemma OneRotationReached(ttl: nat)
    ensures Run(AfterLogin(ttl), RotateActions(0, FIRST_TOKEN), ttl) == AfterOneRotation(ttl)
  {
    hide Run, RotateActions;
    ExchangeReached(AfterLogin(ttl), 0, FIRST_TOKEN, ttl);
  }

  lemma TwoRotationsReached(ttl: nat)
    ensures Run(AfterOneRotation(ttl), RotateActions(1, SECOND_TOKEN), ttl) == AfterTwoRotations(ttl)
  {
    hide Run, RotateActions;
    ExchangeReached(AfterOneRotation(ttl), 1, SECOND_TOKEN, ttl);
  }

  function AfterCleanup(ttl: nat): DB {
    AfterTwoRotations(ttl).(
      now := REFRESH_TTL + 1,
      tokens := map[6 := RefreshToken(1, 2, 5, REFRESH_TTL + 1, true), 8 := RefreshToken(1, 2, 7, REFRESH_TTL + 1, false)],
      requests := map[0 := Rotated, 1 := Rotated, 2 := Arrived(6)])
  }

  lemma CleanupReached(ttl: nat)
    ensures Run(AfterTwoRotations(ttl), CleanupActions(), ttl) == AfterCleanup(ttl)
  {
    RunThree(AfterTwoRotations(ttl), Tick(REFRESH_TTL), CleanTokens(REFRESH_TTL + 1), Arrive(2, 6), ttl);
    var d2 := Next(Next(AfterTwoRotations(ttl), Tick(REFRESH_TTL), ttl), CleanTokens(REFRESH_TTL + 1), ttl);
    assert d2.tokens == AfterCleanup(ttl).tokens;
  }

  /** The response revokes what it finds, and token 3 is not among it. */
  lemma ReplayReached(ttl: nat)
    ensures var db, end := AfterCleanup(ttl), Run(AfterCleanup(ttl), ReplayActions(), ttl);
      && 2 in end.requests && end.requests[2] == ReuseAnswered(2)
      && 3 in end.jtis && end.jtis[3] == db.jtis[3]
      && end.issued == db.issued && end.sessions == db.sessions && end.now == db.now
  {
    hide Run;
    var db := AfterCleanup(ttl);
    var d1 := Next(db, Advance(2), ttl);
    var d2 := Next(d1, Advance(2), ttl);
    var d3 := Next(d2, Advance(2), ttl);
    RunThree(db, Advance(2), Advance(2), Advance(2), ttl);
    RunAppend(db, [Advance(2), Advance(2), Advance(2)], Advance(2), ttl);
    assert ReplayActions() == [Advance(2), Advance(2), Advance(2)] + [Advance(2)];
    assert d1 == db.(requests := db.requests[2 := RevokingFamily(2)]);
    ReuseSteps(d1, 2, 2, ttl);
    assert 3 !in FamilyJtis(FamilyRevoked(d1, 2), 2);
  }

  /** The three steps of a reuse response, back to back. */
  lemma ReuseSteps(db: DB, request: nat, family: nat, ttl: nat)
    requires request in db.requests && db.requests[request] == RevokingFamily(family)
    ensures var found := FamilyJtis(FamilyRevoked(db, family), family);
      Next(Next(Next(db, Advance(request), ttl), Advance(request), ttl), Advance(request), ttl)
        == JtisRevoked(FamilyRevoked(db, family), found).(requests := db.requests[request := ReuseAnswered(family)])
  {
    hide FamilyRevoked, FamilyJtis, JtisRevoked;
    var d2 := Next(db, Advance(request), ttl);
    RevocationKeepsRequests(db, family, {});
    assert d2 == FamilyRevoked(db, family).(requests := db.requests[request := FindingJtis(family)]);
    var found := FamilyJtis(FamilyRevoked(db, family), family);
    OtherRequests(FamilyRevoked(db, family), d2.requests, family, found);
    var d3 := Next(d2, Advance(request), ttl);
    assert d3 == FamilyRevoked(db, family).(requests := db.requests[request := RevokingJtis(family, found)]);
    OtherRequests(FamilyRevoked(db, family), d3.requests, family, found);
  }

  lemma OtherRequests(db: DB, requests: map<nat, Stage>, family: nat, found: set<nat>)
    ensures FamilyJtis(db.(requests := requests), family) == FamilyJtis(db, family)
    ensures JtisRevoked(db.(requests := requests), found) == JtisRevoked(db, found).(requests := requests)
  {
  }

  lemma LongLivedRunReached(ttl: nat)
    ensures Run(EMPTY, LongLivedRun(), ttl) == Run(AfterCleanup(ttl), ReplayActions(), ttl)
  {
    hide Run, AfterLogin, AfterOneRotation, AfterTwoRotations, AfterCleanup;
    hide LoginActions, RotateActions, CleanupActions, ReplayActions;
    var s1 := LoginActions();
    var s2 := s1 + RotateActions(0, FIRST_TOKEN);
    var s3 := s2 + RotateActions(1, SECOND_TOKEN);
    var s4 := s3 + CleanupActions();
    LoginReached(ttl);
    RunConcat(EMPTY, s1, RotateActions(0, FIRST_TOKEN), ttl);
    OneRotationReached(ttl);
    RunConcat(EMPTY, s2, RotateActions(1, SECOND_TOKEN), ttl);
    TwoRotationsReached(ttl);
    RunConcat(EMPTY, s3, CleanupActions(), ttl);
    CleanupReached(ttl);
    RunConcat(EMPTY, s4, ReplayActions(), ttl);
  }

  /** With a longer access lifetime, this run ends with a finished response and an acceptable access token. */
  lemma LongLivedTokenEscapes(ttl: nat)
    requires ttl > REFRESH_TTL + 1
    ensures !ResponsesComplete(Run(EMPTY, LongLivedRun(), ttl))
  {
    hide Run;
    LongLivedRunReached(ttl);
    ReplayReached(ttl);
    var end := Run(EMPTY, LongLivedRun(), ttl);
    assert end.issued[3].family == 2;
    assert Accepted(end, 3);
    assert end.requests[2].ReuseAnswered?;
  }

  /**
   * Reuse responses are complete in every interleaving, so that when one ends no access token of the family
   * is accepted any more, if and only if access tokens live at most one millisecond longer than refresh
   * tokens. Otherwise the cleanup can drop the row by which a response would have found the token.
   */
  lemma ReuseResponseCompleteIff(ttl: nat)
    ensures (forall actions :: ResponsesComplete(Run(EMPTY, actions, ttl))) <==> ttl <= REFRESH_TTL + 1
  {
    hide Run, ResponsesComplete;
    if ttl <= REFRESH_TTL + 1 {
      forall actions
        ensures ResponsesComplete(Run(EMPTY, actions, ttl))
      {
        EveryRunCovers(actions, ttl);
        CoversMeansComplete(Run(EMPTY, actions, ttl));
      }
    } else {
      LongLivedTokenEscapes(ttl);
    }
  }

  // ---------------------------------------------------------------- the service's transactions

  /** The tables behind the service, with one method per transaction or database step. */
  class TokenStore {
    const ttl: nat
    var now: nat
    var next: nat
    var nonces: map<nat, Nonce>
    var sessions: map<nat, nat>
    var tokens: map<nat, RefreshToken>
    var jtis: map<nat, AccessToken>
    var issued: map<nat, Issue>
    var requests: map<nat, Stage>

    function View(): DB
      reads this
    {
      DB(now, next, nonces, sessions, tokens, jtis, issued, requests)
    }

    constructor (ttl: nat)
      ensures View() == EMPTY && this.ttl == ttl
    {
      this.ttl, now, next := ttl, 0, 0;
      nonces, sessions, tokens, jtis, issued, requests := map[], map[], map[], map[], map[], map[];
    }

    method DrawId() returns (id: nat)
      modifies this`next
      ensures id == old(next) && next == id + 1
    {
      id := next;
      next := next + 1;
    }

    method GenerateNonce(wallet: nat)
      modifies this
      ensures View() == Next(old(View()), Action.GenerateNonce(wallet), ttl)
    {
      nonces := map n | n in nonces :: if nonces[n].wallet == wallet then nonces[n].(used := true) else nonces[n];
      var id := DrawId();
      nonces := nonces[id := Nonce(wallet, now + NONCE_TTL, false)];
    }

    /** Writes the jti row, then the refresh-token row, then the session. */
    method IssueTokenPair(session: nat, family: nat, parent: Option<nat>, nonce: Option<nat>)
      modifies this
      ensures View() == PairIssued(old(View()), session, family, ttl, parent, nonce)
    {
      var jti := DrawId();
      jtis := jtis[jti := AccessToken(session, now + ttl, false)];
      issued := issued[jti := Issue(family, now, parent, nonce)];
      var token := DrawId();
      tokens := tokens[token := RefreshToken(session, family, jti, now + REFRESH_TTL, false)];
      sessions := sessions[session := now + ttl];
    }

    /** Claims the nonce by a conditional update and opens the session, or leaves everything as it was. */
    method VerifyWallet(wallet: nat, nonce: nat) returns (claimed: bool)
      modifies this
      ensures claimed <==> NonceClaimable(old(View()), wallet, nonce)
      ensures View() == Next(old(View()), Action.VerifyWallet(wallet, nonce), ttl)
    {
      claimed := nonce in nonces && nonces[nonce].wallet == wallet && !nonces[nonce].used && nonces[nonce].expiresAt > now;
      if claimed {
        nonces := nonces[nonce := nonces[nonce].(used := true)];
        var session := DrawId();
        var family := DrawId();
        IssueTokenPair(session, family, None, Some(nonce));
      }
    }

    /** One database step of a refresh request: look up, rotate, or one third of the reuse response. */
    method Advance(request: nat)
      requires request in requests
      modifies this
      ensures View() == Next(old(View()), Action.Advance(request), ttl)
    {
      match requests[request] {
        case Arrived(token) => LookUp(request, token);
        case Found(token, row) => Rotate(request, token, row);
        case RevokingFamily(family) =>
          tokens := map i | i in tokens :: if tokens[i].family == family then tokens[i].(revoked := true) else tokens[i];
          requests := requests[request := FindingJtis(family)];
        case FindingJtis(family) =>
          var found := set i | i in tokens && tokens[i].family == family :: tokens[i].jti;
          requests := requests[request := RevokingJtis(family, found)];
        case RevokingJtis(family, found) =>
          jtis := map j | j in jtis :: if j in found then jtis[j].(revoked := true) else jtis[j];
          requests := requests[request := ReuseAnswered(family)];
        case _ =>
      }
    }

    method LookUp(request: nat, token: nat)
      requires request in requests && requests[request] == Arrived(token)
      modifies this`requests
      ensures View() == Next(old(View()), Action.Advance(request), ttl)
    {
      if token !in tokens {
        requests := requests[request := Refused];
      } else {
        var row := tokens[token];
        if row.revoked {
          requests := requests[request := RevokingFamily(row.family)];
        } else if row.expiresAt <= now {
          requests := requests[request := Refused];
        } else {
          requests := requests[request := Found(token, row)];
        }
      }
    }

    /** Claims the presented token before minting its successor; a lost claim is treated as reuse. */
    method Rotate(request: nat, token: nat, row: RefreshToken)
      requires request in requests && requests[request] == Found(token, row)
      modifies this
      ensures View() == Next(old(View()), Action.Advance(request), ttl)
    {
      if token !in tokens || tokens[token].revoked {
        requests := requests[request := RevokingFamily(row.family)];
        return;
      }
      if row.session !in sessions {
        requests := requests[request := Refused];
        return;
      }
      tokens := tokens[token := tokens[token].(revoked := true)];
      IssueTokenPair(row.session, row.family, Some(token), None);
      requests := requests[request := Rotated];
    }

    method CleanupExpiredTokens(cutoff: nat)
      requires cutoff <= now
      modifies this
      ensures View() == Next(Next(old(View()), CleanJtis(cutoff), ttl), CleanTokens(cutoff), ttl)
    {
      jtis := map j | j in jtis && !(jtis[j].expiresAt < cutoff) :: jtis[j];
      tokens := map i | i in tokens && !(tokens[i].expiresAt < cutoff) :: tokens[i];
    }
  }
}
