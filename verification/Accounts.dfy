/** The actions that change an account, each as one transaction: what it does to the tables, and what it promises. */
module Accounts {
  import opened Base
  import F = OutboxEffects
  import L = Links
  import O = OutboxTable
  import S = Session
  import T = TokenTable

  type UserId = string

  const PURPOSE_RESET := "reset"
  const PURPOSE_MAGIC_LINK := "magiclink"

  datatype User = User(password: string, disabled: bool, emailVerified: bool)

  datatype Db = Db(tokens: T.Tokens, mails: O.Rows, users: map<UserId, User>, sessions: map<S.Id, S.Row>)

  datatype Event =
    | LoginSuccess | Logout | ResetRequested | MagicLinkRequested | ResetCompleted | UserDisabled | UserEnabled
    | EmailVerified | SessionsRevokedAll | SessionRevoked

  datatype Evidence = Evidence(event: Event, actor: UserId)

  datatype Error = InvalidToken | AccountDisabled | Database | AuditWrite

  /** A request for a link, with the random values it draws. */
  type LinkRequest = c: L.Step | c.RequestLink?
    witness L.RequestLink("", "", "", "", "", "", "", "", "", "", L.K.Payload("", "", L.K.Sealed("", "", "", "")),
                              0, 0, 0)

  datatype Action =
    | RequestReset(link: LinkRequest, at: Time)
    | RequestMagicLink(link: LinkRequest, at: Time)
    | ConfirmReset(hash: string, password: string, at: Time)
    | ConfirmMagicLink(hash: string, session: S.Id, at: Time)
    | PasswordLogin(userId: UserId, session: S.Id, at: Time)
    | LogOut(session: S.Id)
    | SetDisabled(userId: UserId, flag: bool)

  // ---- what an action does when nothing fails -------------------------------------------

  function WithSession(db: Db, session: S.Id, userId: UserId, lifetime: Duration, at: Time): Db {
    db.(sessions := db.sessions[session := S.Row(userId, at, at, at + lifetime)])
  }

  predicate CanOpen(db: Db, session: S.Id, userId: UserId) {
    session !in db.sessions && userId in db.users
  }

  function LinkQueued(db: Db, c: LinkRequest, at: Time): Db {
    db.(tokens := T.Issue(db.tokens, c.tokenId, c.userId, c.hash, c.purpose, c.ttl, c.issueAt),
        mails := O.Queue(db.mails, c.id, L.LinkMail(c), c.payload, at))
  }

  function Login(db: Db, session: S.Id, userId: UserId, lifetime: Duration, at: Time)
    : Result<(Db, Option<Evidence>), Error>
  {
    if CanOpen(db, session, userId)
    then Ok((WithSession(db, session, userId, lifetime, at), Some(Evidence(LoginSuccess, userId))))
    else Err(Database)
  }

  function Edit(users: map<UserId, User>, userId: UserId, f: User -> User): map<UserId, User> {
    if userId in users then users[userId := f(users[userId])] else users
  }

  ghost function Effect(db: Db, a: Action, lifetime: Duration): Result<(Db, Option<Evidence>), Error> {
    match a
    case RequestReset(c, at) => Ok((LinkQueued(db, c, at), Some(Evidence(ResetRequested, c.userId))))
    case RequestMagicLink(c, at) => Ok((LinkQueued(db, c, at), Some(Evidence(MagicLinkRequested, c.userId))))
    case ConfirmReset(hash, password, at) =>
      var hit := T.Hit(db.tokens, hash, PURPOSE_RESET, at);
      if hit.None? then Err(InvalidToken)
      else
        var u := db.tokens[hit.value].userId;
        Ok((db.(tokens := T.Consume(db.tokens, hash, PURPOSE_RESET, at),
                users := Edit(db.users, u, (x: User) => x.(password := password)),
                sessions := S.Without(db.sessions, u)),
            Some(Evidence(ResetCompleted, u))))
    case ConfirmMagicLink(hash, session, at) =>
      var hit := T.Hit(db.tokens, hash, PURPOSE_MAGIC_LINK, at);
      if hit.None? then Err(InvalidToken)
      else
        var u := db.tokens[hit.value].userId;
        if u !in db.users then Err(Database)
        else if db.users[u].disabled then Err(AccountDisabled)
        else
          Login(db.(tokens := T.Consume(db.tokens, hash, PURPOSE_MAGIC_LINK, at),
                    users := Edit(db.users, u, (x: User) => x.(emailVerified := true))), session, u, lifetime, at)
    case PasswordLogin(userId, session, at) => Login(db, session, userId, lifetime, at)
    case LogOut(session) =>
      if session !in db.sessions then Ok((db, None))
      else Ok((db.(sessions := db.sessions - {session}), Some(Evidence(Logout, db.sessions[session].userId))))
    case SetDisabled(userId, flag) =>
      Ok((db.(users := Edit(db.users, userId, (x: User) => x.(disabled := flag)),
              sessions := if flag then S.Without(db.sessions, userId) else db.sessions),
          Some(Evidence(if flag then UserDisabled else UserEnabled, userId))))
  }

  /** How many statements the action reaches when none fails, the BEGIN included. */
  ghost function Statements(db: Db, a: Action): nat {
    match a
    case RequestReset(_, _) => 5
    case RequestMagicLink(_, _) => 5
    case ConfirmReset(hash, _, at) => if T.Hit(db.tokens, hash, PURPOSE_RESET, at).None? then 2 else 4
    case ConfirmMagicLink(hash, _, at) =>
      var hit := T.Hit(db.tokens, hash, PURPOSE_MAGIC_LINK, at);
      if hit.None? then 2
      else if db.tokens[hit.value].userId !in db.users || db.users[db.tokens[hit.value].userId].disabled then 3
      else 5
    case PasswordLogin(_, _, _) => 2
    case LogOut(_) => 2
    case SetDisabled(_, flag) => if flag then 3 else 2
  }

  // ---- what it promises, table by table -------------------------------------------------

  ghost predicate SessionsClosed(db: Db, db': Db, userId: UserId) {
    && (forall id :: id in db'.sessions <==> id in db.sessions && db.sessions[id].userId != userId)
    && (forall id :: id in db'.sessions ==> db'.sessions[id] == db.sessions[id])
  }

  /** One new session, of one lifetime, with a key that was free and an owner who exists. */
  predicate SessionOpened(db: Db, db': Db, session: S.Id, userId: UserId, lifetime: Duration, at: Time) {
    && session !in db.sessions && userId in db.users
    && db'.sessions.Keys == db.sessions.Keys + {session}
    && db'.sessions[session] == S.Row(userId, at, at, at + lifetime)
    && forall id :: id in db.sessions ==> db'.sessions[id] == db.sessions[id]
  }

  predicate OthersKept(users: map<UserId, User>, users': map<UserId, User>, userId: UserId) {
    users'.Keys == users.Keys && forall u :: u in users && u != userId ==> users'[u] == users[u]
  }

  predicate PasswordSet(users: map<UserId, User>, users': map<UserId, User>, userId: UserId, password: string) {
    && OthersKept(users, users', userId)
    && (userId in users ==> users'[userId] == User(password, users[userId].disabled, users[userId].emailVerified))
  }

  predicate SwitchSet(users: map<UserId, User>, users': map<UserId, User>, userId: UserId, flag: bool) {
    && OthersKept(users, users', userId)
    && (userId in users ==> users'[userId] == User(users[userId].password, flag, users[userId].emailVerified))
  }

  predicate EmailProven(users: map<UserId, User>, users': map<UserId, User>, userId: UserId) {
    && OthersKept(users, users', userId)
    && (userId in users ==> users'[userId] == User(users[userId].password, users[userId].disabled, true))
  }

  /** A token issued and the mail with its link queued, each replacing what was open; the mail's window closes a minute
      before the link would. */
  ghost predicate LinkRequested(db: Db, db': Db, c: LinkRequest, at: Time) {
    && T.Issues(db.tokens, c.tokenId, c.userId, c.hash, c.purpose, c.ttl, c.issueAt, db'.tokens)
    && F.Enqueues(db.mails, c.id,
                  O.QueueInput(c.userId, c.tokenId, c.to, c.from, c.subject, c.body, c.purpose, c.provider,
                               c.queueAt + c.ttl - MINUTE),
                  at, db'.mails)
    && db'.mails[c.id].keyId == c.payload.keyId && db'.mails[c.id].nonce == Some(c.payload.nonce)
    && db'.mails[c.id].ciphertext == Some(c.payload.ciphertext)
    && db'.users == db.users && db'.sessions == db.sessions
  }

  /** What a user can count on when the action took effect, and the evidence it owes. */
  ghost predicate Fulfils(db: Db, a: Action, lifetime: Duration, db': Db, record: Option<Evidence>) {
    match a
    case RequestReset(c, at) => LinkRequested(db, db', c, at) && record == Some(Evidence(ResetRequested, c.userId))
    case RequestMagicLink(c, at) =>
      LinkRequested(db, db', c, at) && record == Some(Evidence(MagicLinkRequested, c.userId))
    case ConfirmReset(hash, password, at) =>
      exists u :: && T.Spends(db.tokens, hash, "reset", at, u, db'.tokens)
                  && PasswordSet(db.users, db'.users, u, password) && SessionsClosed(db, db', u)
                  && db'.mails == db.mails && record == Some(Evidence(ResetCompleted, u))
    case ConfirmMagicLink(hash, session, at) =>
      exists u :: && T.Spends(db.tokens, hash, "magiclink", at, u, db'.tokens)
                  && u in db.users && !db.users[u].disabled && EmailProven(db.users, db'.users, u)
                  && SessionOpened(db, db', session, u, lifetime, at)
                  && db'.mails == db.mails && record == Some(Evidence(LoginSuccess, u))
    case PasswordLogin(userId, session, at) =>
      && SessionOpened(db, db', session, userId, lifetime, at)
      && db'.tokens == db.tokens && db'.mails == db.mails && db'.users == db.users
      && record == Some(Evidence(LoginSuccess, userId))
    case LogOut(session) =>
      && db'.tokens == db.tokens && db'.mails == db.mails && db'.users == db.users
      && S.OthersStay(db.sessions, db'.sessions, session) && session !in db'.sessions
      && record == if session in db.sessions then Some(Evidence(Logout, db.sessions[session].userId)) else None
    case SetDisabled(userId, flag) =>
      && SwitchSet(db.users, db'.users, userId, flag)
      && (if flag then SessionsClosed(db, db', userId) else db'.sessions == db.sessions)
      && db'.tokens == db.tokens && db'.mails == db.mails
      && record == Some(Evidence(if flag then UserDisabled else UserEnabled, userId))
  }

  /** When an action is refused although the database works, and as what. */
  ghost predicate Refuses(db: Db, a: Action, error: Error) {
    match a
    case ConfirmReset(hash, _, at) => error == InvalidToken && T.NothingWorks(db.tokens, hash, "reset", at)
    case ConfirmMagicLink(hash, session, at) =>
      || (error == InvalidToken && T.NothingWorks(db.tokens, hash, "magiclink", at))
      || exists t :: && t in db.tokens && T.Works(db.tokens[t], hash, "magiclink", at)
                     && var u := db.tokens[t].userId;
                        if u in db.users && db.users[u].disabled then error == AccountDisabled
                        else error == Database && (u !in db.users || session in db.sessions)
    case PasswordLogin(userId, session, _) => error == Database && (session in db.sessions || userId !in db.users)
    case _ => false
  }

  lemma LinkQueuedIsRequested(db: Db, c: LinkRequest, at: Time)
    ensures LinkRequested(db, LinkQueued(db, c, at), c, at)
  {
    T.IssueIssues(db.tokens, c.tokenId, c.userId, c.hash, c.purpose, c.ttl, c.issueAt);
    F.QueueEnqueues(db.mails, c.id, L.LinkMail(c), c.payload, at);
  }

  lemma ResetFulfils(db: Db, hash: string, password: string, at: Time, lifetime: Duration)
    requires T.HashesUnique(db.tokens)
    ensures var a := ConfirmReset(hash, password, at);
            var r := Effect(db, a, lifetime);
            if r.Ok? then Fulfils(db, a, lifetime, r.value.0, r.value.1) else Refuses(db, a, r.error)
  {
    T.ConsumeSpends(db.tokens, hash, PURPOSE_RESET, at);
  }

  lemma MagicLinkFulfils(db: Db, hash: string, session: S.Id, at: Time, lifetime: Duration)
    requires T.HashesUnique(db.tokens)
    ensures var a := ConfirmMagicLink(hash, session, at);
            var r := Effect(db, a, lifetime);
            if r.Ok? then Fulfils(db, a, lifetime, r.value.0, r.value.1) else Refuses(db, a, r.error)
  {
    T.ConsumeSpends(db.tokens, hash, PURPOSE_MAGIC_LINK, at);
    var hit := T.Hit(db.tokens, hash, PURPOSE_MAGIC_LINK, at);
    assert hit.Some? ==> T.Works(db.tokens[hit.value], hash, "magiclink", at);
  }

  /** An action that is not refused does what it promises, and an action is refused only for a reason. */
  lemma EffectFulfils(db: Db, a: Action, lifetime: Duration)
    requires T.HashesUnique(db.tokens)
    ensures var r := Effect(db, a, lifetime);
            if r.Ok? then Fulfils(db, a, lifetime, r.value.0, r.value.1) else Refuses(db, a, r.error)
  {
    match a
    case RequestReset(c, at) => LinkQueuedIsRequested(db, c, at);
    case RequestMagicLink(c, at) => LinkQueuedIsRequested(db, c, at);
    case ConfirmReset(hash, password, at) => ResetFulfils(db, hash, password, at, lifetime);
    case ConfirmMagicLink(hash, session, at) => MagicLinkFulfils(db, hash, session, at, lifetime);
    case _ =>
  }
}
