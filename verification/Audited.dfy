/** Actions and their evidence: every handler that changes an account runs its statements in one transaction, and the
    audit row joins that transaction in strict mode or follows it in best-effort mode. Any statement, the audit write
    and the commit may fail, and a commit may take effect although its acknowledgement is lost. */
module Audited {
  import opened Accounts
  import opened Base
  import L = Links
  import O = OutboxTable
  import S = Session
  import T = TokenTable

  datatype Commit = Acknowledged | RolledBack | AckLost

  /** `stmt` is the first statement to fail, numbered from the BEGIN. */
  datatype Faults = Faults(stmt: Option<nat>, audit: bool, commit: Commit)

  datatype Call = Call(action: Action, faults: Faults)

  datatype Store = Store(db: Db, evidence: seq<Evidence>)

  // ---- one call -------------------------------------------------------------------------

  ghost predicate Broken(db: Db, c: Call) {
    c.faults.stmt.Some? && c.faults.stmt.value < Statements(db, c.action)
  }

  /** The call's transaction takes effect. */
  ghost predicate Lands(strict: bool, lifetime: Duration, db: Db, c: Call) {
    var r := Effect(db, c.action, lifetime);
    && !Broken(db, c) && r.Ok?
    && !(strict && r.value.1.Some? && c.faults.audit)
    && !c.faults.commit.RolledBack?
  }

  /** The call leaves an evidence row. */
  ghost predicate Evidences(strict: bool, lifetime: Duration, db: Db, c: Call) {
    && Lands(strict, lifetime, db, c)
    && Effect(db, c.action, lifetime).value.1.Some?
    && (strict || (c.faults.commit.Acknowledged? && !c.faults.audit))
  }

  ghost function Perform(strict: bool, lifetime: Duration, s: Store, c: Call): Store {
    if !Lands(strict, lifetime, s.db, c) then s
    else
      var r := Effect(s.db, c.action, lifetime).value;
      Store(r.0, if Evidences(strict, lifetime, s.db, c) then s.evidence + [r.1.value] else s.evidence)
  }

  ghost function Reported(strict: bool, lifetime: Duration, db: Db, c: Call): Option<Error> {
    var r := Effect(db, c.action, lifetime);
    if Broken(db, c) then Some(Database)
    else if r.Err? then Some(r.error)
    else if strict && r.value.1.Some? && c.faults.audit then Some(AuditWrite)
    else if c.faults.commit.Acknowledged? then None
    else Some(Database)
  }

  // ---- runs -----------------------------------------------------------------------------

  ghost function Run(strict: bool, lifetime: Duration, s: Store, calls: seq<Call>): Store
    decreases |calls|
  {
    if calls == [] then s else Run(strict, lifetime, Perform(strict, lifetime, s, calls[0]), calls[1..])
  }

  /** The actions that took effect, in order. */
  ghost function Landed(strict: bool, lifetime: Duration, s: Store, calls: seq<Call>): seq<Action>
    decreases |calls|
  {
    if calls == [] then []
    else (if Lands(strict, lifetime, s.db, calls[0]) then [calls[0].action] else [])
         + Landed(strict, lifetime, Perform(strict, lifetime, s, calls[0]), calls[1..])
  }

  /** The same actions on a database that never fails. */
  ghost function Replay(db: Db, actions: seq<Action>, lifetime: Duration): Db
    decreases |actions|
  {
    if actions == [] then db
    else
      var r := Effect(db, actions[0], lifetime);
      Replay(if r.Ok? then r.value.0 else db, actions[1..], lifetime)
  }

  ghost function ReplayEvidence(db: Db, actions: seq<Action>, lifetime: Duration): seq<Evidence>
    decreases |actions|
  {
    if actions == [] then []
    else
      var r := Effect(db, actions[0], lifetime);
      if r.Ok? then (if r.value.1.Some? then [r.value.1.value] else [])
          + ReplayEvidence(r.value.0, actions[1..], lifetime)
      else ReplayEvidence(db, actions[1..], lifetime)
  }

  predicate Subsequence<X(==)>(a: seq<X>, b: seq<X>)
    decreases |b|
  {
    a == [] || (b != [] && ((a[0] == b[0] && Subsequence(a[1..], b[1..])) || Subsequence(a, b[1..])))
  }

  /** The evidence rows a run adds. */
  ghost function Added(strict: bool, lifetime: Duration, s: Store, calls: seq<Call>): seq<Evidence>
    decreases |calls|
  {
    if calls == [] then []
    else
      var first := Effect(s.db, calls[0].action, lifetime);
      (if Evidences(strict, lifetime, s.db, calls[0]) then [first.value.1.value] else [])
         + Added(strict, lifetime, Perform(strict, lifetime, s, calls[0]), calls[1..])
  }

  /** Failures are invisible: the tables are those of a faultless run of exactly the actions that landed; in strict mode
      the evidence is theirs, one row each in order, and in best-effort mode some of theirs in order. */
  lemma EvidenceMatchesActions(strict: bool, lifetime: Duration, s: Store, calls: seq<Call>)
    ensures var s', landed := Run(strict, lifetime, s, calls), Landed(strict, lifetime, s, calls);
            var added := Added(strict, lifetime, s, calls);
            && s'.db == Replay(s.db, landed, lifetime)
            && s'.evidence == s.evidence + added
            && (strict ==> added == ReplayEvidence(s.db, landed, lifetime))
            && Subsequence(added, ReplayEvidence(s.db, landed, lifetime))
  {
    EvidenceIsAdded(strict, lifetime, s, calls);
    LandedReplays(strict, lifetime, s, calls);
    AddedIsTheirs(strict, lifetime, s, calls);
  }

  lemma {:induction false} EvidenceIsAdded(strict: bool, lifetime: Duration, s: Store, calls: seq<Call>)
    ensures Run(strict, lifetime, s, calls).evidence == s.evidence + Added(strict, lifetime, s, calls)
    decreases |calls|
  {
    if calls != [] {
      EvidenceIsAdded(strict, lifetime, Perform(strict, lifetime, s, calls[0]), calls[1..]);
    }
  }

  lemma {:induction false} LandedReplays(strict: bool, lifetime: Duration, s: Store, calls: seq<Call>)
    ensures Run(strict, lifetime, s, calls).db == Replay(s.db, Landed(strict, lifetime, s, calls), lifetime)
    decreases |calls|
  {
    if calls != [] {
      var s1 := Perform(strict, lifetime, s, calls[0]);
      var tail := Landed(strict, lifetime, s1, calls[1..]);
      LandedReplays(strict, lifetime, s1, calls[1..]);
      if Lands(strict, lifetime, s.db, calls[0]) {
        ReplayFirst(s.db, calls[0].action, tail, lifetime);
      } else {
        assert [] + tail == tail;
      }
    }
  }

  lemma {:induction false} AddedIsTheirs(strict: bool, lifetime: Duration, s: Store, calls: seq<Call>)
    ensures var added, theirs := Added(strict, lifetime, s, calls),
            ReplayEvidence(s.db, Landed(strict, lifetime, s, calls), lifetime);
            (strict ==> added == theirs) && Subsequence(added, theirs)
    decreases |calls|
  {
    if calls != [] {
      var c := calls[0];
      var s1 := Perform(strict, lifetime, s, c);
      var rest, tail := Added(strict, lifetime, s1, calls[1..]), Landed(strict, lifetime, s1, calls[1..]);
      AddedIsTheirs(strict, lifetime, s1, calls[1..]);
      if Lands(strict, lifetime, s.db, c) {
        ReplayFirst(s.db, c.action, tail, lifetime);
        var r := Effect(s.db, c.action, lifetime).value;
        SubsequenceGrows(if r.1.Some? then [r.1.value] else [], rest, ReplayEvidence(r.0, tail, lifetime));
      } else {
        assert [] + tail == tail && [] + rest == rest;
      }
    }
  }

  lemma ReplayFirst(db: Db, a: Action, tail: seq<Action>, lifetime: Duration)
    requires Effect(db, a, lifetime).Ok?
    ensures var r := Effect(db, a, lifetime).value;
            && Replay(db, [a] + tail, lifetime) == Replay(r.0, tail, lifetime)
            && ReplayEvidence(db, [a] + tail, lifetime) ==
                 (if r.1.Some? then [r.1.value] else []) + ReplayEvidence(r.0, tail, lifetime)
  {
    assert ([a] + tail)[1..] == tail;
  }

  lemma SubsequenceGrows<X>(own: seq<X>, a: seq<X>, b: seq<X>)
    requires |own| <= 1 && Subsequence(a, b)
    ensures Subsequence(own + a, own + b) && Subsequence([] + a, own + b)
  {
    assert [] + a == a && [] + b == b;
    if own != [] {
      assert (own + a)[1..] == a && (own + b)[1..] == b;
    }
  }

  /** The calls a client can take to have happened: those that reported no error, and those whose acknowledgement was
      lost. */
  ghost function Happened(strict: bool, lifetime: Duration, s: Store, calls: seq<Call>): seq<Call>
    decreases |calls|
  {
    if calls == [] then []
    else
      (if Reported(strict, lifetime, s.db, calls[0]).None? || calls[0].faults.commit.AckLost? then [calls[0]] else [])
         + Happened(strict, lifetime, Perform(strict, lifetime, s, calls[0]), calls[1..])
  }

  /** A failed call leaves no trace: tables and evidence are those of the same run without it, unless the
      acknowledgement of its commit was lost. */
  lemma {:induction false} FailedCallsLeaveNoTrace(strict: bool, lifetime: Duration, s: Store, calls: seq<Call>)
    ensures Run(strict, lifetime, s, calls) == Run(strict, lifetime, s, Happened(strict, lifetime, s, calls))
    decreases |calls|
  {
    if calls != [] {
      var s1 := Perform(strict, lifetime, s, calls[0]);
      var rest := Happened(strict, lifetime, s1, calls[1..]);
      FailedCallsLeaveNoTrace(strict, lifetime, s1, calls[1..]);
      if Reported(strict, lifetime, s.db, calls[0]).None? || calls[0].faults.commit.AckLost? {
        RunFirst(strict, lifetime, s, calls[0], rest);
      } else {
        ErrorMeansNothingHappened(strict, lifetime, s, calls[0]);
        assert [] + rest == rest;
      }
    }
  }

  lemma RunFirst(strict: bool, lifetime: Duration, s: Store, c: Call, rest: seq<Call>)
    ensures Run(strict, lifetime, s, [c] + rest) == Run(strict, lifetime, Perform(strict, lifetime, s, c), rest)
  {
    assert ([c] + rest)[1..] == rest;
  }

  lemma ErrorMeansNothingHappened(strict: bool, lifetime: Duration, s: Store, c: Call)
    requires Reported(strict, lifetime, s.db, c).Some? && !c.faults.commit.AckLost?
    ensures Perform(strict, lifetime, s, c) == s
  {
  }

  // ---- one-time links across failures ---------------------------------------------------

  const NO_FAULTS := Faults(None, false, Acknowledged)

  ghost predicate Spends(a: Action, hash: string, purpose: string) {
    || (a.ConfirmReset? && a.hash == hash && purpose == PURPOSE_RESET)
    || (a.ConfirmMagicLink? && a.hash == hash && purpose == PURPOSE_MAGIC_LINK)
  }

  /** A failed confirmation un-spends the link: as long as it has not expired the same confirmation, repeated without
      failures, takes effect. Not so after a lost acknowledgement: then the link is spent for good and the repetition
      is refused, although the password was changed. */
  lemma FailedResetCanBeRepeated(strict: bool, lifetime: Duration, s: Store, c: Call, later: Time)
    requires T.HashesUnique(s.db.tokens) && c.action.ConfirmReset? && c.action.at <= later
    requires Reported(strict, lifetime, s.db, c).Some?
    requires T.Hit(s.db.tokens, c.action.hash, PURPOSE_RESET, later).Some?
    ensures var s' := Perform(strict, lifetime, s, c);
            var again := Call(ConfirmReset(c.action.hash, c.action.password, later), NO_FAULTS);
            && (Lands(strict, lifetime, s'.db, again) <==> !Lands(strict, lifetime, s.db, c))
            && (Lands(strict, lifetime, s.db, c) <==>
                  c.faults.commit.AckLost? && !Broken(s.db, c) && !(strict && c.faults.audit))
            && (Lands(strict, lifetime, s.db, c) ==> Reported(strict, lifetime, s'.db, again) == Some(InvalidToken))
  {
    var a := c.action;
    var late := T.Hit(s.db.tokens, a.hash, PURPOSE_RESET, later).value;
    assert T.Spendable(s.db.tokens[late], a.hash, PURPOSE_RESET, a.at);
    T.ConsumeIsExact(s.db.tokens, a.hash, PURPOSE_RESET, a.at, later);
  }

  /** The kill switch outranks a magic link without burning it: refused while the account is disabled, the link opens a
      session once it is enabled again. */
  lemma DisabledLinkRevives(strict: bool, lifetime: Duration, s: Store, a: Action, session: S.Id, later: Time)
    requires T.HashesUnique(s.db.tokens) && a.ConfirmMagicLink? && a.at <= later && session !in s.db.sessions
    requires var hit := T.Hit(s.db.tokens, a.hash, PURPOSE_MAGIC_LINK, later);
             hit.Some? && s.db.tokens[hit.value].userId in s.db.users
                 && s.db.users[s.db.tokens[hit.value].userId].disabled
    ensures var u := s.db.tokens[T.Hit(s.db.tokens, a.hash, PURPOSE_MAGIC_LINK, later).value].userId;
            var s1 := Perform(strict, lifetime, s, Call(a, NO_FAULTS));
            var s2 := Perform(strict, lifetime, s1, Call(SetDisabled(u, false), NO_FAULTS));
            var again := Call(ConfirmMagicLink(a.hash, session, later), NO_FAULTS);
            var s3 := Perform(strict, lifetime, s2, again);
            && s1 == s && Reported(strict, lifetime, s.db, Call(a, NO_FAULTS)) == Some(AccountDisabled)
            && Reported(strict, lifetime, s2.db, again).None?
            && session in s3.db.sessions && s3.db.sessions[session].userId == u
            && s3.db.users[u].emailVerified
  {
    var hit := T.Hit(s.db.tokens, a.hash, PURPOSE_MAGIC_LINK, later).value;
    assert T.Spendable(s.db.tokens[hit], a.hash, PURPOSE_MAGIC_LINK, a.at);
    T.ConsumeIsExact(s.db.tokens, a.hash, PURPOSE_MAGIC_LINK, a.at, later);
    forall t | t in s.db.tokens && s.db.tokens[t].hash == a.hash ensures t == hit {
    }
  }

  predicate Reissues(a: Action, hash: string) {
    (a.RequestReset? || a.RequestMagicLink?) && a.link.hash == hash
  }

  /** No token of this hash and purpose can be spent any more. */
  predicate Dead(tokens: T.Tokens, hash: string, purpose: string) {
    forall t :: t in tokens && tokens[t].hash == hash && tokens[t].purpose == purpose ==> tokens[t].consumedAt.Some?
  }

  lemma ActionKeepsDead(db: Db, a: Action, lifetime: Duration, hash: string, purpose: string)
    requires Dead(db.tokens, hash, purpose) && !Reissues(a, hash) && Effect(db, a, lifetime).Ok?
    ensures Dead(Effect(db, a, lifetime).value.0.tokens, hash, purpose)
    ensures !Spends(a, hash, purpose)
  {
  }

  lemma SpendingKills(db: Db, a: Action, lifetime: Duration, hash: string, purpose: string)
    requires T.HashesUnique(db.tokens) && Spends(a, hash, purpose) && Effect(db, a, lifetime).Ok?
    ensures Dead(Effect(db, a, lifetime).value.0.tokens, hash, purpose)
  {
    T.ConsumeIsExact(db.tokens, hash, purpose, a.at, a.at);
  }

  ghost function SpendCount(strict: bool, lifetime: Duration, s: Store, calls: seq<Call>, hash: string,
      purpose: string): nat
    decreases |calls|
  {
    if calls == [] then 0
    else (if Lands(strict, lifetime, s.db, calls[0]) && Spends(calls[0].action, hash, purpose) then 1 else 0)
         + SpendCount(strict, lifetime, Perform(strict, lifetime, s, calls[0]), calls[1..], hash, purpose)
  }

  lemma {:induction false} DeadIsNeverSpent(strict: bool, lifetime: Duration, s: Store, calls: seq<Call>,
      hash: string, purpose: string)
    requires Dead(s.db.tokens, hash, purpose)
    requires forall i :: 0 <= i < |calls| ==> !Reissues(calls[i].action, hash)
    ensures SpendCount(strict, lifetime, s, calls, hash, purpose) == 0
    decreases |calls|
  {
    if calls != [] {
      if Lands(strict, lifetime, s.db, calls[0]) {
        ActionKeepsDead(s.db, calls[0].action, lifetime, hash, purpose);
      }
      DeadIsNeverSpent(strict, lifetime, Perform(strict, lifetime, s, calls[0]), calls[1..], hash, purpose);
    }
  }

  /** Token hashes are drawn at random: a request never draws a stored one. */
  ghost predicate DrawsFresh(strict: bool, lifetime: Duration, s: Store, calls: seq<Call>)
    decreases |calls|
  {
    calls == [] || (
      && (var a := calls[0].action; (a.RequestReset? || a.RequestMagicLink?) ==>
            a.link.tokenId !in s.db.tokens && forall t :: t in s.db.tokens ==> s.db.tokens[t].hash != a.link.hash)
      && DrawsFresh(strict, lifetime, Perform(strict, lifetime, s, calls[0]), calls[1..]))
  }

  lemma ActionKeepsHashes(db: Db, a: Action, lifetime: Duration)
    requires T.HashesUnique(db.tokens) && Effect(db, a, lifetime).Ok?
    requires (a.RequestReset? || a.RequestMagicLink?) ==>
               a.link.tokenId !in db.tokens && forall t :: t in db.tokens ==> db.tokens[t].hash != a.link.hash
    ensures T.HashesUnique(Effect(db, a, lifetime).value.0.tokens)
  {
    match a
    case RequestReset(c, _) => T.IssueKeeps(db.tokens, c.tokenId, c.hash, c.userId, c.purpose, c.ttl, c.issueAt);
    case RequestMagicLink(c, _) => T.IssueKeeps(db.tokens, c.tokenId, c.hash, c.userId, c.purpose, c.ttl, c.issueAt);
    case ConfirmReset(hash, _, at) => T.ConsumeIsExact(db.tokens, hash, PURPOSE_RESET, at, at);
    case ConfirmMagicLink(hash, _, at) => T.ConsumeIsExact(db.tokens, hash, PURPOSE_MAGIC_LINK, at, at);
    case _ =>
  }

  /** Whatever fails and whatever is repeated, at most one confirmation of a link ever takes effect. */
  lemma {:induction false} LinkTakesEffectOnce(strict: bool, lifetime: Duration, s: Store, calls: seq<Call>,
      hash: string, purpose: string)
    requires T.HashesUnique(s.db.tokens) && DrawsFresh(strict, lifetime, s, calls)
    requires forall i :: 0 <= i < |calls| ==> !Reissues(calls[i].action, hash)
    ensures SpendCount(strict, lifetime, s, calls, hash, purpose) <= 1
    decreases |calls|
  {
    if calls != [] {
      var s1 := Perform(strict, lifetime, s, calls[0]);
      if Lands(strict, lifetime, s.db, calls[0]) {
        ActionKeepsHashes(s.db, calls[0].action, lifetime);
        if Spends(calls[0].action, hash, purpose) {
          SpendingKills(s.db, calls[0].action, lifetime, hash, purpose);
          DeadIsNeverSpent(strict, lifetime, s1, calls[1..], hash, purpose);
          return;
        }
      }
      LinkTakesEffectOnce(strict, lifetime, s1, calls[1..], hash, purpose);
    }
  }

  // ---- the handlers outside the scheme --------------------------------------------------

  const PURPOSE_VERIFY := "verify"

  /** Email verification spends its token, marks the account and records the evidence in three separate transactions. */
  datatype VerifyFaults = VerifyFaults(consume: Commit, mark: Commit, audit: Commit)

  function Verified(db: Db, userId: UserId): Db {
    db.(users := Edit(db.users, userId, (x: User) => x.(emailVerified := true)))
  }

  ghost function Verify(s: Store, hash: string, at: Time, f: VerifyFaults): Store {
    var hit := T.Hit(s.db.tokens, hash, PURPOSE_VERIFY, at);
    if hit.None? || f.consume.RolledBack? then s
    else
      var u := s.db.tokens[hit.value].userId;
      var spent := s.db.(tokens := T.Consume(s.db.tokens, hash, PURPOSE_VERIFY, at));
      if f.consume.AckLost? || f.mark.RolledBack? then s.(db := spent)
      else Store(Verified(spent, u),
                 if f.mark.AckLost? || f.audit.RolledBack? then s.evidence
                     else s.evidence + [Evidence(EmailVerified, u)])
  }

  /** Nothing at all, or the link spent, the account verified and the evidence written. */
  ghost predicate AllOrNothing(s: Store, s': Store, hash: string, at: Time, userId: UserId) {
    s' == s || s' == Store(Verified(s.db.(tokens := T.Consume(s.db.tokens, hash, PURPOSE_VERIFY, at)), userId),
                           s.evidence + [Evidence(EmailVerified, userId)])
  }

  /** So it can stop half-way, in strict mode too, and the link is then spent for good: it is all or nothing exactly
      when the consume did not happen, or nothing failed but the acknowledgement of the evidence. */
  lemma VerifyHalfApplies(s: Store, hash: string, at: Time, f: VerifyFaults, later: Time)
    requires T.HashesUnique(s.db.tokens) && T.Hit(s.db.tokens, hash, PURPOSE_VERIFY, at).Some?
    requires var u := s.db.tokens[T.Hit(s.db.tokens, hash, PURPOSE_VERIFY, at).value].userId;
             u in s.db.users && !s.db.users[u].emailVerified
    ensures var u := s.db.tokens[T.Hit(s.db.tokens, hash, PURPOSE_VERIFY, at).value].userId;
            var s' := Verify(s, hash, at, f);
            && (AllOrNothing(s, s', hash, at, u) <==>
                  f.consume.RolledBack? || (f.consume.Acknowledged? && f.mark.Acknowledged? && !f.audit.RolledBack?))
            && (T.Hit(s'.db.tokens, hash, PURPOSE_VERIFY, later).None? <== !f.consume.RolledBack?)
  {
    T.ConsumeIsExact(s.db.tokens, hash, PURPOSE_VERIFY, at, later);
    var hit := T.Hit(s.db.tokens, hash, PURPOSE_VERIFY, at).value;
    var spent := T.Consume(s.db.tokens, hash, PURPOSE_VERIFY, at);
    assert spent[hit].consumedAt != s.db.tokens[hit].consumedAt;
    assert |s.evidence + [Evidence(EmailVerified, s.db.tokens[hit].userId)]| > |s.evidence|;
  }

  /** The administrator's and the service's revocations delete and record in two transactions. */
  datatype Revocation = OfUser(userId: UserId) | OfSession(session: S.Id)

  datatype RevokeFaults = RevokeFaults(revoke: Commit, audit: Commit)

  function Revoked(db: Db, what: Revocation): Db {
    db.(sessions := if what.OfUser? then S.Without(db.sessions, what.userId) else db.sessions - {what.session})
  }

  /** The evidence owed: for a user whatever was deleted, for a session only if there was one. */
  function Owed(db: Db, what: Revocation): Option<Evidence> {
    if what.OfUser? then Some(Evidence(SessionsRevokedAll, what.userId))
    else if what.session in db.sessions then Some(Evidence(SessionRevoked, db.sessions[what.session].userId))
    else None
  }

  function Revoke(s: Store, what: Revocation, f: RevokeFaults): Store {
    if f.revoke.RolledBack? then s
    else
      var owed := Owed(s.db, what);
      Store(Revoked(s.db, what),
            if f.revoke.AckLost? || owed.None? || f.audit.RolledBack? then s.evidence else s.evidence + [owed.value])
  }

  /** They too are all or nothing, in strict mode as well, exactly when the revocation did not happen, had nothing to
      revoke, or was acknowledged and its evidence written. */
  lemma RevokeHalfApplies(s: Store, what: Revocation, f: RevokeFaults)
    ensures var owed, s' := Owed(s.db, what), Revoke(s, what, f);
            (s' == s || (owed.Some? && s' == Store(Revoked(s.db, what), s.evidence + [owed.value]))) <==>
              || f.revoke.RolledBack? || Revoked(s.db, what).sessions == s.db.sessions
              || (f.revoke.Acknowledged? && !f.audit.RolledBack?)
  {
    var owed := Owed(s.db, what);
    if owed.Some? {
      assert |s.evidence + [owed.value]| > |s.evidence|;
    }
    if what.OfSession? && what.session in s.db.sessions {
      assert what.session !in Revoked(s.db, what).sessions;
    }
  }

  /** And a session's lost evidence cannot be made up: the repetition finds nothing to revoke and records nothing. */
  lemma RepeatedRevocationRecordsNothing(s: Store, session: S.Id, f: RevokeFaults, again: RevokeFaults)
    requires !f.revoke.RolledBack?
    ensures var s' := Revoke(s, OfSession(session), f); Revoke(s', OfSession(session), again) == s'
  {
    assert (s.db.sessions - {session}) - {session} == s.db.sessions - {session};
  }

  // ---- what a call answers for ----------------------------------------------------------

  /** The action did what it promises, and its evidence was written or not. */
  ghost predicate Done(lifetime: Duration, s: Store, a: Action, s': Store, owed: bool, written: bool) {
    exists record :: && Fulfils(s.db, a, lifetime, s'.db, record) && (record.Some? <==> owed)
                     && s'.evidence == if record.Some? && written then s.evidence + [record.value] else s.evidence
  }

  /** No error: the action took effect, with its evidence, which only a best-effort audit write that failed can lose. An
      error: nothing happened, unless the acknowledgement was lost, when the action may have taken effect, with its
      evidence in strict mode only. Without a fault only a refusal is an error. */
  ghost predicate Accounted(strict: bool, lifetime: Duration, s: Store, c: Call, s': Store, err: Option<Error>) {
    && (err.None? ==> c.faults.commit.Acknowledged?
                      && (Done(lifetime, s, c.action, s', true, !c.faults.audit)
                          || Done(lifetime, s, c.action, s', false, false))
                      && (strict && c.faults.audit ==> Done(lifetime, s, c.action, s', false, false)))
    && (err.Some? ==>
          || s' == s
          || (c.faults.commit.AckLost? && err == Some(Database)
              && (Done(lifetime, s, c.action, s', true, strict) || Done(lifetime, s, c.action, s', false, false))))
    && (err.Some? && c.faults == NO_FAULTS ==> Refuses(s.db, c.action, err.value))
    && (err == Some(AuditWrite) ==> strict && c.faults.audit)
  }

  lemma CallIsAccounted(strict: bool, lifetime: Duration, s: Store, c: Call)
    requires T.HashesUnique(s.db.tokens)
    ensures Accounted(strict, lifetime, s, c, Perform(strict, lifetime, s, c), Reported(strict, lifetime, s.db, c))
  {
    EffectFulfils(s.db, c.action, lifetime);
    if Lands(strict, lifetime, s.db, c) {
      var r := Effect(s.db, c.action, lifetime).value;
      var s' := Perform(strict, lifetime, s, c);
      assert Done(lifetime, s, c.action, s', r.1.Some?, Evidences(strict, lifetime, s.db, c));
    }
  }

  /** The link spent, the account marked and the evidence written, as far as the transactions got. */
  ghost predicate Verifies(s: Store, hash: string, at: Time, f: VerifyFaults, s': Store) {
    if f.consume.RolledBack? || T.NothingWorks(s.db.tokens, hash, "verify", at) then s' == s
    else exists u ::
      && T.Spends(s.db.tokens, hash, "verify", at, u, s'.db.tokens)
      && s'.db.mails == s.db.mails && s'.db.sessions == s.db.sessions
      && if f.consume.AckLost? || f.mark.RolledBack? then s'.db.users == s.db.users && s'.evidence == s.evidence
         else
           && EmailProven(s.db.users, s'.db.users, u)
           && s'.evidence == if f.mark.AckLost? || f.audit.RolledBack? then s.evidence
                             else s.evidence + [Evidence(EmailVerified, u)]
  }

  lemma VerifyVerifies(s: Store, hash: string, at: Time, f: VerifyFaults)
    requires T.HashesUnique(s.db.tokens)
    ensures Verifies(s, hash, at, f, Verify(s, hash, at, f))
  {
    T.ConsumeSpends(s.db.tokens, hash, PURPOSE_VERIFY, at);
    var hit := T.Hit(s.db.tokens, hash, PURPOSE_VERIFY, at);
    assert hit.Some? ==> T.Works(s.db.tokens[hit.value], hash, "verify", at);
  }

  /** The sessions gone, of the one user or the one named, and the evidence of it as far as the transactions got. */
  ghost predicate Revokes(s: Store, what: Revocation, f: RevokeFaults, s': Store) {
    if f.revoke.RolledBack? then s' == s
    else
      && s'.db.tokens == s.db.tokens && s'.db.mails == s.db.mails && s'.db.users == s.db.users
      && match what
         case OfUser(u) =>
           && SessionsClosed(s.db, s'.db, u)
           && s'.evidence == if f.revoke.AckLost? || f.audit.RolledBack? then s.evidence
                             else s.evidence + [Evidence(SessionsRevokedAll, u)]
         case OfSession(id) =>
           && S.OthersStay(s.db.sessions, s'.db.sessions, id) && id !in s'.db.sessions
           && s'.evidence == if f.revoke.AckLost? || f.audit.RolledBack? || id !in s.db.sessions then s.evidence
                             else s.evidence + [Evidence(SessionRevoked, s.db.sessions[id].userId)]
  }

  lemma RevokeRevokes(s: Store, what: Revocation, f: RevokeFaults)
    ensures Revokes(s, what, f, Revoke(s, what, f))
  {
  }

  // ---- the server -----------------------------------------------------------------------

  class Server {
    const strict: bool
    const lifetime: Duration
    var db: Db
    var evidence: seq<Evidence>

    constructor (strict: bool, lifetime: Duration, db: Db)
      ensures this.strict == strict && this.lifetime == lifetime && this.db == db && evidence == []
    {
      this.strict, this.lifetime, this.db, evidence := strict, lifetime, db, [];
    }

    ghost function State(): Store
      reads this
    {
      Store(db, evidence)
    }

    /** The action on the transaction's view: what it promises, a refusal, or the error of a statement. */
    method Act(a: Action, fails: Option<nat>) returns (r: Result<(Db, Option<Evidence>), Error>)
      requires T.HashesUnique(db.tokens)
      requires fails != Some(0)
      ensures r == if fails.Some? && fails.value < Statements(db, a) then Err(Database) else Effect(db, a, lifetime)
      ensures r.Ok? ==> Fulfils(db, a, lifetime, r.value.0, r.value.1)
      ensures r.Err? ==> (fails.Some? && r.error == Database) || Refuses(db, a, r.error)
    {
      r := InStatements(a, fails);
      EffectFulfils(db, a, lifetime);
    }

    /** Statement by statement. */
    method InStatements(a: Action, fails: Option<nat>) returns (r: Result<(Db, Option<Evidence>), Error>)
      requires T.HashesUnique(db.tokens)
      requires fails != Some(0)
      ensures r == if fails.Some? && fails.value < Statements(db, a) then Err(Database) else Effect(db, a, lifetime)
    {
      var tx := db;
      match a {
        case RequestReset(c, at) =>
          r := QueueLink(tx, c, at, fails, ResetRequested);
        case RequestMagicLink(c, at) =>
          r := QueueLink(tx, c, at, fails, MagicLinkRequested);
        case ConfirmReset(hash, password, at) =>
          if fails == Some(1) { return Err(Database); }
          var tokens, user := T.Spend(tx.tokens, hash, PURPOSE_RESET, at);
          if user.None? { return Err(InvalidToken); }
          tx := tx.(tokens := tokens);
          if fails == Some(2) { return Err(Database); }
          tx := tx.(users := Edit(tx.users, user.value, (x: User) => x.(password := password)));
          if fails == Some(3) { return Err(Database); }
          tx := tx.(sessions := S.Without(tx.sessions, user.value));
          r := Ok((tx, Some(Evidence(ResetCompleted, user.value))));
        case ConfirmMagicLink(hash, session, at) =>
          if fails == Some(1) { return Err(Database); }
          var tokens, user := T.Spend(tx.tokens, hash, PURPOSE_MAGIC_LINK, at);
          if user.None? { return Err(InvalidToken); }
          tx := tx.(tokens := tokens);
          if fails == Some(2) || user.value !in tx.users { return Err(Database); }
          if tx.users[user.value].disabled { return Err(AccountDisabled); }
          if fails == Some(3) { return Err(Database); }
          tx := tx.(users := Edit(tx.users, user.value, (x: User) => x.(emailVerified := true)));
          if fails == Some(4) { return Err(Database); }
          r := Login(tx, session, user.value, lifetime, at);
        case PasswordLogin(userId, session, at) =>
          if fails == Some(1) { return Err(Database); }
          r := Login(tx, session, userId, lifetime, at);
        case LogOut(session) =>
          if fails == Some(1) { return Err(Database); }
          if session !in tx.sessions { return Ok((tx, None)); }
          var userId := tx.sessions[session].userId;
          tx := tx.(sessions := tx.sessions - {session});
          r := Ok((tx, Some(Evidence(Logout, userId))));
        case SetDisabled(userId, flag) =>
          if fails == Some(1) { return Err(Database); }
          tx := tx.(users := Edit(tx.users, userId, (x: User) => x.(disabled := flag)));
          if flag {
            if fails == Some(2) { return Err(Database); }
            tx := tx.(sessions := S.Without(tx.sessions, userId));
          }
          r := Ok((tx, Some(Evidence(if flag then UserDisabled else UserEnabled, userId))));
      }
    }

    method QueueLink(tx: Db, c: LinkRequest, at: Time, fails: Option<nat>, event: Event)
      returns (r: Result<(Db, Option<Evidence>), Error>)
      requires fails != Some(0)
      ensures r == if fails.Some? && fails.value < 5 then Err(Database)
                   else Ok((LinkQueued(tx, c, at), Some(Evidence(event, c.userId))))
    {
      if fails == Some(1) { return Err(Database); }
      var tokens := T.Supersede(tx.tokens, c.userId, c.purpose, c.issueAt);
      if fails == Some(2) { return Err(Database); }
      tokens := tokens[c.tokenId := T.Token(c.userId, c.hash, c.purpose, c.issueAt + c.ttl, None)];
      if fails == Some(3) { return Err(Database); }
      var mails := O.CancelPending(tx.mails, c.userId, c.purpose, at);
      if fails == Some(4) { return Err(Database); }
      mails := mails[c.id := O.NewRow(L.LinkMail(c), c.payload, at)];
      return Ok((tx.(tokens := tokens, mails := mails), Some(Evidence(event, c.userId))));
    }

    /** Begin, act, write the evidence where the mode wants it, commit. */
    method AuditedTx(c: Call) returns (err: Option<Error>)
      requires T.HashesUnique(db.tokens)
      modifies this
      ensures State() == Perform(strict, lifetime, old(State()), c)
      ensures err == Reported(strict, lifetime, old(db), c)
      ensures Accounted(strict, lifetime, old(State()), c, State(), err)
    {
      CallIsAccounted(strict, lifetime, State(), c);
      if c.faults.stmt == Some(0) {
        return Some(Database);
      }
      var acted := Act(c.action, c.faults.stmt);
      if acted.Err? {
        return Some(acted.error);
      }
      var tx, record, txEvidence := acted.value.0, acted.value.1, evidence;
      if strict && record.Some? {
        if c.faults.audit {
          return Some(AuditWrite);
        }
        txEvidence := txEvidence + [record.value];
      }
      if c.faults.commit.RolledBack? {
        return Some(Database);
      }
      db, evidence := tx, txEvidence;
      if c.faults.commit.AckLost? {
        return Some(Database);
      }
      if !strict && record.Some? && !c.faults.audit {
        evidence := evidence + [record.value];
      }
      return None;
    }

    method HandleVerify(hash: string, at: Time, f: VerifyFaults) returns (ok: bool)
      requires T.HashesUnique(db.tokens)
      modifies this
      ensures State() == Verify(old(State()), hash, at, f)
      ensures Verifies(old(State()), hash, at, f, State())
      ensures ok <==> f.consume.Acknowledged? && !T.NothingWorks(old(db).tokens, hash, "verify", at)
                      && f.mark.Acknowledged? && (f.audit.Acknowledged? || !strict)
    {
      VerifyVerifies(State(), hash, at, f);
      T.ConsumeSpends(db.tokens, hash, PURPOSE_VERIFY, at);
      if f.consume.RolledBack? {
        return false;
      }
      var tokens, user := T.Spend(db.tokens, hash, PURPOSE_VERIFY, at);
      if user.None? {
        return false;
      }
      db := db.(tokens := tokens);
      if f.consume.AckLost? || f.mark.RolledBack? {
        return false;
      }
      db := db.(users := Edit(db.users, user.value, (x: User) => x.(emailVerified := true)));
      if f.mark.AckLost? {
        return false;
      }
      if !f.audit.RolledBack? {
        evidence := evidence + [Evidence(EmailVerified, user.value)];
      }
      return f.audit.Acknowledged? || !strict;
    }

    method HandleRevoke(what: Revocation, f: RevokeFaults) returns (ok: bool)
      modifies this
      ensures State() == Revoke(old(State()), what, f)
      ensures Revokes(old(State()), what, f, State())
      ensures ok <==> f.revoke.Acknowledged? && (f.audit.Acknowledged? || !strict
                                                 || (what.OfSession? && what.session !in old(db).sessions))
    {
      RevokeRevokes(State(), what, f);
      if f.revoke.RolledBack? {
        return false;
      }
      var owed := Owed(db, what);
      match what {
        case OfUser(userId) => db := db.(sessions := S.Without(db.sessions, userId));
        case OfSession(session) => db := db.(sessions := db.sessions - {session});
      }
      if f.revoke.AckLost? {
        return false;
      }
      if owed.None? {
        return true;
      }
      if !f.audit.RolledBack? {
        evidence := evidence + [owed.value];
      }
      return f.audit.Acknowledged? || !strict;
    }
  }
}
