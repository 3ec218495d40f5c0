/** What the statements on email_outbox promise, field by field: the readings a maintainer checks the functions of
    OutboxTable against. */
module OutboxEffects {
  import opened Base
  import opened OutboxTable
  import opened Jobs
  import K = Keyring
  import T = TokenTable

  /** What is said to whom. */
  predicate SameJob(r: Row, r': Row) {
    && r'.userId == r.userId && r'.tokenId == r.tokenId && r'.provider == r.provider && r'.purpose == r.purpose
    && r'.recipient == r.recipient && r'.sender == r.sender && r'.subject == r.subject
    && r'.keyId == r.keyId && r'.sendBefore == r.sendBefore
  }

  /** And what the provider has told about it. */
  predicate SameMail(r: Row, r': Row) {
    && SameJob(r, r')
    && r'.providerMessageId == r.providerMessageId && r'.acceptedAt == r.acceptedAt && r'.deliveredAt == r.deliveredAt
  }

  predicate SameStamps(r: Row, r': Row) {
    r'.failedAt == r.failedAt && r'.canceledAt == r.canceledAt && r'.expiredAt == r.expiredAt
  }

  predicate Unleased(r: Row) {
    r.leaseToken.None? && r.leaseUntil.None?
  }

  /** Out of pending for good: the payload and the lease are gone. */
  predicate Closed(r: Row, r': Row, now: Time) {
    && SameMail(r, r') && r'.attempts == r.attempts && r'.availableAt == r.availableAt
    && r'.nonce.None? && r'.ciphertext.None? && Unleased(r') && r'.updatedAt == now
  }

  predicate ClosedExpired(r: Row, r': Row, reason: Code, now: Time) {
    && Closed(r, r', now) && r'.status.Expired? && r'.lastError == Some(reason)
    && r'.expiredAt == Some(now) && r'.failedAt == r.failedAt && r'.canceledAt == r.canceledAt
  }

  predicate ClosedFailed(r: Row, r': Row, reason: Code, now: Time) {
    && Closed(r, r', now) && r'.status.Failed? && r'.lastError == Some(reason)
    && r'.failedAt == Some(now) && r'.canceledAt == r.canceledAt && r'.expiredAt == r.expiredAt
  }

  predicate ClosedCanceled(r: Row, r': Row, reason: Code, now: Time) {
    && Closed(r, r', now) && r'.status.Canceled? && r'.lastError == Some(reason)
    && r'.canceledAt == Some(now) && r'.failedAt == r.failedAt && r'.expiredAt == r.expiredAt
  }

  /** A retirement writes the stamp of its own status. */
  predicate Retires(r: Row, r': Row, status: Status, reason: Code, now: Time) {
    match status
    case Expired => ClosedExpired(r, r', reason, now)
    case Failed => ClosedFailed(r, r', reason, now)
    case Canceled => ClosedCanceled(r, r', reason, now)
    case _ => Closed(r, r', now)
  }

  lemma RetireRowRetires(r: Row, status: Status, reason: Code, now: Time)
    ensures Retires(r, RetireRow(r, status, reason, now), status, reason, now)
  {
  }

  ghost predicate RetiresAll(rows: Rows, ids: seq<Id>, status: Status, reason: Code, now: Time, rows': Rows) {
    && rows'.Keys == rows.Keys
    && forall id :: id in rows ==>
         if id in ids then Retires(rows[id], rows'[id], status, reason, now) else rows'[id] == rows[id]
  }

  // ---- enqueue --------------------------------------------------------------------------

  /** A new row carries its input, ready at once and with nothing behind it. */
  predicate Fresh(input: QueueInput, now: Time, r: Row) {
    && r.userId == input.userId && r.provider == input.provider && r.purpose == input.purpose
    && r.tokenId == (if input.tokenId == "" then None else Some(input.tokenId))
    && r.recipient == input.to && r.sender == input.from && r.subject == input.subject
    && r.sendBefore == input.sendBefore
    && r.status.Pending? && r.nonce.Some? && r.ciphertext.Some?
    && r.attempts == 0 && r.availableAt == now && r.updatedAt == now && Unleased(r)
    && r.providerMessageId.None? && r.lastError.None? && r.acceptedAt.None? && r.deliveredAt.None?
    && r.failedAt.None? && r.canceledAt.None? && r.expiredAt.None?
  }

  /** The new mail replaces the pending ones of the same user and purpose, and no other. */
  predicate Enqueues(rows: Rows, id: Id, input: QueueInput, now: Time, rows': Rows) {
    && rows'.Keys == rows.Keys + {id} && Fresh(input, now, rows'[id])
    && forall x :: x in rows && x != id ==>
         if rows[x].status.Pending? && rows[x].userId == input.userId && rows[x].purpose == input.purpose
         then ClosedCanceled(rows[x], rows'[x], Superseded, now)
         else rows'[x] == rows[x]
  }

  lemma QueueEnqueues(rows: Rows, id: Id, input: QueueInput, p: K.Payload, now: Time)
    ensures Enqueues(rows, id, input, now, Queue(rows, id, input, p, now))
  {
  }

  // ---- claim ----------------------------------------------------------------------------

  /** Leased: one more attempt made, two minutes to make it in. */
  predicate Leases(r: Row, r': Row, lease: Lease, now: Time) {
    && SameMail(r, r') && SameStamps(r, r') && r'.status.Pending?
    && r'.nonce == r.nonce && r'.ciphertext == r.ciphertext
    && r'.availableAt == r.availableAt && r'.lastError == r.lastError && r'.updatedAt == now
    && r'.attempts == r.attempts + 1 && r'.leaseToken == Some(lease) && r'.leaseUntil == Some(now + 2 * MINUTE)
  }

  predicate LinkDead(r: Row, tokens: T.Tokens, now: Time) {
    r.tokenId.Some? && !(r.tokenId.value in tokens
                         && tokens[r.tokenId.value].consumedAt.None? && tokens[r.tokenId.value].expiresAt > now)
  }

  /** Worth sending: in its window, with attempts left and a link that works, if it carries one. */
  predicate CanSend(r: Row, tokens: T.Tokens, dbNow: Time, appNow: Time) {
    r.sendBefore > appNow && r.attempts < 12 && !LinkDead(r, tokens, dbNow)
  }

  /** What a claim makes of one candidate. */
  predicate Claims(r: Row, r': Row, tokens: T.Tokens, lease: Lease, dbNow: Time, appNow: Time) {
    if r.sendBefore <= appNow then ClosedExpired(r, r', SendWindowElapsed, dbNow)
    else if r.attempts >= 12 then ClosedFailed(r, r', AttemptsExhausted, dbNow)
    else if LinkDead(r, tokens, dbNow) then ClosedCanceled(r, r', TokenInactive, dbNow)
    else Leases(r, r', lease, dbNow)
  }

  /** Every candidate by its own case; nothing else moves. */
  predicate ClaimsAll(rows: Rows, cands: seq<Id>, tokens: T.Tokens, leases: map<Id, Lease>, dbNow: Time, appNow: Time,
                      rows': Rows)
    requires forall id :: id in cands ==> id in leases
  {
    && rows'.Keys == rows.Keys
    && forall id :: id in rows ==>
         if id in cands then Claims(rows[id], rows'[id], tokens, leases[id], dbNow, appNow) else rows'[id] == rows[id]
  }

  lemma ClaimRowClaims(r: Row, tokens: T.Tokens, lease: Lease, dbNow: Time, appNow: Time)
    requires r.status.Pending?
    ensures Claims(r, ClaimRow(r, tokens, lease, dbNow, appNow), tokens, lease, dbNow, appNow)
  {
  }

  lemma ClaimClaimsAll(rows: Rows, cands: seq<Id>, tokens: T.Tokens, leases: map<Id, Lease>, dbNow: Time, appNow: Time)
    requires forall id :: id in cands ==> id in leases && id in rows && rows[id].status.Pending?
    ensures ClaimsAll(rows, cands, tokens, leases, dbNow, appNow, Claim(rows, cands, tokens, leases, dbNow, appNow))
  {
    forall id | id in cands
      ensures Claims(rows[id], Claim(rows, cands, tokens, leases, dbNow, appNow)[id], tokens, leases[id], dbNow, appNow)
    {
      ClaimRowClaims(rows[id], tokens, leases[id], dbNow, appNow);
    }
  }

  /** Leased at `dbNow` and failed at `now` because its payload does not open. */
  predicate Unreadable(r: Row, r': Row, now: Time) {
    && SameMail(r, r') && r'.attempts == r.attempts + 1 && r'.availableAt == r.availableAt
    && r'.nonce.None? && r'.ciphertext.None? && Unleased(r') && r'.updatedAt == now
    && r'.status.Failed? && r'.lastError == Some(DecryptFailed)
    && r'.failedAt == Some(now) && r'.canceledAt == r.canceledAt && r'.expiredAt == r.expiredAt
  }

  predicate Readable(id: Id, r: Row, kr: K.Keyring) {
    r.nonce.Some? && r.ciphertext.Some? && OpenBody(id, r, kr).Ok?
  }

  /** A claim with its decryption: a row worth sending whose payload does not open is failed, unless that update fails
      too. */
  ghost predicate ClaimsReadable(rows: Rows, cands: seq<Id>, tokens: T.Tokens, leases: map<Id, Lease>, dbNow: Time,
                                 appNow: Time, kr: K.Keyring, now: Time, stuck: set<Id>, rows': Rows)
    requires forall id :: id in cands ==> id in leases
  {
    && rows'.Keys == rows.Keys
    && forall id :: id in rows ==>
         if id !in cands then rows'[id] == rows[id]
         else if CanSend(rows[id], tokens, dbNow, appNow) && !Readable(id, rows[id], kr) && id !in stuck
         then Unreadable(rows[id], rows'[id], now)
         else Claims(rows[id], rows'[id], tokens, leases[id], dbNow, appNow)
  }

  /** A job carries what its row says, under the lease the row was given. */
  predicate Carries(j: Job, r: Row, lease: Lease, dbNow: Time, kr: K.Keyring) {
    && j.userId == r.userId && j.provider == r.provider && j.purpose == r.purpose && j.sendBefore == r.sendBefore
    && j.attempt == r.attempts + 1 && j.leaseToken == lease && j.leaseUntil == dbNow + 2 * MINUTE
    && j.message.to == r.recipient && j.message.subject == r.subject
    && Readable(j.id, r, kr) && Ok(j.message.body) == OpenBody(j.id, r, kr)
  }

  /** One job for every candidate that can be sent and read, in candidate order, and none else. */
  ghost predicate HandsOut(rows: Rows, cands: seq<Id>, tokens: T.Tokens, leases: map<Id, Lease>, dbNow: Time,
                           appNow: Time, kr: K.Keyring, out: seq<Job>)
    requires forall id :: id in cands ==> id in leases && id in rows
  {
    && DistinctJobs(out)
    && InOrderOf(cands, out)
    && (forall j :: j in out ==> && j.id in cands && CanSend(rows[j.id], tokens, dbNow, appNow)
                                 && Carries(j, rows[j.id], leases[j.id], dbNow, kr))
    && (forall id :: id in cands && CanSend(rows[id], tokens, dbNow, appNow) && Readable(id, rows[id], kr) ==>
          exists j :: j in out && j.id == id)
  }

  /** Ready, and in nobody's hands. */
  predicate DueAt(r: Row, dbNow: Time) {
    r.status.Pending? && r.availableAt <= dbNow && (r.leaseUntil.Some? ==> r.leaseUntil.value <= dbNow)
  }

  lemma SiftHandsOut(rows: Rows, cands: seq<Id>, tokens: T.Tokens, leases: map<Id, Lease>, dbNow: Time, appNow: Time,
                     kr: K.Keyring)
    requires TableInv(rows) && Distinct(cands)
    requires forall id :: id in cands ==> id in leases && id in rows && rows[id].status.Pending?
    ensures var ids := LeasedIds(rows, cands, tokens, dbNow, appNow);
            && Openable(rows, ids, leases)
            && HandsOut(rows, cands, tokens, leases, dbNow, appNow, kr, Sift(rows, ids, leases, kr, dbNow, true))
  {
    var ids := LeasedIds(rows, cands, tokens, dbNow, appNow);
    LeasedAreLeasable(rows, cands, tokens, dbNow, appNow);
    forall id | id in ids ensures rows[id].nonce.Some? && rows[id].ciphertext.Some? {
      assert RowInv(rows[id]);
    }
    SiftIs(rows, ids, leases, kr, dbNow, true);
    SiftIs(rows, ids, leases, kr, dbNow, false);
    var out := Sift(rows, ids, leases, kr, dbNow, true);
    JobsInOrder(rows, cands, tokens, leases, kr, dbNow, appNow);
    forall j | j in out
      ensures j.id in cands && CanSend(rows[j.id], tokens, dbNow, appNow)
      ensures Carries(j, rows[j.id], leases[j.id], dbNow, kr)
    {
      assert IsSifted(rows, ids, leases, kr, dbNow, true, j);
    }
    forall id | id in cands && CanSend(rows[id], tokens, dbNow, appNow) && Readable(id, rows[id], kr)
      ensures exists j :: j in out && j.id == id
    {
      EverySide(rows, ids, leases, kr, dbNow, id);
      var j :| (j in out || j in Sift(rows, ids, leases, kr, dbNow, false)) && j.id == id;
      assert IsSifted(rows, ids, leases, kr, dbNow, j in out, j);
    }
  }

  // ---- finalize -------------------------------------------------------------------------

  /** Nothing but what provider events say can differ. */
  predicate Heard(r: Row, r': Row) {
    && SameJob(r, r') && r'.attempts == r.attempts && r'.availableAt == r.availableAt
    && r'.providerMessageId == r.providerMessageId && r'.acceptedAt == r.acceptedAt
    && r'.canceledAt == r.canceledAt && r'.expiredAt == r.expiredAt
    && r'.nonce.None? && r'.ciphertext.None? && Unleased(r')
    && (r'.status.Accepted? || r'.status.Delivered? || r'.status.Failed?)
  }

  /** Handed to the provider, who knows it by `m`; what its events have said since is left open. */
  predicate HandedOver(r: Row, r': Row, m: string, now: Time) {
    && SameJob(r, r') && r'.attempts == r.attempts && r'.availableAt == r.availableAt
    && r'.canceledAt == r.canceledAt && r'.expiredAt == r.expiredAt
    && r'.providerMessageId == Some(m) && r'.acceptedAt == Some(now)
    && r'.nonce.None? && r'.ciphertext.None? && Unleased(r')
    && (r'.status.Accepted? || r'.status.Delivered? || r'.status.Failed?)
  }

  predicate Accepts(r: Row, r': Row, m: string, now: Time) {
    && HandedOver(r, r', m, now) && r'.status.Accepted? && r'.lastError.None? && r'.updatedAt == now
    && r'.deliveredAt == r.deliveredAt && r'.failedAt == r.failedAt
  }

  /** Back in the queue: the lease is given up, the payload and the attempts made are kept. */
  predicate Requeues(r: Row, r': Row, code: Code, at: Time, now: Time) {
    && SameMail(r, r') && SameStamps(r, r') && r'.status == r.status && r'.attempts == r.attempts
    && r'.nonce == r.nonce && r'.ciphertext == r.ciphertext && Unleased(r') && r'.updatedAt == now
    && r'.availableAt == at && r'.lastError == Some(code)
  }

  predicate Records(r: Row, r': Row, out: Outcome, now: Time) {
    match out
    case OutcomeAccepted(m) => Accepts(r, r', m, now)
    case OutcomeRetry(code, retryIn) => Requeues(r, r', code, now + retryIn, now)
    case OutcomeFailed(code) => ClosedFailed(r, r', code, now)
  }

  /** A finalize records its outcome on the one row that holds the lease, and touches no other. */
  lemma FinalizeRecords(rows: Rows, id: Id, lease: Lease, out: Outcome, now: Time)
    ensures var rows' := Finalize(rows, id, lease, out, now);
            && rows'.Keys == rows.Keys
            && (forall x :: x in rows && x != id ==> rows'[x] == rows[x])
            && (id in rows ==>
                  if rows[id].leaseToken == Some(lease) && (out.OutcomeRetry? ==> rows[id].status.Pending?)
                  then Records(rows[id], rows'[id], out, now)
                  else rows'[id] == rows[id])
  {
  }

  /** A finalize whose update commits: the row holding the lease records the outcome, and with a replay also what the
      provider has told about the message since; no other row moves but those of that message. */
  ghost predicate Settles(rows: Rows, id: Id, lease: Lease, out: Outcome, now: Time, replayed: bool, rows': Rows) {
    && rows'.Keys == rows.Keys
    && if !(id in rows && rows[id].leaseToken == Some(lease) && (out.OutcomeRetry? ==> rows[id].status.Pending?))
       then rows' == rows
       else if replayed && out.OutcomeAccepted? && out.providerMessageId != ""
       then && HandedOver(rows[id], rows'[id], out.providerMessageId, now)
            && forall x :: x in rows && x != id ==>
                 if rows[x].providerMessageId == Some(out.providerMessageId) then Heard(rows[x], rows'[x])
                 else rows'[x] == rows[x]
       else && Records(rows[id], rows'[id], out, now)
            && forall x :: x in rows && x != id ==> rows'[x] == rows[x]
  }

  // ---- provider events ------------------------------------------------------------------

  predicate Terminal(typ: EventType) {
    typ.EventBounced? || typ.EventComplained? || typ.EventFailed? || typ.EventSuppressed?
  }

  /** What one event does to a row the provider knows. */
  predicate Hears(r: Row, r': Row, typ: EventType, at: Time, now: Time) {
    && Heard(r, r')
    && r'.deliveredAt == (if typ.EventDelivered? && r.deliveredAt.None? then Some(at) else r.deliveredAt)
    && r'.failedAt == (if Terminal(typ) && r.failedAt.None? then Some(at) else r.failedAt)
    && r'.lastError == (if Terminal(typ) || (typ.EventDelayed? && r.status.Accepted?) then Some(Provider(typ))
                        else r.lastError)
    && r'.status == (if Terminal(typ) then Failed
                     else if typ.EventDelivered? && r.status.Accepted? then Delivered
                     else r.status)
    && (r'.updatedAt == if Terminal(typ) || typ.EventDelivered? || (typ.EventDelayed? && r.status.Accepted?) then now
                        else r.updatedAt)
  }

  lemma ReduceHears(rows: Rows, m: string, typ: EventType, at: Time, now: Time)
    requires TableInv(rows)
    ensures var rows' := Reduce(rows, m, typ, at, now);
            && rows'.Keys == rows.Keys
            && forall id :: id in rows ==>
                 if rows[id].providerMessageId == Some(m) then Hears(rows[id], rows'[id], typ, at, now)
                 else rows'[id] == rows[id]
  {
    forall id | id in rows && rows[id].providerMessageId == Some(m)
      ensures Hears(rows[id], Reduce(rows, m, typ, at, now)[id], typ, at, now)
    {
      assert RowInv(rows[id]);
    }
  }

  // ---- purge ----------------------------------------------------------------------------

  /** What is left: jobs whose window closed no longer ago than the cutoff, and finished ones changed since. */
  ghost predicate Keeps(rows: Rows, rows': Rows, cutoff: Time) {
    && (forall id :: id in rows' <==>
          && id in rows
          && (if rows[id].status.Pending? then rows[id].sendBefore >= cutoff else rows[id].updatedAt >= cutoff))
    && (forall id :: id in rows' ==> rows'[id] == rows[id])
  }

  lemma PurgeIsKeeps(rows: Rows, cutoff: Time)
    ensures Keeps(rows, Purge(rows, cutoff), cutoff)
  {
  }
}
