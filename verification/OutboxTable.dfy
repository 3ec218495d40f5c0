/** The email_outbox table: its row, the row invariant, and one function per SQL statement that
    writes it. The class Outbox and every protocol module run exactly these statements. */
module OutboxTable {
  import opened Base
  import K = Keyring
  import T = TokenTable

  type Id = string
  type Lease = string

  datatype Status = Pending | Accepted | Delivered | Failed | Canceled | Expired

  datatype EventType =
    | EventSent | EventDelivered | EventDelayed
    | EventBounced | EventComplained | EventFailed | EventSuppressed
    | EventOther(name: string)

  /** The bounded vocabulary of last_error. */
  datatype Code =
    | SendWindowElapsed | AttemptsExhausted | Superseded | TokenInactive | DecryptFailed
    | IdempotencyClash | Transport | Adapter(name: string)
    | Provider(event: EventType)

  datatype Row = Row(
    userId: string, tokenId: Option<T.TokenId>, provider: string, purpose: string,
    recipient: string, sender: string, subject: string,
    keyId: string, nonce: Option<string>, ciphertext: Option<K.Ciphertext>,
    status: Status, attempts: nat, availableAt: Time,
    leaseToken: Option<Lease>, leaseUntil: Option<Time>,
    providerMessageId: Option<string>, lastError: Option<Code>,
    sendBefore: Time, updatedAt: Time,
    acceptedAt: Option<Time>, deliveredAt: Option<Time>, failedAt: Option<Time>,
    canceledAt: Option<Time>, expiredAt: Option<Time>)

  type Rows = map<Id, Row>

  datatype QueueInput = QueueInput(
    userId: string, tokenId: string, to: string, from: string, subject: string, body: string,
    purpose: string, provider: string, sendBefore: Time)

  datatype Outcome =
    | OutcomeAccepted(providerMessageId: string)
    | OutcomeRetry(code: Code, retryIn: Duration)
    | OutcomeFailed(code: Code)

  const MAX_ATTEMPTS: nat := 12
  const LEASE_DURATION: Duration := 2 * MINUTE

  function PayloadAad(id: string, provider: string, purpose: string): string {
    id + "|" + provider + "|" + purpose
  }

  // ---- invariant of one row -------------------------------------------------------------

  /** The payload and the lease exist only while the job is pending, and the status can be read
      off the timestamps: a row that the provider knows about has left pending for good. */
  predicate RowInv(r: Row) {
    && (r.status.Pending? <==> r.nonce.Some?)
    && (r.status.Pending? <==> r.ciphertext.Some?)
    && (r.leaseToken.Some? ==> r.status.Pending?)
    && (r.leaseToken.Some? <==> r.leaseUntil.Some?)
    && (r.providerMessageId.Some? <==> r.acceptedAt.Some?)
    && (r.providerMessageId.Some? ==> r.status.Accepted? || r.status.Delivered? || r.status.Failed?)
    && (r.status.Accepted? || r.status.Delivered? ==> r.providerMessageId.Some?)
    && (r.status.Delivered? ==> r.deliveredAt.Some?)
    && (r.deliveredAt.Some? ==> r.status.Delivered? || r.status.Failed?)
    && (r.status.Failed? <==> r.failedAt.Some?)
    && (r.status.Canceled? <==> r.canceledAt.Some?)
    && (r.status.Expired? <==> r.expiredAt.Some?)
    && r.attempts <= MAX_ATTEMPTS
  }

  ghost predicate TableInv(rows: Rows) {
    forall id :: id in rows ==> RowInv(rows[id])
  }

  /** The associated data names one row: with no bar in the id and none in the purpose, no two different
      (id, provider, purpose) triples share it, whatever the provider is called. */
  lemma AadInjective(id: string, provider: string, purpose: string, id': string, provider': string, purpose': string)
    requires '|' !in id && '|' !in id' && '|' !in purpose && '|' !in purpose'
    requires PayloadAad(id, provider, purpose) == PayloadAad(id', provider', purpose')
    ensures id == id' && provider == provider' && purpose == purpose'
  {
    var s := PayloadAad(id, provider, purpose);
    BarAt(id, provider, purpose);
    BarAt(id', provider', purpose');
    assert |id| == |id'| && |purpose| == |purpose'|;
    var k := |s| - |purpose| - 1;
    assert id == s[..|id|] == id' && purpose == s[k + 1..] == purpose' && provider == s[|id| + 1..k] == provider';
  }

  lemma BarAt(id: string, provider: string, purpose: string)
    requires '|' !in id && '|' !in purpose
    ensures var s := PayloadAad(id, provider, purpose);
            var k := |s| - |purpose| - 1;
            && |s| == |id| + |provider| + |purpose| + 2
            && s[|id|] == '|' && s[k] == '|'
            && (forall i :: 0 <= i < |id| ==> s[i] != '|')
            && (forall i :: k < i < |s| ==> s[i] != '|')
            && s[..|id|] == id && s[|id| + 1..k] == provider && s[k + 1..] == purpose
  {
    var s := PayloadAad(id, provider, purpose);
    var k := |s| - |purpose| - 1;
    assert forall i :: 0 <= i < |id| ==> s[i] == id[i];
    assert forall i :: k < i < |s| ==> s[i] == purpose[i - k - 1];
  }

  // ---- enqueue --------------------------------------------------------------------------

  function NewRow(input: QueueInput, p: K.Payload, now: Time): Row {
    Row(input.userId, if input.tokenId != "" then Some(input.tokenId) else None, input.provider, input.purpose,
        input.to, input.from, input.subject, p.keyId, Some(p.nonce), Some(p.ciphertext),
        Pending, 0, now, None, None, None, None, input.sendBefore, now, None, None, None, None, None)
  }

  function SupersedeRow(r: Row, now: Time): Row {
    r.(status := Canceled, canceledAt := Some(now), updatedAt := now, nonce := None, ciphertext := None,
       leaseToken := None, leaseUntil := None, lastError := Some(Superseded))
  }

  function CancelPending(rows: Rows, userId: string, purpose: string, now: Time): Rows {
    map id | id in rows ::
      if rows[id].userId == userId && rows[id].purpose == purpose && rows[id].status.Pending?
      then SupersedeRow(rows[id], now) else rows[id]
  }

  function Queue(rows: Rows, id: Id, input: QueueInput, p: K.Payload, now: Time): Rows {
    CancelPending(rows, input.userId, input.purpose, now)[id := NewRow(input, p, now)]
  }

  // ---- claim ----------------------------------------------------------------------------

  predicate Eligible(r: Row, provider: string, now: Time) {
    && r.status.Pending? && r.provider == provider && r.availableAt <= now
    && (r.leaseUntil.None? || r.leaseUntil.value <= now)
  }

  /** What the candidate query may return: the `limit` earliest eligible rows no other transaction
      has locked, in order of readiness. Which rows are locked is the environment's choice. */
  ghost predicate Selected(rows: Rows, provider: string, limit: nat, locked: set<Id>, now: Time, cands: seq<Id>) {
    && |cands| <= limit
    && (forall i :: 0 <= i < |cands| ==>
          cands[i] in rows && cands[i] !in locked && Eligible(rows[cands[i]], provider, now))
    && (forall i, j :: 0 <= i < j < |cands| ==>
          cands[i] != cands[j] && rows[cands[i]].availableAt <= rows[cands[j]].availableAt)
    && (forall id :: id in rows && id !in locked && Eligible(rows[id], provider, now) && id !in cands ==>
          |cands| == limit && forall i :: 0 <= i < |cands| ==> rows[cands[i]].availableAt <= rows[id].availableAt)
  }

  datatype Verdict = WindowElapsed | Exhausted | Dead | Leasable

  function Judge(r: Row, tokens: T.Tokens, dbNow: Time, appNow: Time): Verdict {
    if r.sendBefore <= appNow then WindowElapsed
    else if r.attempts >= MAX_ATTEMPTS then Exhausted
    else if r.tokenId.Some? && !T.LiveIn(tokens, r.tokenId, dbNow) then Dead
    else Leasable
  }

  function RetireRow(r: Row, status: Status, reason: Code, now: Time): Row {
    r.(status := status,
       failedAt := if status.Failed? then Some(now) else r.failedAt,
       expiredAt := if status.Expired? then Some(now) else r.expiredAt,
       canceledAt := if status.Canceled? then Some(now) else r.canceledAt,
       lastError := Some(reason), nonce := None, ciphertext := None,
       leaseToken := None, leaseUntil := None, updatedAt := now)
  }

  function LeaseRow(r: Row, lease: Lease, now: Time): Row {
    r.(attempts := r.attempts + 1, leaseToken := Some(lease), leaseUntil := Some(now + LEASE_DURATION),
        updatedAt := now)
  }

  function ClaimRow(r: Row, tokens: T.Tokens, lease: Lease, dbNow: Time, appNow: Time): Row {
    match Judge(r, tokens, dbNow, appNow)
    case WindowElapsed => RetireRow(r, Expired, SendWindowElapsed, dbNow)
    case Exhausted => RetireRow(r, Failed, AttemptsExhausted, dbNow)
    case Dead => RetireRow(r, Canceled, TokenInactive, dbNow)
    case Leasable => LeaseRow(r, lease, dbNow)
  }

  /** The whole claim transaction: every candidate is retired or leased, nothing else moves. */
  function Claim(rows: Rows, cands: seq<Id>, tokens: T.Tokens, leases: map<Id, Lease>, dbNow: Time, appNow: Time): Rows
    requires forall id :: id in cands ==> id in leases
  {
    map id | id in rows :: if id in cands then ClaimRow(rows[id], tokens, leases[id], dbNow, appNow) else rows[id]
  }

  // ---- finalize -------------------------------------------------------------------------

  /** The WHERE clause of each finalize. Only the retry tests the status. */
  predicate Matches(rows: Rows, id: Id, lease: Lease, out: Outcome) {
    id in rows && rows[id].leaseToken == Some(lease) && (out.OutcomeRetry? ==> rows[id].status.Pending?)
  }

  function FinalizeRow(r: Row, out: Outcome, now: Time): Row {
    match out
    case OutcomeAccepted(m) =>
      r.(status := Accepted, acceptedAt := Some(now), providerMessageId := Some(m), nonce := None, ciphertext := None,
         lastError := None, leaseToken := None, leaseUntil := None, updatedAt := now)
    case OutcomeRetry(code, retryIn) =>
      r.(availableAt := now + retryIn, lastError := Some(code), leaseToken := None, leaseUntil := None,
          updatedAt := now)
    case OutcomeFailed(code) =>
      r.(status := Failed, failedAt := Some(now), lastError := Some(code), nonce := None, ciphertext := None,
         leaseToken := None, leaseUntil := None, updatedAt := now)
  }

  function Finalize(rows: Rows, id: Id, lease: Lease, out: Outcome, now: Time): Rows {
    if Matches(rows, id, lease, out) then rows[id := FinalizeRow(rows[id], out, now)] else rows
  }

  // ---- provider events ------------------------------------------------------------------

  function ReduceRow(r: Row, typ: EventType, at: Time, now: Time): Row {
    match typ
    case EventDelivered =>
      r.(deliveredAt := Coalesce(r.deliveredAt, at),
         status := if r.status.Pending? || r.status.Accepted? then Delivered else r.status,
         nonce := None, ciphertext := None, updatedAt := now)
    case EventSent =>
      if r.status.Pending? then r.(status := Accepted, acceptedAt := Coalesce(r.acceptedAt, at), updatedAt := now)
          else r
    case EventDelayed =>
      if r.status.Pending? || r.status.Accepted? then r.(lastError := Some(Provider(typ)), updatedAt := now) else r
    case EventOther(_) => r
    case _ =>
      r.(status := Failed, failedAt := Coalesce(r.failedAt, at), lastError := Some(Provider(typ)),
         nonce := None, ciphertext := None, updatedAt := now)
  }

  function Reduce(rows: Rows, m: string, typ: EventType, at: Time, now: Time): Rows {
    map id | id in rows :: if rows[id].providerMessageId == Some(m) then ReduceRow(rows[id], typ, at, now) else rows[id]
  }

  // ---- maintenance ----------------------------------------------------------------------

  predicate Purgeable(r: Row, cutoff: Time) {
    (!r.status.Pending? && r.updatedAt < cutoff) || (r.status.Pending? && r.sendBefore < cutoff)
  }

  function Purge(rows: Rows, cutoff: Time): Rows {
    map id | id in rows && !Purgeable(rows[id], cutoff) :: rows[id]
  }

  function ForgetRow(r: Row, kept: T.Tokens): Row {
    if r.tokenId.Some? && r.tokenId.value !in kept then r.(tokenId := None) else r
  }

  /** ON DELETE SET NULL: rows forget the tokens that were deleted. */
  function ForgetTokens(rows: Rows, kept: T.Tokens): Rows {
    map id | id in rows :: ForgetRow(rows[id], kept)
  }

  // ---- what every statement keeps -------------------------------------------------------

  /** How any statement, or any run of statements, may change the table: a row that is neither new nor
      deleted keeps its identity, never returns to pending, never loses an attempt, and once
      the provider knows about it keeps its message id and the evidence gathered so far. */
  predicate RowEvolves(r: Row, r': Row) {
    && r'.userId == r.userId && r'.purpose == r.purpose && r'.provider == r.provider
    && r'.recipient == r.recipient && r'.subject == r.subject && r'.sendBefore == r.sendBefore
    && r'.keyId == r.keyId
    && (r'.tokenId == r.tokenId || r'.tokenId.None?)
    && (r'.status.Pending? ==> r.status.Pending? && r'.nonce == r.nonce && r'.ciphertext == r.ciphertext)
    && r.attempts <= r'.attempts
    && (r.providerMessageId.Some? ==> r'.providerMessageId == r.providerMessageId)
    && (r.deliveredAt.Some? ==> r'.deliveredAt == r.deliveredAt)
    && (r.status.Failed? ==> r'.status.Failed? && r'.failedAt == r.failedAt)
  }

  ghost predicate Evolves(rows: Rows, rows': Rows, added: set<Id>) {
    forall id :: id in rows' && id !in added ==> id in rows && RowEvolves(rows[id], rows'[id])
  }

  /** Same row, still consistent, further along. */
  predicate Steps(r: Row, r': Row) {
    RowInv(r') && RowEvolves(r, r')
  }

  ghost predicate AllStep(rows: Rows, rows': Rows) {
    forall id :: id in rows' ==> id in rows && Steps(rows[id], rows'[id])
  }

  lemma AllStepKeeps(rows: Rows, rows': Rows)
    requires AllStep(rows, rows')
    ensures TableInv(rows') && Evolves(rows, rows', {})
  {
    forall id | id in rows' ensures RowInv(rows'[id]) && RowEvolves(rows[id], rows'[id]) {
      assert Steps(rows[id], rows'[id]);
    }
  }

  lemma SameSteps(r: Row)
    requires RowInv(r)
    ensures Steps(r, r)
  {
  }

  lemma SupersedeSteps(r: Row, now: Time)
    requires RowInv(r) && r.status.Pending?
    ensures Steps(r, SupersedeRow(r, now))
  {
  }

  lemma CancelKeeps(rows: Rows, userId: string, purpose: string, now: Time)
    requires TableInv(rows)
    ensures AllStep(rows, CancelPending(rows, userId, purpose, now))
  {
    var rows' := CancelPending(rows, userId, purpose, now);
    forall id | id in rows' ensures Steps(rows[id], rows'[id]) {
      if rows[id].status.Pending? {
        SupersedeSteps(rows[id], now);
      }
      SameSteps(rows[id]);
    }
  }

  lemma QueueKeeps(rows: Rows, id: Id, input: QueueInput, p: K.Payload, now: Time)
    requires TableInv(rows) && id !in rows
    ensures TableInv(Queue(rows, id, input, p, now))
    ensures Evolves(rows, Queue(rows, id, input, p, now), {id})
  {
    CancelKeeps(rows, input.userId, input.purpose, now);
    AllStepKeeps(rows, CancelPending(rows, input.userId, input.purpose, now));
  }

  lemma ClaimRowKeeps(r: Row, tokens: T.Tokens, lease: Lease, dbNow: Time, appNow: Time)
    requires RowInv(r) && r.status.Pending?
    ensures Steps(r, ClaimRow(r, tokens, lease, dbNow, appNow))
  {
  }

  lemma ClaimKeeps(rows: Rows, cands: seq<Id>, tokens: T.Tokens, leases: map<Id, Lease>, dbNow: Time, appNow: Time)
    requires TableInv(rows)
    requires forall id :: id in cands ==> id in leases && id in rows && rows[id].status.Pending?
    ensures TableInv(Claim(rows, cands, tokens, leases, dbNow, appNow))
    ensures Evolves(rows, Claim(rows, cands, tokens, leases, dbNow, appNow), {})
  {
    var rows' := Claim(rows, cands, tokens, leases, dbNow, appNow);
    forall id | id in rows' ensures Steps(rows[id], rows'[id]) {
      if id in cands {
        ClaimRowKeeps(rows[id], tokens, leases[id], dbNow, appNow);
      } else {
        SameSteps(rows[id]);
      }
    }
    AllStepKeeps(rows, rows');
  }

  lemma FinalizeSteps(r: Row, out: Outcome, now: Time)
    requires RowInv(r) && r.status.Pending?
    ensures Steps(r, FinalizeRow(r, out, now))
  {
  }

  /** A finalize only ever lands on a pending row, with or without the status test. */
  lemma FinalizeKeeps(rows: Rows, id: Id, lease: Lease, out: Outcome, now: Time)
    requires TableInv(rows)
    ensures TableInv(Finalize(rows, id, lease, out, now))
    ensures Evolves(rows, Finalize(rows, id, lease, out, now), {})
    ensures Matches(rows, id, lease, out) ==> rows[id].status.Pending?
  {
    var rows' := Finalize(rows, id, lease, out, now);
    assert id in rows ==> RowInv(rows[id]);
    forall k | k in rows' ensures Steps(rows[k], rows'[k]) {
      if k == id && Matches(rows, id, lease, out) {
        FinalizeSteps(rows[id], out, now);
      } else {
        SameSteps(rows[k]);
      }
    }
    AllStepKeeps(rows, rows');
  }

  lemma ReduceSteps(r: Row, typ: EventType, at: Time, now: Time)
    requires RowInv(r) && r.providerMessageId.Some?
    ensures Steps(r, ReduceRow(r, typ, at, now))
    ensures typ.EventSent? ==> ReduceRow(r, typ, at, now) == r
  {
  }

  /** No event touches a pending row, so the branch that rescues one never fires. */
  lemma ReduceKeeps(rows: Rows, m: string, typ: EventType, at: Time, now: Time)
    requires TableInv(rows)
    ensures TableInv(Reduce(rows, m, typ, at, now))
    ensures Evolves(rows, Reduce(rows, m, typ, at, now), {})
    ensures forall id :: id in rows && rows[id].status.Pending? ==> Reduce(rows, m, typ, at, now)[id] == rows[id]
    ensures typ.EventSent? ==> Reduce(rows, m, typ, at, now) == rows
  {
    var rows' := Reduce(rows, m, typ, at, now);
    forall id | id in rows'
      ensures Steps(rows[id], rows'[id])
      ensures rows[id].status.Pending? || typ.EventSent? ==> rows'[id] == rows[id]
    {
      assert RowInv(rows[id]);
      if rows[id].providerMessageId == Some(m) {
        ReduceSteps(rows[id], typ, at, now);
      } else {
        SameSteps(rows[id]);
      }
    }
    AllStepKeeps(rows, rows');
  }

  lemma PurgeKeeps(rows: Rows, cutoff: Time)
    requires TableInv(rows)
    ensures TableInv(Purge(rows, cutoff))
    ensures Evolves(rows, Purge(rows, cutoff), {})
  {
    forall id | id in Purge(rows, cutoff) ensures Steps(rows[id], rows[id]) {
      SameSteps(rows[id]);
    }
    AllStepKeeps(rows, Purge(rows, cutoff));
  }

  lemma ForgetSteps(r: Row, kept: T.Tokens)
    requires RowInv(r)
    ensures Steps(r, ForgetRow(r, kept))
  {
  }

  lemma ForgetKeeps(rows: Rows, kept: T.Tokens)
    requires TableInv(rows)
    ensures TableInv(ForgetTokens(rows, kept))
    ensures Evolves(rows, ForgetTokens(rows, kept), {})
  {
    forall id | id in rows ensures Steps(rows[id], ForgetRow(rows[id], kept)) {
      ForgetSteps(rows[id], kept);
    }
    AllStepKeeps(rows, ForgetTokens(rows, kept));
  }
}
