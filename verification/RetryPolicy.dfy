/** The worker's retry policy: how a provider's answer becomes an outcome, and when to try again. */
module RetryPolicy {
  import opened Base
  import opened OutboxTable
  import T = TokenTable

  const BACKOFF_BASE: Duration := 2 * SECOND
  const BACKOFF_CAP: Duration := 5 * MINUTE
  const BACKOFF_FLOOR: Duration := SECOND

  datatype SendError = SendError(retryable: bool, code: Code, retryAfter: Duration)

  /** What Send returned: a receipt, a classified error, or an error of some other type. */
  datatype SendResult = Receipt(providerMessageId: string) | Classified(err: SendError) | Bare

  function Pow2(n: nat): (r: nat)
    ensures r >= 1
  {
    if n == 0 then 1 else 2 * Pow2(n - 1)
  }

  function Ceiling(attempt: int): Duration {
    if attempt < 32 && BACKOFF_BASE * Pow2(Max(attempt - 1, 0)) < BACKOFF_CAP
    then BACKOFF_BASE * Pow2(Max(attempt - 1, 0))
    else BACKOFF_CAP
  }

  /** `jitter` is the random draw, in 1 to the ceiling. */
  function Backoff(attempt: int, retryAfter: Duration, jitter: Duration): Duration {
    if retryAfter > 0 then Min(retryAfter, BACKOFF_CAP) else Max(jitter, BACKOFF_FLOOR)
  }

  function Classify(attempt: nat, sendBefore: Time, result: SendResult, now: Time, jitter: Duration): Outcome {
    if result.Receipt? then OutcomeAccepted(result.providerMessageId)
    else
      var e := if result.Classified? then result.err else SendError(true, Transport, 0);
      if e.code.IdempotencyClash? then OutcomeFailed(e.code)
      else if e.retryable && attempt < MAX_ATTEMPTS then
        var delay := Backoff(attempt, e.retryAfter, jitter);
        if now + delay > sendBefore then OutcomeFailed(SendWindowElapsed) else OutcomeRetry(e.code, delay)
      else OutcomeFailed(e.code)
  }

  /** How long to wait before the next attempt: what the provider asked for, up to five minutes, or else the draw, but
      no less than a second. */
  predicate Waits(result: SendResult, jitter: Duration, delay: Duration) {
    if result.Classified? && result.err.retryAfter > 0
    then
      var asked := result.err.retryAfter;
      (delay == asked || delay == 5 * MINUTE) && delay <= asked && delay <= 5 * MINUTE
    else (delay == jitter || delay == SECOND) && delay >= jitter && delay >= SECOND
  }

  /** Worth another attempt, if there is time for it: an unknown or passing fault of a job with attempts left. */
  predicate Passing(attempt: nat, result: SendResult) {
    && attempt < 12
    && (result.Bare? || (result.Classified? && result.err.retryable && !result.err.code.IdempotencyClash?))
  }

  predicate CodeOf(result: SendResult, code: Code) {
    (result.Classified? && code == result.err.code) || (result.Bare? && code == Transport)
  }

  /** The reading of an answer: an acceptance under its id; a retry iff the fault may pass and the delay ends by the end
      of the window; or else a failure with its own code, or the elapsed window where a retry would have come too
      late. */
  predicate Reads(attempt: nat, sendBefore: Time, result: SendResult, now: Time, jitter: Duration, out: Outcome) {
    match out
    case OutcomeAccepted(m) => result == Receipt(m)
    case OutcomeRetry(code, delay) =>
      Passing(attempt, result) && CodeOf(result, code) && Waits(result, jitter, delay) && now + delay <= sendBefore
    case OutcomeFailed(code) =>
      && !result.Receipt?
      && if Passing(attempt, result) then code.SendWindowElapsed? && TooLate(sendBefore, result, now, jitter)
         else CodeOf(result, code)
  }

  predicate TooLate(sendBefore: Time, result: SendResult, now: Time, jitter: Duration) {
    var at := sendBefore - now;
    if result.Classified? && result.err.retryAfter > 0 then at < result.err.retryAfter && at < 5 * MINUTE
    else at < jitter || at < SECOND
  }

  /** Exactly one outcome is a reading of an answer, and it is the one the worker records. */
  lemma ClassifyIsTheReading(attempt: nat, sendBefore: Time, result: SendResult, now: Time, jitter: Duration,
                             out: Outcome)
    ensures Reads(attempt, sendBefore, result, now, jitter, out)
            <==> out == Classify(attempt, sendBefore, result, now, jitter)
  {
  }

  lemma {:induction false} Pow2Monotone(a: nat, b: nat)
    requires a <= b
    ensures Pow2(a) <= Pow2(b)
    decreases b
  {
    if a < b {
      Pow2Monotone(a, b - 1);
    }
  }

  lemma ShiftValues()
    ensures Pow2(7) == 128 && Pow2(8) == 256 && Pow2(30) == 0x4000_0000
  {
    assert Pow2(4) == 16;
    assert Pow2(8) == 16 * Pow2(4);
    assert Pow2(12) == 16 * Pow2(8);
    assert Pow2(16) == 16 * Pow2(12);
    assert Pow2(20) == 16 * Pow2(16);
    assert Pow2(24) == 16 * Pow2(20);
    assert Pow2(28) == 16 * Pow2(24);
  }

  /** The shift never leaves 64 bits where it is evaluated, and the guard that keeps it there never changes
      the answer: the ceiling is the exact doubling schedule clipped at the cap, for every attempt. */
  lemma CeilingIsClippedDoubling(attempt: int)
    requires attempt >= 1
    ensures attempt < 32 ==> BACKOFF_BASE * Pow2(attempt - 1) <= MAX_INT64
    ensures Ceiling(attempt) == Min(BACKOFF_BASE * Pow2(attempt - 1), BACKOFF_CAP)
    ensures Ceiling(attempt) == BACKOFF_CAP <==> attempt >= 9
  {
    if attempt < 32 {
      ShiftFits(attempt);
    }
    ShiftCrosses(attempt);
  }

  lemma ShiftFits(attempt: int)
    requires 1 <= attempt < 32
    ensures BACKOFF_BASE * Pow2(attempt - 1) <= MAX_INT64
  {
    ShiftValues();
    Pow2Monotone(attempt - 1, 30);
  }

  lemma ShiftCrosses(attempt: int)
    requires attempt >= 1
    ensures BACKOFF_BASE * Pow2(attempt - 1) < BACKOFF_CAP <==> attempt < 9
  {
    ShiftValues();
    if attempt < 9 {
      Pow2Monotone(attempt - 1, 7);
    } else {
      Pow2Monotone(8, attempt - 1);
    }
  }

  /** A claim at `t` leases the row. */
  predicate LeasedAt(r: Row, tokens: T.Tokens, t: Time) {
    Eligible(r, r.provider, t) && Judge(r, tokens, t, t).Leasable?
  }

  /** What a scheduled retry is worth: some later claim sends it exactly when the delay, counted from when the outcome
      was recorded, ends strictly inside the window and before the link dies. The policy counts from the provider's
      answer and allows the end of the window itself, so a retry can be scheduled that is only ever retired. */
  lemma RetryIsSentIff(r: Row, result: SendResult, sentAt: Time, jitter: Duration, recordAt: Time, tokens: T.Tokens)
    requires RowInv(r) && r.status.Pending? && Classify(r.attempts, r.sendBefore, result, sentAt, jitter).OutcomeRetry?
    ensures var out := Classify(r.attempts, r.sendBefore, result, sentAt, jitter);
            var r', ready := FinalizeRow(r, out, recordAt), recordAt + out.retryIn;
            && sentAt + out.retryIn <= r.sendBefore
            && ((exists t :: LeasedAt(r', tokens, t)) <==>
                  ready < r.sendBefore && (r.tokenId.None? || T.LiveIn(tokens, r.tokenId, ready)))
  {
    var out := Classify(r.attempts, r.sendBefore, result, sentAt, jitter);
    var r', ready := FinalizeRow(r, out, recordAt), recordAt + out.retryIn;
    if ready < r.sendBefore && (r.tokenId.None? || T.LiveIn(tokens, r.tokenId, ready)) {
      assert LeasedAt(r', tokens, ready);
    }
  }

  /** Such retries exist: an unclassified error so late that the delay ends with the window is retried, and never sent.
      */
  lemma RetryCanBePointless(r: Row, jitter: Duration, tokens: T.Tokens)
    requires RowInv(r) && r.status.Pending? && r.attempts < MAX_ATTEMPTS
    ensures var at := r.sendBefore - Max(jitter, BACKOFF_FLOOR);
            var out := Classify(r.attempts, r.sendBefore, Bare, at, jitter);
            out.OutcomeRetry? && forall t :: !LeasedAt(FinalizeRow(r, out, at), tokens, t)
  {
    RetryIsSentIff(r, Bare, r.sendBefore - Max(jitter, BACKOFF_FLOOR), jitter,
        r.sendBefore - Max(jitter, BACKOFF_FLOOR), tokens);
  }
}
