/** What the delivery protocol promises over every run, however workers crash, stall or race. */
module DeliveryTheorems {
  import opened Base
  import opened OutboxTable
  import opened Jobs
  import opened Delivery
  import opened DeliveryInv
  import K = Keyring

  // ---- the lease decides ----------------------------------------------------------------

  /** A finalize lands exactly when its row is still leased and nobody claimed the job since; then the row is
      pending, although neither accept nor failure tests that. Otherwise the table is untouched. */
  lemma FinalizeLandsIffLatestClaim(now: Time, steps: seq<Step>, w: WorkerId, j: Job, out: Outcome, at: Time)
    requires var s := Run(Init(now), steps);
             w in s.workers && (j in s.workers[w].doomed || j in s.workers[w].jobs)
    ensures var s := Run(Init(now), steps);
            && (Matches(s.rows, j.id, j.leaseToken, out) <==>
                  j.id in s.rows && s.rows[j.id].leaseToken.Some? && j.id in s.made && j.attempt == s.made[j.id])
            && (Matches(s.rows, j.id, j.leaseToken, out) ==> s.rows[j.id].status.Pending?)
            && (!Matches(s.rows, j.id, j.leaseToken, out) ==> Finalize(s.rows, j.id, j.leaseToken, out, at) == s.rows)
  {
    var s := Run(Init(now), steps);
    InitInv(now);
    RunKeepsInv(Init(now), steps);
    assert WorkerInv(s.claims, s.queued, w, s.workers[w]);
    assert j in s.workers[w].jobs ==> Deliverable(s.claims, s.queued, w, j);
    assert HeldBy(s.claims, w, j);
    if j.id in s.rows && s.rows[j.id].leaseToken.Some? {
      assert HoldsLatest(s.made, s.claims, j.id, s.rows[j.id].leaseToken.value);
    }
  }

  // ---- leaving pending happens once -----------------------------------------------------

  predicate PendingAt(s: State, id: Id) {
    id in s.rows && s.rows[id].status.Pending?
  }

  // ---- which payloads open --------------------------------------------------------------

  /** In every run, whatever keys come, go or change hands under one id, a pending payload opens under a keyring exactly
      when it holds the sealing key under the stored id, and then to the body that was queued. */
  lemma PayloadOpensIffKeyHeld(now: Time, steps: seq<Step>, id: Id, kr: K.Keyring)
    requires var s := Run(Init(now), steps); id in s.rows && s.rows[id].status.Pending?
    ensures var s := Run(Init(now), steps);
            var r := s.rows[id];
            && r.nonce.Some? && r.ciphertext.Some? && id in s.queued
            && (OpenBody(id, r, kr).Ok? <==> r.keyId in kr.aeads && kr.aeads[r.keyId] == r.ciphertext.value.key)
            && (OpenBody(id, r, kr).Ok? ==> OpenBody(id, r, kr) == Ok(s.queued[id].body))
  {
    InitInv(now);
    RunKeepsInv(Init(now), steps);
    assert RowInv(Run(Init(now), steps).rows[id]);
  }

  // ---- guards left out ------------------------------------------------------------------

  /** The finalize with the test only its retry has. */
  function FinalizePending(rows: Rows, id: Id, lease: Lease, out: Outcome, now: Time): Rows {
    if id in rows && rows[id].leaseToken == Some(lease) && rows[id].status.Pending?
    then rows[id := FinalizeRow(rows[id], out, now)]
    else rows
  }

  /** In every reachable table a row holds its payload exactly while it is pending, holds a lease only then, and has
      left pending once the provider knows it. So accept and failure need no test of the status, and the rescue of a
      pending row by an email.sent, which keeps the payload, never happens. */
  lemma OmittedGuardsAreImplied(now: Time, steps: seq<Step>, id: Id, lease: Lease, out: Outcome, m: string, at: Time)
    ensures var s := Run(Init(now), steps);
            && (forall x :: x in s.rows ==>
                  && (s.rows[x].status.Pending? <==> s.rows[x].nonce.Some? && s.rows[x].ciphertext.Some?)
                  && (s.rows[x].leaseToken.Some? ==> s.rows[x].status.Pending?)
                  && (s.rows[x].providerMessageId.Some? ==> !s.rows[x].status.Pending?))
            && Finalize(s.rows, id, lease, out, at) == FinalizePending(s.rows, id, lease, out, at)
            && Reduce(s.rows, m, EventSent, at, s.clock) == s.rows
  {
    InitInv(now);
    RunKeepsInv(Init(now), steps);
    SoundRows(Run(Init(now), steps).rows, id, lease, out, m, at, Run(Init(now), steps).clock);
  }

  lemma SoundRows(rows: Rows, id: Id, lease: Lease, out: Outcome, m: string, at: Time, now: Time)
    requires TableInv(rows)
    ensures forall x :: x in rows ==>
              && (rows[x].status.Pending? <==> rows[x].nonce.Some? && rows[x].ciphertext.Some?)
              && (rows[x].leaseToken.Some? ==> rows[x].status.Pending?)
              && (rows[x].providerMessageId.Some? ==> !rows[x].status.Pending?)
    ensures Finalize(rows, id, lease, out, at) == FinalizePending(rows, id, lease, out, at)
    ensures Reduce(rows, m, EventSent, at, now) == rows
  {
    forall x | x in rows ensures RowInv(rows[x]) {
    }
  }

  /** How often a job leaves pending along a run. */
  ghost function Exits(s: State, steps: seq<Step>, id: Id): nat
    decreases |steps|
  {
    if steps == [] then 0
    else
      var s' := Apply(s, steps[0]);
      (if PendingAt(s, id) && !PendingAt(s', id) then 1 else 0) + Exits(s', steps[1..], id)
  }

  /** Only enqueue and claim can do more than release a row. */
  lemma StepReleases(s: State, step: Step)
    requires InvRows(s.rows, s.queued, s.made) && Enabled(s, step) && !step.Enqueue? && !step.ClaimJobs?
    ensures AllRelease(s.rows, Apply(s, step).rows) && Apply(s, step).queued == s.queued
  {
    match step
    case FailDoomed(w) =>
      FinalizeReleases(s.rows, s.workers[w].doomed[0].id, s.workers[w].doomed[0].leaseToken,
          OutcomeFailed(DecryptFailed), s.clock);
    case Record(w) =>
      FinalizeReleases(s.rows, s.workers[w].jobs[0].id, s.workers[w].jobs[0].leaseToken, s.workers[w].phase.out,
          s.clock);
    case ProviderEvent(m, typ, at) => ReduceReleases(s.rows, m, typ, at, s.clock);
    case PurgeFinished(olderThan) => PurgeReleases(s.rows, s.clock - olderThan);
    case PurgeTokens(kept) => ForgetReleases(s.rows, kept);
    case _ => SameRelease(s.rows);
  }

  lemma SameRelease(rows: Rows)
    requires TableInv(rows)
    ensures AllRelease(rows, rows)
  {
    forall k | k in rows ensures Releases(rows[k], rows[k]) {
      SameSteps(rows[k]);
    }
  }

  lemma EnqueueReleases(s: State, step: Step)
    requires InvRows(s.rows, s.queued, s.made) && Enabled(s, step) && step.Enqueue?
    ensures AllRelease(s.rows, Apply(s, step).rows - {step.id})
            && Apply(s, step).queued == s.queued[step.id := step.input]
    ensures step.id in Apply(s, step).rows && Apply(s, step).rows[step.id].attempts == 0
         && Apply(s, step).rows[step.id].leaseToken.None?
  {
    CancelReleases(s.rows, step.input.userId, step.input.purpose, s.clock);
    assert Apply(s, step).rows - {step.id} == CancelPending(s.rows, step.input.userId, step.input.purpose, s.clock);
  }

  /** What happens to one job in one step, as far as its life is concerned. */
  lemma StepOnJob(s: State, step: Step, id: Id)
    requires Inv(s)
    ensures id in s.queued ==> id in Apply(s, step).queued
    ensures id in s.queued && PendingAt(Apply(s, step), id) ==> PendingAt(s, id)
  {
    if Enabled(s, step) {
      if step.ClaimJobs? {
        ClaimShape(s, step);
      } else if step.Enqueue? {
        EnqueueReleases(s, step);
        assert id != step.id && id in Apply(s, step).rows ==> id in Apply(s, step).rows - {step.id};
      } else {
        StepReleases(s, step);
      }
    }
  }

  lemma {:induction false} ExitsBound(s: State, steps: seq<Step>, id: Id)
    requires Inv(s)
    ensures Exits(s, steps, id) <= 1
    ensures id in s.queued && !PendingAt(s, id) ==> Exits(s, steps, id) == 0 && !PendingAt(Run(s, steps), id)
    decreases |steps|
  {
    if steps != [] {
      StepKeepsInv(s, steps[0]);
      StepOnJob(s, steps[0], id);
      ExitsBound(Apply(s, steps[0]), steps[1..], id);
    }
  }

  /** In every run each job leaves pending at most once, and never comes back: not after its row is deleted either. */
  lemma LeavesPendingOnce(now: Time, steps: seq<Step>, more: seq<Step>, id: Id)
    ensures Exits(Init(now), steps, id) <= 1
    ensures var s := Run(Init(now), steps);
            id in s.queued && !PendingAt(s, id) ==> !PendingAt(Run(s, more), id)
  {
    InitInv(now);
    ExitsBound(Init(now), steps, id);
    RunKeepsInv(Init(now), steps);
    ExitsBound(Run(Init(now), steps), more, id);
  }

  // ---- one key, one message -------------------------------------------------------------

  /** Every call to the provider carries what was queued, and two calls share a key exactly when they deliver
      the same job: retries, lease recovery and key rotation never change the message behind a key. */
  lemma SameKeySameMessage(now: Time, steps: seq<Step>, a: Sent, b: Sent)
    requires var s := Run(Init(now), steps); a in s.sends && b in s.sends
    ensures var s := Run(Init(now), steps);
            && a.id in s.queued && a.message == Carries(s.queued[a.id])
            && (a.key == b.key <==> a.id == b.id)
            && (a.key == b.key ==> a.message == b.message)
  {
    var s := Run(Init(now), steps);
    InitInv(now);
    RunKeepsInv(Init(now), steps);
    assert SendOk(s.claims, s.queued, a) && SendOk(s.claims, s.queued, b);
    assert IdempotencyKey(a.id)[|"auth-email/"|..] == a.id && IdempotencyKey(b.id)[|"auth-email/"|..] == b.id;
  }

  // ---- bounded work ---------------------------------------------------------------------

  function CountSends(sends: seq<Sent>, id: Id): nat {
    if sends == [] then 0 else (if sends[0].id == id then 1 else 0) + CountSends(sends[1..], id)
  }

  /** Calls for one job are told apart by their attempt number, so there are no more of them than numbers. */
  lemma {:induction false} SendsWithin(sends: seq<Sent>, id: Id, attempts: set<nat>)
    requires forall i, j :: 0 <= i < j < |sends| ==> (sends[i].id, sends[i].attempt) != (sends[j].id, sends[j].attempt)
    requires forall e :: e in sends && e.id == id ==> e.attempt in attempts
    ensures CountSends(sends, id) <= |attempts|
    decreases |sends|
  {
    if sends != [] {
      var e := sends[0];
      assert forall x :: x in sends[1..] ==> x in sends && (x.id, x.attempt) != (e.id, e.attempt);
      if e.id == id {
        SendsWithin(sends[1..], id, attempts - {e.attempt});
      } else {
        SendsWithin(sends[1..], id, attempts);
      }
    }
  }

  function UpTo(n: nat): (r: set<nat>)
    ensures |r| == n && forall k: nat :: k in r <==> 1 <= k <= n
  {
    if n == 0 then {} else UpTo(n - 1) + {n}
  }

  /** In every run each job reaches the provider at most MAX_ATTEMPTS times, at most once per claim. */
  lemma SentAtMostTwelveTimes(now: Time, steps: seq<Step>, id: Id)
    ensures var s := Run(Init(now), steps);
            && CountSends(s.sends, id) <= MAX_ATTEMPTS
            && (id in s.made ==> CountSends(s.sends, id) <= s.made[id] <= MAX_ATTEMPTS)
            && (id in s.rows ==> id in s.made && s.rows[id].attempts == s.made[id])
  {
    var s := Run(Init(now), steps);
    InitInv(now);
    RunKeepsInv(Init(now), steps);
    assert forall e :: e in s.sends ==> SendOk(s.claims, s.queued, e);
    SendsWithin(s.sends, id, UpTo(if id in s.made then s.made[id] else 0));
  }

  /** Pending, then attempts left, then whether the job is leased: what a row can still be worked on. */
  function RowBudget(r: Row): nat
    requires r.attempts <= MAX_ATTEMPTS
  {
    if !r.status.Pending? then 0
    else 2 * (MAX_ATTEMPTS - r.attempts) + (if r.leaseToken.Some? then 1 else 0) + 1
  }

  function Budget(rows: Rows, queued: Queued, id: Id): nat
    requires id in rows ==> rows[id].attempts <= MAX_ATTEMPTS
  {
    if id !in queued then 2 * MAX_ATTEMPTS + 1 else if id in rows then RowBudget(rows[id]) else 0
  }

  predicate IsWork(step: Step) {
    step.ClaimJobs? || step.FailDoomed? || step.Record?
  }

  /** A claim, a retirement or a finalize that actually touched the job. */
  ghost predicate Works(s: State, step: Step, id: Id) {
    IsWork(step) && id in s.rows && id in Apply(s, step).rows && Apply(s, step).rows[id] != s.rows[id]
  }

  ghost function WorkDone(s: State, steps: seq<Step>, id: Id): nat
    decreases |steps|
  {
    if steps == [] then 0 else (if Works(s, steps[0], id) then 1 else 0) + WorkDone(Apply(s, steps[0]), steps[1..], id)
  }

  lemma StepSpends(s: State, step: Step, id: Id)
    requires Inv(s) && TableInv(Apply(s, step).rows)
    ensures Budget(Apply(s, step).rows, Apply(s, step).queued, id)
            + (if Works(s, step, id) then 1 else 0) <= Budget(s.rows, s.queued, id)
  {
    if Enabled(s, step) {
      if step.ClaimJobs? {
        ClaimSpends(s, step, id);
      } else if step.Enqueue? {
        EnqueueSpends(s, step, id);
      } else {
        ReleaseSpends(s, step, id);
      }
    }
  }

  lemma RowReleaseSpends(r: Row, r': Row)
    requires RowInv(r) && Releases(r, r')
    ensures RowBudget(r') <= RowBudget(r)
    ensures r.status.Pending? && r.leaseToken.Some? && r'.leaseToken.None? ==> RowBudget(r') < RowBudget(r)
  {
  }

  lemma ReleaseSpends(s: State, step: Step, id: Id)
    requires InvRows(s.rows, s.queued, s.made) && Enabled(s, step) && !step.ClaimJobs? && !step.Enqueue?
    requires TableInv(Apply(s, step).rows)
    ensures Budget(Apply(s, step).rows, Apply(s, step).queued, id)
            + (if Works(s, step, id) then 1 else 0) <= Budget(s.rows, s.queued, id)
  {
    StepReleases(s, step);
    if id in Apply(s, step).rows {
      RowReleaseSpends(s.rows[id], Apply(s, step).rows[id]);
    }
    if Works(s, step, id) {
      WorkReleasesLease(s, step, id);
    }
  }

  lemma EnqueueSpends(s: State, step: Step, id: Id)
    requires Inv(s) && step.Enqueue? && Enabled(s, step) && TableInv(Apply(s, step).rows)
    ensures Budget(Apply(s, step).rows, Apply(s, step).queued, id) <= Budget(s.rows, s.queued, id)
  {
    EnqueueReleases(s, step);
    var rows1 := Apply(s, step).rows - {step.id};
    assert id != step.id && id in Apply(s, step).rows ==> id in rows1 && Releases(s.rows[id], rows1[id]);
  }

  lemma ClaimRowSpends(r: Row, c: Step, lease: Lease)
    requires RowInv(r) && r.status.Pending? && c.ClaimJobs?
    requires RowInv(ClaimRow(r, c.tokens, lease, c.dbNow, c.appNow))
    ensures RowBudget(ClaimRow(r, c.tokens, lease, c.dbNow, c.appNow)) < RowBudget(r)
  {
  }

  lemma ClaimSpends(s: State, c: Step, id: Id)
    requires InvRows(s.rows, s.queued, s.made) && c.ClaimJobs? && Enabled(s, c) && TableInv(Apply(s, c).rows)
    ensures Budget(Apply(s, c).rows, Apply(s, c).queued, id)
            + (if Works(s, c, id) then 1 else 0) <= Budget(s.rows, s.queued, id)
  {
    ClaimShape(s, c);
    assert Apply(s, c).rows == OutboxTable.Claim(s.rows, c.cands, c.tokens, c.leases, c.dbNow, c.appNow);
    if id in c.cands {
      ClaimRowKeeps(s.rows[id], c.tokens, c.leases[id], c.dbNow, c.appNow);
      ClaimRowSpends(s.rows[id], c, c.leases[id]);
    }
  }

  lemma WorkReleasesLease(s: State, step: Step, id: Id)
    requires InvRows(s.rows, s.queued, s.made) && Enabled(s, step) && Works(s, step, id) && !step.ClaimJobs?
    ensures s.rows[id].status.Pending? && s.rows[id].leaseToken.Some? && Apply(s, step).rows[id].leaseToken.None?
  {
  }

  lemma {:induction false} WorkWithinBudget(s: State, steps: seq<Step>, id: Id)
    requires Inv(s)
    ensures WorkDone(s, steps, id) <= Budget(s.rows, s.queued, id)
    decreases |steps|
  {
    if steps != [] {
      StepKeepsInv(s, steps[0]);
      StepSpends(s, steps[0], id);
      WorkWithinBudget(Apply(s, steps[0]), steps[1..], id);
    }
  }

  /** In every schedule a job's life is finite: at most 25 claims, retirements and finalizes ever touch it. */
  lemma JobLifeIsFinite(now: Time, steps: seq<Step>, id: Id)
    ensures WorkDone(Init(now), steps, id) <= 2 * MAX_ATTEMPTS + 1
  {
    InitInv(now);
    WorkWithinBudget(Init(now), steps, id);
  }
}
