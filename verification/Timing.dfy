/** The lease budget. When provider calls and finalizes respect their timeouts, and the rest of a batch costs at most
    the margin, a batch ends before its leases can be reclaimed: sends of one job never overlap. */
module Timing {
  import opened Base
  import opened OutboxTable
  import opened Jobs
  import opened Delivery
  import opened DeliveryInv
  import K = Keyring

  const SEND_TIMEOUT: Duration := 20 * SECOND
  const FINALIZE_TIMEOUT: Duration := 5 * SECOND
  const PER_JOB: Duration := SEND_TIMEOUT + FINALIZE_TIMEOUT
  /** What is left of the lease beside the deliveries: the claim itself and everything between calls. */
  const OVERHEAD: Duration := LEASE_DURATION - CLAIM_BATCH * PER_JOB

  /** How long a worker may stay in its phase. */
  function Deadline(wk: Worker): Time {
    match wk.phase
    case Between => wk.since + (OVERHEAD - wk.overhead)
    case Sending => wk.since + SEND_TIMEOUT
    case Recording(_) => wk.since + FINALIZE_TIMEOUT
  }

  /** The timeouts as a discipline on schedules: time never passes a live worker's deadline, and a claim reaches its
      worker within the margin. A process that stalls longer counts as crashed: it must Leave first. */
  ghost predicate OnTime(s: State, step: Step) {
    && (step.Tick? ==> forall w :: w in s.workers ==> s.clock + step.d <= Deadline(s.workers[w]))
    && (step.ClaimJobs? ==> s.clock - step.dbNow <= OVERHEAD)
  }

  ghost predicate TimedRun(s: State, steps: seq<Step>)
    decreases |steps|
  {
    steps == [] || (OnTime(s, steps[0]) && TimedRun(Apply(s, steps[0]), steps[1..]))
  }

  predicate OnSchedule(clock: Time, wk: Worker) {
    && 0 <= wk.overhead <= OVERHEAD
    && wk.claimedAt <= wk.since <= clock <= Deadline(wk)
    && wk.since <= wk.claimedAt + wk.overhead + PER_JOB * wk.done + (if wk.phase.Recording? then SEND_TIMEOUT else 0)
    && wk.done + |wk.jobs| <= CLAIM_BATCH
    && (wk.doomed != [] ==> wk.done == 0)
  }

  /** The jobs a worker is sending or still has to send or fail. */
  function Active(wk: Worker): seq<Job> {
    wk.doomed + if wk.phase.Recording? && wk.jobs != [] then wk.jobs[1..] else wk.jobs
  }

  ghost predicate InvTime(clock: Time, workers: Workers) {
    forall w :: w in workers ==> OnSchedule(clock, workers[w])
  }

  /** While a worker is at a job, its row carries the worker's own lease unless it has left pending. */
  ghost predicate LeasedTo(rows: Rows, wk: Worker, j: Job) {
    j.id in rows && rows[j.id].status.Pending? ==>
      rows[j.id].leaseToken == Some(j.leaseToken) && rows[j.id].leaseUntil == Some(wk.claimedAt + LEASE_DURATION)
  }

  ghost predicate InvLeased(rows: Rows, workers: Workers) {
    forall w, j :: w in workers && j in Active(workers[w]) ==> LeasedTo(rows, workers[w], j)
  }

  /** Two workers are never at the same job. */
  ghost predicate InvApart(workers: Workers) {
    forall v, w, j, k ::
      v in workers && w in workers && v != w && j in Active(workers[v]) && k in Active(workers[w]) ==> j.id != k.id
  }

  ghost predicate InvWindow(workers: Workers) {
    forall w, j :: w in workers && j in workers[w].jobs ==> workers[w].claimedAt < j.sendBefore
  }

  ghost predicate Timely(s: State) {
    InvTime(s.clock, s.workers) && InvLeased(s.rows, s.workers) && InvApart(s.workers) && InvWindow(s.workers)
  }

  /** The budget: whoever still has a job to send or fail is inside its lease. */
  lemma ActiveWithinLease(clock: Time, wk: Worker)
    requires OnSchedule(clock, wk) && Active(wk) != []
    ensures clock < wk.claimedAt + LEASE_DURATION
  {
  }

  // ---- rows -----------------------------------------------------------------------------

  /** What no other transaction does to a pending row: change its lease. */
  ghost predicate PendingUntouched(rows: Rows, rows': Rows, but: set<Id>) {
    forall id :: id in rows' && id !in but && rows'[id].status.Pending? ==>
      id in rows && rows[id].status.Pending? && rows'[id].leaseToken == rows[id].leaseToken
          && rows'[id].leaseUntil == rows[id].leaseUntil
  }

  lemma UntouchedKeepsLeased(rows: Rows, rows': Rows, workers: Workers, but: set<Id>)
    requires InvLeased(rows, workers) && PendingUntouched(rows, rows', but)
    requires forall w, j :: w in workers && j in Active(workers[w]) ==> j.id !in but
    ensures InvLeased(rows', workers)
  {
    forall w, j | w in workers && j in Active(workers[w]) ensures LeasedTo(rows', workers[w], j) {
      assert LeasedTo(rows, workers[w], j);
    }
  }

  lemma ActiveAreHeld(workers: Workers, claims: Claims, queued: Queued, w: WorkerId, j: Job)
    requires InvWorkers(workers, claims, queued) && w in workers && (j in Active(workers[w]) || j in workers[w].jobs)
    ensures HeldBy(claims, w, j)
  {
    assert WorkerInv(claims, queued, w, workers[w]);
    assert j in workers[w].doomed || j in workers[w].jobs;
    assert j in workers[w].jobs ==> Deliverable(claims, queued, w, j);
  }

  /** Two workers hold one job under different leases, so at most one of them can find its own on the row. */
  lemma FinalizeMisses(rows: Rows, claims: Claims, now: Time, w: WorkerId, j: Job, out: Outcome, v: WorkerId,
      wk: Worker, k: Job)
    requires LeasedTo(rows, wk, k) && TableInv(rows)
    requires HeldBy(claims, w, j) && HeldBy(claims, v, k) && (k.id == j.id ==> v != w)
    requires forall a, b :: a in claims && b in claims && claims[a].lease == claims[b].lease ==> a == b
    ensures LeasedTo(Finalize(rows, j.id, j.leaseToken, out, now), wk, k)
  {
    FinalizeKeeps(rows, j.id, j.leaseToken, out, now);
    if k.id == j.id {
      assert claims[(j.id, j.attempt)] != claims[(k.id, k.attempt)];
    }
  }

  /** A finalize by one worker never releases a row another worker, or the same batch, is still at. */
  lemma FinalizeHitsNobodyElse(s: State, w: WorkerId, j: Job, out: Outcome, rest: Worker)
    requires Inv(s) && InvLeased(s.rows, s.workers) && InvTime(s.clock, s.workers)
    requires w in s.workers && (j in s.workers[w].doomed || j in s.workers[w].jobs) && HeldBy(s.claims, w, j)
    requires rest.claimedAt == s.workers[w].claimedAt
    requires forall k :: k in Active(rest) ==> k in Active(s.workers[w]) && k.id != j.id
    ensures InvLeased(Finalize(s.rows, j.id, j.leaseToken, out, s.clock), s.workers[w := rest])
  {
    var rows', workers' := Finalize(s.rows, j.id, j.leaseToken, out, s.clock), s.workers[w := rest];
    forall v, k | v in workers' && k in Active(workers'[v]) ensures LeasedTo(rows', workers'[v], k) {
      ActiveAreHeld(s.workers, s.claims, s.queued, v, k);
      FinalizeMisses(s.rows, s.claims, s.clock, w, j, out, v, s.workers[v], k);
    }
  }

  /** A worker whose remaining work shrinks. */
  ghost predicate Shrinks(wk: Worker, wk': Worker) {
    && wk'.claimedAt == wk.claimedAt
    && (forall j :: j in Active(wk') ==> j in Active(wk))
    && (forall j :: j in wk'.jobs ==> j in wk.jobs)
  }

  lemma ShrinkKeeps(rows: Rows, workers: Workers, w: WorkerId, wk': Worker)
    requires w in workers && Shrinks(workers[w], wk') && InvApart(workers) && InvWindow(workers)
    ensures InvApart(workers[w := wk']) && InvWindow(workers[w := wk'])
    ensures InvLeased(rows, workers) ==> InvLeased(rows, workers[w := wk'])
  {
    if InvLeased(rows, workers) {
      var workers' := workers[w := wk'];
      forall v, j | v in workers' && j in Active(workers'[v]) ensures LeasedTo(rows, workers'[v], j) {
        assert LeasedTo(rows, workers[v], j);
      }
    }
  }

  lemma TailShrinks(wk: Worker, wk': Worker)
    requires wk'.claimedAt == wk.claimedAt
    requires (wk'.doomed == wk.doomed && wk'.jobs == wk.jobs)
          || (wk.doomed != [] && wk'.doomed == wk.doomed[1..] && wk'.jobs == wk.jobs)
          || (wk.jobs != [] && wk'.doomed == wk.doomed && wk'.jobs == wk.jobs[1..])
    requires wk.phase.Recording? ==>
               wk'.phase.Recording? || (wk.jobs != [] && wk'.jobs == wk.jobs[1..] && wk'.phase.Between?)
    ensures Shrinks(wk, wk')
  {
  }

  lemma FailDoomedTimely(s: State, step: Step)
    requires Inv(s) && Timely(s) && step.FailDoomed? && Enabled(s, step)
    ensures Timely(Apply(s, step))
  {
    var wk := s.workers[step.w];
    var j, wk' := wk.doomed[0], wk.(doomed := wk.doomed[1..]);
    assert WorkerInv(s.claims, s.queued, step.w, wk) && HeldBy(s.claims, step.w, j);
    TailShrinks(wk, wk');
    ShrinkKeeps(s.rows, s.workers, step.w, wk');
    assert OnSchedule(s.clock, wk');
    forall k | k in Active(wk') ensures k in Active(wk) && k.id != j.id {
      assert k in wk.doomed[1..] || k in wk.jobs;
    }
    FinalizeHitsNobodyElse(s, step.w, j, OutcomeFailed(DecryptFailed), wk');
  }

  lemma RecordShrinks(s: State, w: WorkerId, wk': Worker)
    requires Inv(s) && w in s.workers && s.workers[w].phase.Recording? && s.workers[w].jobs != []
    requires var wk := s.workers[w]; wk' == AfterJob(wk, s.clock)
    ensures Shrinks(s.workers[w], wk') && HeldBy(s.claims, w, s.workers[w].jobs[0])
    ensures forall k :: k in Active(wk') ==> k in Active(s.workers[w]) && k.id != s.workers[w].jobs[0].id
    ensures OnSchedule(s.clock, s.workers[w]) ==> OnSchedule(s.clock, wk')
  {
    var wk := s.workers[w];
    assert WorkerInv(s.claims, s.queued, w, wk) && Deliverable(s.claims, s.queued, w, wk.jobs[0]);
    assert Active(wk') == wk.jobs[1..] == Active(wk);
  }

  lemma RecordRows(s: State, w: WorkerId, out: Outcome)
    requires Inv(s) && Timely(s) && w in s.workers && s.workers[w].phase.Recording? && s.workers[w].jobs != []
    ensures InvLeased(Finalize(s.rows, s.workers[w].jobs[0].id, s.workers[w].jobs[0].leaseToken, out, s.clock),
                      s.workers[w := AfterJob(s.workers[w], s.clock)])
  {
    RecordShrinks(s, w, AfterJob(s.workers[w], s.clock));
    FinalizeHitsNobodyElse(s, w, s.workers[w].jobs[0], out, AfterJob(s.workers[w], s.clock));
  }

  lemma RecordWorkers(s: State, w: WorkerId)
    requires Inv(s) && Timely(s) && w in s.workers && s.workers[w].phase.Recording? && s.workers[w].jobs != []
    ensures var workers' := s.workers[w := AfterJob(s.workers[w], s.clock)];
            InvTime(s.clock, workers') && InvApart(workers') && InvWindow(workers')
  {
    RecordShrinks(s, w, AfterJob(s.workers[w], s.clock));
    ShrinkKeeps(s.rows, s.workers, w, AfterJob(s.workers[w], s.clock));
  }

  function Recorded(s: State, w: WorkerId, out: Outcome): State
    requires w in s.workers && s.workers[w].jobs != []
  {
    s.(rows := Finalize(s.rows, s.workers[w].jobs[0].id, s.workers[w].jobs[0].leaseToken, out, s.clock),
       workers := s.workers[w := AfterJob(s.workers[w], s.clock)])
  }

  lemma RecordedTimely(s: State, w: WorkerId, out: Outcome)
    requires Inv(s) && Timely(s) && w in s.workers && s.workers[w].phase.Recording? && s.workers[w].jobs != []
    ensures Timely(Recorded(s, w, out))
  {
    RecordRows(s, w, out);
    RecordWorkers(s, w);
  }

  lemma RecordIs(s: State, step: Step)
    requires step.Record? && Enabled(s, step)
    ensures Apply(s, step) == Recorded(s, step.w, s.workers[step.w].phase.out)
  {
  }

  lemma RecordTimely(s: State, step: Step)
    requires Inv(s) && Timely(s) && step.Record? && Enabled(s, step)
    ensures Timely(Apply(s, step))
  {
    RecordedTimely(s, step.w, s.workers[step.w].phase.out);
    RecordIs(s, step);
  }

  /** A worker that moves on, on schedule, while nothing else changes. */
  lemma MoveTimely(s: State, w: WorkerId, wk': Worker)
    requires Timely(s) && w in s.workers && OnSchedule(s.clock, wk') && Shrinks(s.workers[w], wk')
    ensures Timely(s.(workers := s.workers[w := wk']))
  {
    ShrinkKeeps(s.rows, s.workers, w, wk');
  }

  lemma OnwardShrinks(clock: Time, wk: Worker)
    requires OnSchedule(clock, wk) && (wk.doomed != [] || (wk.phase.Recording? && wk.jobs != []))
    requires !wk.phase.Between? ==> wk.doomed == []
    ensures Shrinks(wk, Onward(wk, clock)) && OnSchedule(clock, Onward(wk, clock))
  {
    TailShrinks(wk, Onward(wk, clock));
  }

  lemma SkipTimely(s: State, step: Step)
    requires Inv(s) && Timely(s) && step.Skip? && Enabled(s, step)
    ensures Timely(Apply(s, step))
  {
    var wk := s.workers[step.w];
    assert WorkerInv(s.claims, s.queued, step.w, wk) && OnSchedule(s.clock, wk);
    OnwardShrinks(s.clock, wk);
    MoveTimely(s, step.w, Onward(wk, s.clock));
  }

  lemma SendShrinks(s: State, step: Step)
    requires Inv(s) && (step.StartSend? || step.EndSend?) && Enabled(s, step) && OnSchedule(s.clock, s.workers[step.w])
    ensures var wk' := Apply(s, step).workers[step.w];
            && Shrinks(s.workers[step.w], wk') && OnSchedule(s.clock, wk')
            && Apply(s, step).workers == s.workers[step.w := wk'] && Apply(s, step).rows == s.rows
                && Apply(s, step).clock == s.clock
  {
    assert WorkerInv(s.claims, s.queued, step.w, s.workers[step.w]);
    TailShrinks(s.workers[step.w], Apply(s, step).workers[step.w]);
  }

  lemma SendTimely(s: State, step: Step)
    requires Inv(s) && Timely(s) && (step.StartSend? || step.EndSend?) && Enabled(s, step)
    ensures Timely(Apply(s, step))
  {
    assert OnSchedule(s.clock, s.workers[step.w]);
    SendShrinks(s, step);
    MoveTimely(s, step.w, Apply(s, step).workers[step.w]);
  }

  lemma LeaveTimely(s: State, step: Step)
    requires Timely(s) && (step.Leave? || step.Tick?) && Enabled(s, step) && OnTime(s, step)
    ensures Timely(Apply(s, step))
  {
    var s' := Apply(s, step);
    assert forall w :: w in s'.workers ==> w in s.workers && s'.workers[w] == s.workers[w];
    assert forall w :: w in s.workers ==> OnSchedule(s.clock, s.workers[w]);
    forall w, j | w in s'.workers && j in Active(s'.workers[w]) ensures LeasedTo(s'.rows, s'.workers[w], j) {
      assert LeasedTo(s.rows, s.workers[w], j);
    }
  }

  lemma ReduceUntouched(rows: Rows, m: string, typ: EventType, at: Time, now: Time)
    requires TableInv(rows)
    ensures PendingUntouched(rows, Reduce(rows, m, typ, at, now), {})
  {
    var rows' := Reduce(rows, m, typ, at, now);
    forall id | id in rows' && rows'[id].status.Pending? ensures rows'[id] == rows[id] {
      assert RowInv(rows[id]);
    }
  }

  lemma TableUntouched(s: State, step: Step)
    requires InvRows(s.rows, s.queued, s.made) && (step.ProviderEvent? || step.PurgeFinished? || step.PurgeTokens?)
    ensures PendingUntouched(s.rows, Apply(s, step).rows, {}) && Apply(s, step).workers == s.workers
            && Apply(s, step).clock == s.clock
  {
    if step.ProviderEvent? {
      ReduceUntouched(s.rows, step.m, step.typ, step.at, s.clock);
    }
  }

  lemma TableTimely(s: State, step: Step)
    requires Inv(s) && Timely(s) && (step.ProviderEvent? || step.PurgeFinished? || step.PurgeTokens?)
    ensures Timely(Apply(s, step))
  {
    TableUntouched(s, step);
    UntouchedKeepsLeased(s.rows, Apply(s, step).rows, s.workers, {});
  }

  lemma EnqueueTimely(s: State, step: Step)
    requires Inv(s) && Timely(s) && step.Enqueue? && Enabled(s, step)
    ensures Timely(Apply(s, step))
  {
    forall w, j | w in s.workers && j in Active(s.workers[w]) ensures j.id != step.id {
      ActiveAreHeld(s.workers, s.claims, s.queued, w, j);
    }
    UntouchedKeepsLeased(s.rows, Apply(s, step).rows, s.workers, {step.id});
  }

  // ---- claim ----------------------------------------------------------------------------

  /** Nobody else is at a job the claim can take: its lease would still be running. */
  lemma ClaimTakesIdleJobs(s: State, c: Step, w: WorkerId, j: Job)
    requires Inv(s) && Timely(s) && c.ClaimJobs? && Enabled(s, c)
    requires w in s.workers && j in Active(s.workers[w])
    ensures j.id !in c.cands
  {
    ClaimShape(s, c);
    assert LeasedTo(s.rows, s.workers[w], j) && OnSchedule(s.clock, s.workers[w]);
    ActiveWithinLease(s.clock, s.workers[w]);
  }

  /** What a claim gives its worker: candidates inside their window, leased from the claim on. */
  ghost predicate FreshlyLeased(s: State, c: Step, rows': Rows, j: Job)
    requires c.ClaimJobs?
  {
    && j.id in c.cands && c.dbNow < j.sendBefore
    && j.id in rows' && rows'[j.id].leaseToken == Some(j.leaseToken)
        && rows'[j.id].leaseUntil == Some(c.dbNow + LEASE_DURATION)
  }

  lemma NewJobsFresh(s: State, c: Step, opens: bool, j: Job)
    requires InvRows(s.rows, s.queued, s.made) && c.ClaimJobs? && Enabled(s, c) && ClaimReady(s, c)
    requires j in Sift(s.rows, Leased(s, c), c.leases, c.kr, c.dbNow, opens)
    ensures FreshlyLeased(s, c, AfterClaim(s, c).rows, j)
  {
    ClaimShape(s, c);
    SiftIs(s.rows, Leased(s, c), c.leases, c.kr, c.dbNow, opens);
    assert IsSifted(s.rows, Leased(s, c), c.leases, c.kr, c.dbNow, opens, j);
    assert IsLeased(s, c, j.id);
    LeasedRowFresh(j.id, s.rows[j.id], c, c.leases[j.id], c.kr);
  }

  lemma LeasedRowFresh(id: Id, r: Row, c: Step, lease: Lease, kr: K.Keyring)
    requires c.ClaimJobs? && RowInv(r) && r.status.Pending? && Judge(r, c.tokens, c.dbNow, c.appNow).Leasable?
             && c.dbNow <= c.appNow
    ensures var j, r' := Opened(id, r, lease, kr, c.dbNow), ClaimRow(r, c.tokens, lease, c.dbNow, c.appNow);
            c.dbNow < j.sendBefore && j.leaseToken == lease && r'.leaseToken == Some(lease)
                && r'.leaseUntil == Some(c.dbNow + LEASE_DURATION)
  {
  }

  lemma NewWorkerTimely(s: State, c: Step)
    requires InvRows(s.rows, s.queued, s.made) && c.ClaimJobs? && Enabled(s, c) && OnTime(s, c) && ClaimReady(s, c)
    ensures OnSchedule(s.clock, NewWorker(s, c))
    ensures forall j :: j in Active(NewWorker(s, c)) || j in NewWorker(s, c).jobs ==>
            FreshlyLeased(s, c, AfterClaim(s, c).rows, j)
  {
    ClaimShape(s, c);
    SiftCounts(s.rows, Leased(s, c), c.leases, c.kr, c.dbNow);
    var wk := NewWorker(s, c);
    forall j | j in Active(wk) || j in wk.jobs ensures FreshlyLeased(s, c, AfterClaim(s, c).rows, j) {
      NewJobsFresh(s, c, j !in wk.doomed, j);
    }
  }

  lemma OthersKeepLease(s: State, c: Step, v: WorkerId, j: Job)
    requires Inv(s) && Timely(s) && c.ClaimJobs? && Enabled(s, c) && ClaimReady(s, c)
    requires v in s.workers && j in Active(s.workers[v])
    ensures j.id !in c.cands && LeasedTo(AfterClaim(s, c).rows, s.workers[v], j)
  {
    ClaimTakesIdleJobs(s, c, v, j);
    assert LeasedTo(s.rows, s.workers[v], j);
  }

  lemma ClaimTimely(s: State, c: Step)
    requires Inv(s) && Timely(s) && c.ClaimJobs? && Enabled(s, c) && OnTime(s, c)
    ensures Timely(Apply(s, c))
  {
    ClaimShape(s, c);
    NewWorkerTimely(s, c);
    forall v, j | v in s.workers && j in Active(s.workers[v]) ensures j.id !in c.cands
        && LeasedTo(AfterClaim(s, c).rows, s.workers[v], j) {
      OthersKeepLease(s, c, v, j);
    }
    assert forall j :: j in Active(NewWorker(s, c)) ==> FreshlyLeased(s, c, AfterClaim(s, c).rows, j);
    WorkerJoins(s, c, AfterClaim(s, c).rows, NewWorker(s, c));
  }

  lemma WorkerJoins(s: State, c: Step, rows': Rows, wk: Worker)
    requires c.ClaimJobs? && c.w !in s.workers && wk.claimedAt == c.dbNow
    requires Timely(s) && OnSchedule(s.clock, wk)
    requires forall j :: j in Active(wk) || j in wk.jobs ==> FreshlyLeased(s, c, rows', j)
    requires forall v, j :: v in s.workers && j in Active(s.workers[v]) ==>
               j.id !in c.cands && LeasedTo(rows', s.workers[v], j)
    ensures var workers' := s.workers[c.w := wk];
            InvTime(s.clock, workers') && InvLeased(rows', workers') && InvApart(workers') && InvWindow(workers')
  {
    JoinLeased(s, c, rows', wk);
    JoinApart(s.workers, c, wk);
    forall j | j in wk.jobs ensures wk.claimedAt < j.sendBefore {
      assert FreshlyLeased(s, c, rows', j);
    }
  }

  lemma JoinLeased(s: State, c: Step, rows': Rows, wk: Worker)
    requires c.ClaimJobs? && wk.claimedAt == c.dbNow
    requires forall j :: j in Active(wk) ==> FreshlyLeased(s, c, rows', j)
    requires forall v, j :: v in s.workers && j in Active(s.workers[v]) ==> LeasedTo(rows', s.workers[v], j)
    ensures InvLeased(rows', s.workers[c.w := wk])
  {
    var workers' := s.workers[c.w := wk];
    forall v, j | v in workers' && j in Active(workers'[v]) ensures LeasedTo(rows', workers'[v], j) {
      if v == c.w {
        assert FreshlyLeased(s, c, rows', j);
      }
    }
  }

  lemma JoinApart(workers: Workers, c: Step, wk: Worker)
    requires c.ClaimJobs? && InvApart(workers)
    requires forall j :: j in Active(wk) ==> j.id in c.cands
    requires forall v, j :: v in workers && j in Active(workers[v]) ==> j.id !in c.cands
    ensures InvApart(workers[c.w := wk])
  {
  }

  // ---- every timed run ------------------------------------------------------------------

  lemma StepTimely(s: State, step: Step)
    requires Inv(s) && Timely(s) && OnTime(s, step)
    ensures Timely(Apply(s, step))
  {
    if Enabled(s, step) {
      match step
      case Tick(_) => LeaveTimely(s, step);
      case Leave(_) => LeaveTimely(s, step);
      case Enqueue(_, _, _, _) => EnqueueTimely(s, step);
      case ClaimJobs(_, _, _, _, _, _, _, _, _, _) => ClaimTimely(s, step);
      case FailDoomed(_) => FailDoomedTimely(s, step);
      case StartSend(_) => SendTimely(s, step);
      case EndSend(_, _, _) => SendTimely(s, step);
      case Record(_) => RecordTimely(s, step);
      case Skip(_) => SkipTimely(s, step);
      case _ => TableTimely(s, step);
    }
  }

  lemma {:induction false} TimedRunIsTimely(s: State, steps: seq<Step>)
    requires Inv(s) && Timely(s) && TimedRun(s, steps)
    ensures Inv(Run(s, steps)) && Timely(Run(s, steps))
    decreases |steps|
  {
    if steps != [] {
      StepKeepsInv(s, steps[0]);
      StepTimely(s, steps[0]);
      TimedRunIsTimely(Apply(s, steps[0]), steps[1..]);
    }
  }

  /** Send intervals of one job never overlap, for any number of workers: while one worker is inside the provider
      call of a job, no other is inside a call for it, has it ahead, or can claim it. */
  lemma SendsNeverOverlap(now: Time, steps: seq<Step>, w: WorkerId)
    requires TimedRun(Init(now), steps)
    requires var s := Run(Init(now), steps); w in s.workers && s.workers[w].phase.Sending? && s.workers[w].jobs != []
    ensures var s := Run(Init(now), steps);
            && s.clock < s.workers[w].claimedAt + LEASE_DURATION
            && (forall v :: v in s.workers && v != w && s.workers[v].phase.Sending? && s.workers[v].jobs != [] ==>
                  Current(s, v).id != Current(s, w).id)
            && (forall v, j :: v in s.workers && v != w && j in Active(s.workers[v]) ==> j.id != Current(s, w).id)
            && (forall c: Step :: c.ClaimJobs? && Enabled(s, c) ==> Current(s, w).id !in c.cands)
  {
    var s := Run(Init(now), steps);
    InitInv(now);
    TimedRunIsTimely(Init(now), steps);
    assert OnSchedule(s.clock, s.workers[w]) && Current(s, w) in Active(s.workers[w]);
    ActiveWithinLease(s.clock, s.workers[w]);
    forall c: Step | c.ClaimJobs? && Enabled(s, c) ensures Current(s, w).id !in c.cands {
      ClaimTakesIdleJobs(s, c, w, Current(s, w));
    }
    forall v | v in s.workers && v != w && s.workers[v].phase.Sending? && s.workers[v].jobs != []
      ensures Current(s, v).id != Current(s, w).id
    {
      assert Current(s, v) in Active(s.workers[v]);
    }
  }

  lemma StartBound(clock: Time, wk: Worker)
    requires OnSchedule(clock, wk) && wk.phase.Between? && wk.jobs != []
    ensures clock <= wk.claimedAt + wk.done * PER_JOB + OVERHEAD
    ensures clock <= wk.claimedAt + (CLAIM_BATCH - 1) * PER_JOB + OVERHEAD
  {
  }

  /** The window is checked once per batch, at the claim, so a send can start after it: by less than the three
      deliveries that may come first plus the margin. */
  lemma SendsStartNearWindow(now: Time, steps: seq<Step>, w: WorkerId)
    requires TimedRun(Init(now), steps)
    requires Enabled(Run(Init(now), steps), StartSend(w))
    ensures var s := Run(Init(now), steps);
            s.clock < Current(s, w).sendBefore + (CLAIM_BATCH - 1) * PER_JOB + OVERHEAD
  {
    var s := Run(Init(now), steps);
    InitInv(now);
    TimedRunIsTimely(Init(now), steps);
    StartBound(s.clock, s.workers[w]);
    assert Current(s, w) in s.workers[w].jobs;
  }
}
