/** Every step of the delivery protocol keeps the invariant. */
module DeliveryInv {
  import opened Base
  import opened OutboxTable
  import opened Jobs
  import opened Delivery
  import K = Keyring
  import T = TokenTable

  lemma InitInv(now: Time)
    ensures Inv(Init(now))
  {
  }

  // ---- statements that hand out no lease ------------------------------------------------

  predicate Releases(r: Row, r': Row) {
    Steps(r, r') && r'.attempts == r.attempts && (r'.leaseToken.Some? ==> r'.leaseToken == r.leaseToken)
  }

  ghost predicate AllRelease(rows: Rows, rows': Rows) {
    forall id :: id in rows' ==> id in rows && Releases(rows[id], rows'[id])
  }

  lemma ReleaseFaithful(id: Id, r: Row, r': Row, input: QueueInput)
    requires RowInv(r) && Releases(r, r') && Faithful(id, r, input)
    ensures Faithful(id, r', input)
  {
  }

  lemma ReleaseKeepsRows(rows: Rows, rows': Rows, queued: Queued, made: map<Id, nat>, claims: Claims)
    requires InvRows(rows, queued, made) && InvLeases(rows, made, claims) && AllRelease(rows, rows')
    ensures InvRows(rows', queued, made) && InvLeases(rows', made, claims)
  {
    forall id | id in rows' ensures RowInv(rows'[id]) && Faithful(id, rows'[id], queued[id]) {
      assert Releases(rows[id], rows'[id]);
      ReleaseFaithful(id, rows[id], rows'[id], queued[id]);
    }
    forall id | id in rows' && rows'[id].leaseToken.Some?
      ensures HoldsLatest(made, claims, id, rows'[id].leaseToken.value)
    {
      assert Releases(rows[id], rows'[id]);
      assert HoldsLatest(made, claims, id, rows[id].leaseToken.value);
    }
  }

  lemma CancelReleases(rows: Rows, userId: string, purpose: string, now: Time)
    requires TableInv(rows)
    ensures AllRelease(rows, CancelPending(rows, userId, purpose, now))
  {
    CancelKeeps(rows, userId, purpose, now);
  }

  lemma FinalizeReleases(rows: Rows, id: Id, lease: Lease, out: Outcome, now: Time)
    requires TableInv(rows)
    ensures AllRelease(rows, Finalize(rows, id, lease, out, now))
  {
    assert id in rows ==> RowInv(rows[id]);
    forall k | k in rows ensures Releases(rows[k], Finalize(rows, id, lease, out, now)[k]) {
      SameSteps(rows[k]);
      if k == id && Matches(rows, id, lease, out) {
        FinalizeSteps(rows[id], out, now);
      }
    }
  }

  lemma ReduceReleases(rows: Rows, m: string, typ: EventType, at: Time, now: Time)
    requires TableInv(rows)
    ensures AllRelease(rows, Reduce(rows, m, typ, at, now))
  {
    forall k | k in rows ensures Releases(rows[k], Reduce(rows, m, typ, at, now)[k]) {
      SameSteps(rows[k]);
      if rows[k].providerMessageId == Some(m) {
        ReduceSteps(rows[k], typ, at, now);
      }
    }
  }

  lemma PurgeReleases(rows: Rows, cutoff: Time)
    requires TableInv(rows)
    ensures AllRelease(rows, Purge(rows, cutoff))
  {
    forall k | k in rows ensures Releases(rows[k], rows[k]) {
      SameSteps(rows[k]);
    }
  }

  lemma ForgetReleases(rows: Rows, kept: T.Tokens)
    requires TableInv(rows)
    ensures AllRelease(rows, ForgetTokens(rows, kept))
  {
    forall k | k in rows ensures Releases(rows[k], ForgetRow(rows[k], kept)) {
      ForgetSteps(rows[k], kept);
    }
  }

  // ---- workers moving through their batch -----------------------------------------------

  lemma WorkerMoves(workers: Workers, claims: Claims, queued: Queued, sends: seq<Sent>, w: WorkerId, wk: Worker)
    requires InvWorkers(workers, claims, queued) && InvUnsent(sends, workers)
    requires w in workers && WorkerInv(claims, queued, w, wk)
    requires forall j :: j in Unsent(wk) ==> j in Unsent(workers[w])
    ensures InvWorkers(workers[w := wk], claims, queued) && InvUnsent(sends, workers[w := wk])
  {
  }

  lemma DropDoomed(claims: Claims, queued: Queued, w: WorkerId, wk: Worker)
    requires WorkerInv(claims, queued, w, wk) && wk.doomed != []
    ensures WorkerInv(claims, queued, w, wk.(doomed := wk.doomed[1..]))
  {
    assert forall j :: j in wk.doomed[1..] ==> j in wk.doomed;
  }

  lemma DropJob(claims: Claims, queued: Queued, w: WorkerId, wk: Worker, now: Time)
    requires WorkerInv(claims, queued, w, wk) && wk.jobs != []
    ensures WorkerInv(claims, queued, w, AfterJob(wk, now))
  {
    assert forall j :: j in wk.jobs[1..] ==> j in wk.jobs;
  }

  lemma FailDoomedKeepsInv(s: State, step: Step)
    requires Inv(s) && step.FailDoomed? && Enabled(s, step)
    ensures Inv(Apply(s, step))
  {
    var wk := s.workers[step.w];
    var j := wk.doomed[0];
    FinalizeReleases(s.rows, j.id, j.leaseToken, OutcomeFailed(DecryptFailed), s.clock);
    ReleaseKeepsRows(s.rows, Apply(s, step).rows, s.queued, s.made, s.claims);
    DropDoomed(s.claims, s.queued, step.w, wk);
    WorkerMoves(s.workers, s.claims, s.queued, s.sends, step.w, wk.(doomed := wk.doomed[1..]));
  }

  lemma RecordKeepsInv(s: State, step: Step)
    requires Inv(s) && step.Record? && Enabled(s, step)
    ensures Inv(Apply(s, step))
  {
    var wk := s.workers[step.w];
    var j := wk.jobs[0];
    FinalizeReleases(s.rows, j.id, j.leaseToken, wk.phase.out, s.clock);
    ReleaseKeepsRows(s.rows, Apply(s, step).rows, s.queued, s.made, s.claims);
    DropJob(s.claims, s.queued, step.w, wk, s.clock);
    WorkerMoves(s.workers, s.claims, s.queued, s.sends, step.w, Apply(s, step).workers[step.w]);
  }

  lemma SkipKeepsInv(s: State, step: Step)
    requires Inv(s) && step.Skip? && Enabled(s, step)
    ensures Inv(Apply(s, step))
  {
    var wk := s.workers[step.w];
    if wk.doomed != [] {
      DropDoomed(s.claims, s.queued, step.w, wk);
    } else {
      DropJob(s.claims, s.queued, step.w, wk, s.clock);
    }
    WorkerMoves(s.workers, s.claims, s.queued, s.sends, step.w, Onward(wk, s.clock));
  }

  lemma EndSendKeepsInv(s: State, step: Step)
    requires Inv(s) && step.EndSend? && Enabled(s, step)
    ensures Inv(Apply(s, step))
  {
    var wk := s.workers[step.w];
    assert WorkerInv(s.claims, s.queued, step.w, wk);
    WorkerMoves(s.workers, s.claims, s.queued, s.sends, step.w, Apply(s, step).workers[step.w]);
  }

  lemma StartSendKeepsInv(s: State, step: Step)
    requires Inv(s) && step.StartSend? && Enabled(s, step)
    ensures Inv(Apply(s, step))
  {
    var wk := s.workers[step.w];
    var j := wk.jobs[0];
    StartingWorker(s, step.w);
    AppendSend(s.sends, s.claims, s.queued, step.w, j);
    OthersUnsent(s, step.w, Apply(s, step).workers[step.w]);
  }

  lemma StartingWorker(s: State, w: WorkerId)
    requires InvWorkers(s.workers, s.claims, s.queued) && InvUnsent(s.sends, s.workers)
    requires w in s.workers && s.workers[w].phase.Between? && s.workers[w].doomed == [] && s.workers[w].jobs != []
    ensures var wk := s.workers[w];
            && Deliverable(s.claims, s.queued, w, wk.jobs[0]) && NotYetSent(s.sends, wk.jobs[0])
            && InvWorkers(s.workers[w := wk.(phase := Sending, overhead := wk.overhead + (s.clock - wk.since),
                since := s.clock)], s.claims, s.queued)
  {
    assert s.workers[w].jobs[0] in Unsent(s.workers[w]);
    assert WorkerInv(s.claims, s.queued, w, s.workers[w]);
  }

  lemma AppendSend(sends: seq<Sent>, claims: Claims, queued: Queued, w: WorkerId, j: Job)
    requires InvSends(sends, claims, queued) && Deliverable(claims, queued, w, j) && NotYetSent(sends, j)
    ensures InvSends(sends + [Sent(j.id, j.attempt, IdempotencyKey(j.id), j.message)], claims, queued)
  {
  }

  /** Logging a send: it is the first under its claim, and nobody else still has that claim to send. */
  lemma OthersUnsent(s: State, w: WorkerId, wk': Worker)
    requires InvWorkers(s.workers, s.claims, s.queued) && InvUnsent(s.sends, s.workers)
    requires w in s.workers && s.workers[w].jobs != [] && s.workers[w].phase.Between?
    requires wk'.phase.Sending? && wk'.jobs == s.workers[w].jobs
    ensures var j := s.workers[w].jobs[0];
            InvUnsent(s.sends + [Sent(j.id, j.attempt, IdempotencyKey(j.id), j.message)], s.workers[w := wk'])
  {
    var j := s.workers[w].jobs[0];
    var e := Sent(j.id, j.attempt, IdempotencyKey(j.id), j.message);
    var workers' := s.workers[w := wk'];
    assert WorkerInv(s.claims, s.queued, w, s.workers[w]);
    forall v, k | v in workers' && k in Unsent(workers'[v]) ensures NotYetSent(s.sends + [e], k) {
      assert k in Unsent(s.workers[v]) && NotYetSent(s.sends, k);
      assert WorkerInv(s.claims, s.queued, v, s.workers[v]) && k in s.workers[v].jobs;
      assert Deliverable(s.claims, s.queued, v, k) && Deliverable(s.claims, s.queued, w, j);
    }
  }

  lemma TableStepKeepsInv(s: State, step: Step)
    requires Inv(s) && (step.ProviderEvent? || step.PurgeFinished? || step.PurgeTokens?)
    ensures Inv(Apply(s, step))
  {
    match step {
      case ProviderEvent(m, typ, at) => ReduceReleases(s.rows, m, typ, at, s.clock);
      case PurgeFinished(olderThan) => PurgeReleases(s.rows, s.clock - olderThan);
      case PurgeTokens(kept) => ForgetReleases(s.rows, kept);
    }
    ReleaseKeepsRows(s.rows, Apply(s, step).rows, s.queued, s.made, s.claims);
  }

  lemma LeaveKeepsInv(s: State, step: Step)
    requires Inv(s) && (step.Leave? || step.Tick?)
    ensures Inv(Apply(s, step))
  {
  }

  // ---- enqueue --------------------------------------------------------------------------

  lemma QueuedGrows(workers: Workers, claims: Claims, queued: Queued, sends: seq<Sent>, id: Id, input: QueueInput)
    requires InvWorkers(workers, claims, queued) && InvSends(sends, claims, queued) && id !in queued
    ensures InvWorkers(workers, claims, queued[id := input]) && InvSends(sends, claims, queued[id := input])
  {
    var queued' := queued[id := input];
    forall w | w in workers ensures WorkerInv(claims, queued', w, workers[w]) {
      assert WorkerInv(claims, queued, w, workers[w]);
      assert forall j :: Deliverable(claims, queued, w, j) ==> Deliverable(claims, queued', w, j);
    }
    assert forall e :: SendOk(claims, queued, e) ==> SendOk(claims, queued', e);
  }

  lemma EnqueueKeepsInv(s: State, step: Step)
    requires Inv(s) && step.Enqueue? && Enabled(s, step)
    ensures Inv(Apply(s, step))
  {
    var rows1 := CancelPending(s.rows, step.input.userId, step.input.purpose, s.clock);
    CancelReleases(s.rows, step.input.userId, step.input.purpose, s.clock);
    ReleaseKeepsRows(s.rows, rows1, s.queued, s.made, s.claims);
    InsertKeepsRows(s.(rows := rows1), step);
    QueuedGrows(s.workers, s.claims, s.queued, s.sends, step.id, step.input);
  }

  lemma InsertKeepsRows(s: State, step: Step)
    requires step.Enqueue? && Enabled(s, step)
    requires InvRows(s.rows, s.queued, s.made) && InvClaims(s.made, s.claims) && InvLeases(s.rows, s.made, s.claims)
    ensures var p := K.Encrypt(step.kr, step.nonce, step.input.body,
            PayloadAad(step.id, step.input.provider, step.input.purpose)).value;
            var rows', queued', made' := s.rows[step.id := NewRow(step.input, p, s.clock)],
                s.queued[step.id := step.input], s.made[step.id := 0];
            InvRows(rows', queued', made') && InvClaims(made', s.claims) && InvLeases(rows', made', s.claims)
  {
    forall id | id in s.rows && s.rows[id].leaseToken.Some?
      ensures HoldsLatest(s.made[step.id := 0], s.claims, id, s.rows[id].leaseToken.value)
    {
      assert HoldsLatest(s.made, s.claims, id, s.rows[id].leaseToken.value);
    }
  }

  // ---- claim ----------------------------------------------------------------------------

  ghost predicate IsLeased(s: State, c: Step, id: Id)
    requires c.ClaimJobs? && forall x :: x in c.cands ==> x in s.rows
  {
    id in c.cands && Judge(s.rows[id], c.tokens, c.dbNow, c.appNow).Leasable?
  }

  lemma ClaimShape(s: State, c: Step)
    requires InvRows(s.rows, s.queued, s.made) && c.ClaimJobs? && Enabled(s, c)
    ensures ClaimReady(s, c) && Distinct(c.cands) && Distinct(Leased(s, c)) && |Leased(s, c)| <= CLAIM_BATCH
    ensures forall id :: id in c.cands ==>
              id in s.rows && s.rows[id].status.Pending? && Eligible(s.rows[id], c.provider, c.dbNow)
    ensures forall id :: id in Leased(s, c) <==> IsLeased(s, c, id)
    ensures Apply(s, c) == AfterClaim(s, c)
  {
    LeasedAreLeasable(s.rows, c.cands, c.tokens, c.dbNow, c.appNow);
  }

  lemma ClaimRowFaithful(id: Id, r: Row, input: QueueInput, c: Step, lease: Lease)
    requires c.ClaimJobs? && RowInv(r) && r.status.Pending? && Faithful(id, r, input)
    ensures Faithful(id, ClaimRow(r, c.tokens, lease, c.dbNow, c.appNow), input)
  {
  }

  lemma ClaimKeepsRows(rows: Rows, queued: Queued, made: map<Id, nat>, c: Step, ids: seq<Id>)
    requires InvRows(rows, queued, made) && c.ClaimJobs?
    requires forall id :: id in c.cands ==> id in rows && id in c.leases && rows[id].status.Pending?
    requires forall id :: id in ids <==> id in c.cands && Judge(rows[id], c.tokens, c.dbNow, c.appNow).Leasable?
    ensures InvRows(OutboxTable.Claim(rows, c.cands, c.tokens, c.leases, c.dbNow, c.appNow), queued,
            CountClaims(made, ids))
  {
    var rows', made' := OutboxTable.Claim(rows, c.cands, c.tokens, c.leases, c.dbNow, c.appNow), CountClaims(made, ids);
    ClaimKeeps(rows, c.cands, c.tokens, c.leases, c.dbNow, c.appNow);
    forall id | id in rows' ensures rows'[id].attempts == made'[id] <= MAX_ATTEMPTS
        && Faithful(id, rows'[id], queued[id]) {
      ClaimedRow(rows, queued, made, c, ids, id);
    }
    CountBound(rows, made, c, ids);
  }

  lemma ClaimedRow(rows: Rows, queued: Queued, made: map<Id, nat>, c: Step, ids: seq<Id>, id: Id)
    requires InvRows(rows, queued, made) && c.ClaimJobs? && id in rows
    requires forall x :: x in c.cands ==> x in rows && x in c.leases && rows[x].status.Pending?
    requires id in ids <==> id in c.cands && Judge(rows[id], c.tokens, c.dbNow, c.appNow).Leasable?
    ensures var r' := OutboxTable.Claim(rows, c.cands, c.tokens, c.leases, c.dbNow, c.appNow)[id];
            r'.attempts == CountClaims(made, ids)[id] <= MAX_ATTEMPTS && Faithful(id, r', queued[id])
  {
    if id in c.cands {
      ClaimRowFaithful(id, rows[id], queued[id], c, c.leases[id]);
    }
  }

  lemma CountBound(rows: Rows, made: map<Id, nat>, c: Step, ids: seq<Id>)
    requires c.ClaimJobs? && (forall id :: id in made ==> made[id] <= MAX_ATTEMPTS)
    requires forall id :: id in ids ==> id in rows && id in made && rows[id].attempts == made[id]
                                        && Judge(rows[id], c.tokens, c.dbNow, c.appNow).Leasable?
    ensures forall id :: id in CountClaims(made, ids) ==> CountClaims(made, ids)[id] <= MAX_ATTEMPTS
  {
  }

  ghost predicate Extends(claims: Claims, claims': Claims) {
    forall k :: k in claims ==> k in claims' && claims'[k] == claims[k]
  }

  ghost predicate NewOrOld(made: map<Id, nat>, claims: Claims, claims': Claims, ids: seq<Id>, leases: map<Id, Lease>,
      w: WorkerId, k: (Id, nat)) {
    k in claims' &&
    if k in claims then claims'[k] == claims[k]
    else k.0 in ids && k.0 in made && k.0 in leases && k.1 == made[k.0] + 1 && claims'[k] == Claimed(leases[k.0], w)
  }

  ghost predicate Logged(made: map<Id, nat>, claims: Claims, claims': Claims, leases: map<Id, Lease>, w: WorkerId,
      id: Id) {
    id in made && id in leases && (id, made[id] + 1) !in claims && HeldAt(claims', id, made[id] + 1, leases[id], w)
  }

  lemma {:induction false} LogEntries(made: map<Id, nat>, claims: Claims, ids: seq<Id>, leases: map<Id, Lease>,
      w: WorkerId)
    requires forall k :: k in claims ==> k.0 in made && k.1 <= made[k.0]
    requires forall id :: id in ids ==> id in made && id in leases
    ensures var claims' := LogClaims(made, claims, ids, leases, w);
            && Extends(claims, claims')
            && (forall k :: k in claims' ==> NewOrOld(made, claims, claims', ids, leases, w, k))
            && (forall id :: id in ids ==> Logged(made, claims, claims', leases, w, id))
  {
    if ids != [] {
      LogEntries(made, claims, ids[1..], leases, w);
      var rest, claims' := LogClaims(made, claims, ids[1..], leases, w), LogClaims(made, claims, ids, leases, w);
      assert forall id :: id in ids <==> id == ids[0] || id in ids[1..];
      forall k | k in claims' ensures NewOrOld(made, claims, claims', ids, leases, w, k) {
        assert k != (ids[0], made[ids[0]] + 1) ==> NewOrOld(made, claims, rest, ids[1..], leases, w, k);
      }
      forall id | id in ids ensures Logged(made, claims, claims', leases, w, id) {
        assert id != ids[0] ==> Logged(made, claims, rest, leases, w, id);
      }
    }
  }

  lemma EntriesDiffer(made: map<Id, nat>, claims: Claims, claims': Claims, ids: seq<Id>, leases: map<Id, Lease>,
      w: WorkerId, k: (Id, nat), k': (Id, nat))
    requires NewOrOld(made, claims, claims', ids, leases, w, k) && NewOrOld(made, claims, claims', ids, leases, w, k')
    requires claims'[k].lease == claims'[k'].lease
    requires k in claims && k' in claims && claims[k].lease == claims[k'].lease ==> k == k'
    requires forall id, id' :: id in leases && id' in leases && leases[id] == leases[id'] ==> id == id'
    requires forall id, x :: id in leases && x in claims ==> claims[x].lease != leases[id]
    ensures k == k'
  {
  }

  /** The claims a run has made only grow, each under a new attempt number and a new lease. */
  lemma LogKeepsClaims(made: map<Id, nat>, claims: Claims, ids: seq<Id>, leases: map<Id, Lease>, w: WorkerId)
    requires InvClaims(made, claims)
    requires forall id :: id in ids ==> id in made && id in leases
    requires forall id, id' :: id in leases && id' in leases && leases[id] == leases[id'] ==> id == id'
    requires forall id, k :: id in leases && k in claims ==> claims[k].lease != leases[id]
    ensures InvClaims(CountClaims(made, ids), LogClaims(made, claims, ids, leases, w))
    ensures Extends(claims, LogClaims(made, claims, ids, leases, w))
    ensures forall id :: id in ids ==> Logged(made, claims, LogClaims(made, claims, ids, leases, w), leases, w, id)
  {
    LogEntries(made, claims, ids, leases, w);
    var claims' := LogClaims(made, claims, ids, leases, w);
    forall k, k' | k in claims' && k' in claims' && claims'[k].lease == claims'[k'].lease ensures k == k' {
      EntriesDiffer(made, claims, claims', ids, leases, w, k, k');
    }
    forall k | k in claims' ensures k.0 in made && 1 <= k.1 <= CountClaims(made, ids)[k.0] {
      assert NewOrOld(made, claims, claims', ids, leases, w, k);
    }
  }

  ghost predicate HeldAt(claims: Claims, id: Id, attempt: nat, lease: Lease, w: WorkerId) {
    (id, attempt) in claims && claims[(id, attempt)] == Claimed(lease, w)
  }

  lemma ClaimKeepsLeases(rows: Rows, made: map<Id, nat>, claims: Claims, claims': Claims, c: Step, ids: seq<Id>)
    requires TableInv(rows) && InvLeases(rows, made, claims) && c.ClaimJobs?
    requires forall id :: id in c.cands ==> id in rows && id in c.leases && rows[id].status.Pending?
    requires forall id :: id in ids <==> id in c.cands && Judge(rows[id], c.tokens, c.dbNow, c.appNow).Leasable?
    requires Extends(claims, claims')
    requires forall id :: id in ids ==> Logged(made, claims, claims', c.leases, c.w, id)
    ensures InvLeases(OutboxTable.Claim(rows, c.cands, c.tokens, c.leases, c.dbNow, c.appNow), CountClaims(made, ids),
            claims')
  {
    var rows', made' := OutboxTable.Claim(rows, c.cands, c.tokens, c.leases, c.dbNow, c.appNow), CountClaims(made, ids);
    forall id | id in rows' && rows'[id].leaseToken.Some?
      ensures HoldsLatest(made', claims', id, rows'[id].leaseToken.value)
    {
      if id !in ids {
        assert HoldsLatest(made, claims, id, rows[id].leaseToken.value);
      } else {
        assert Logged(made, claims, claims', c.leases, c.w, id);
      }
    }
  }

  lemma NewDoomed(s: State, c: Step, claims': Claims)
    requires InvRows(s.rows, s.queued, s.made) && c.ClaimJobs? && ClaimReady(s, c) && Distinct(Leased(s, c))
    requires forall id :: id in Leased(s, c) ==> Logged(s.made, s.claims, claims', c.leases, c.w, id)
    ensures forall j :: j in NewWorker(s, c).doomed ==> HeldBy(claims', c.w, j)
    ensures DistinctJobs(NewWorker(s, c).doomed)
  {
    var ids := Leased(s, c);
    SiftIs(s.rows, ids, c.leases, c.kr, c.dbNow, false);
    forall j | j in NewWorker(s, c).doomed ensures HeldBy(claims', c.w, j) {
      assert IsSifted(s.rows, ids, c.leases, c.kr, c.dbNow, false, j);
      assert Logged(s.made, s.claims, claims', c.leases, c.w, j.id);
    }
  }

  lemma NewJobs(s: State, c: Step, claims': Claims)
    requires InvRows(s.rows, s.queued, s.made) && c.ClaimJobs? && ClaimReady(s, c) && Distinct(Leased(s, c))
    requires forall id :: id in Leased(s, c) ==> Logged(s.made, s.claims, claims', c.leases, c.w, id)
    ensures forall j :: j in NewWorker(s, c).jobs ==>
              Deliverable(claims', s.queued, c.w, j) && (j.id, j.attempt) !in s.claims
    ensures DistinctJobs(NewWorker(s, c).jobs)
  {
    var ids := Leased(s, c);
    SiftIs(s.rows, ids, c.leases, c.kr, c.dbNow, true);
    forall j | j in NewWorker(s, c).jobs ensures Deliverable(claims', s.queued, c.w, j)
        && (j.id, j.attempt) !in s.claims {
      assert IsSifted(s.rows, ids, c.leases, c.kr, c.dbNow, true, j);
      assert Logged(s.made, s.claims, claims', c.leases, c.w, j.id);
      OpensToQueued(j.id, s.rows[j.id], s.queued[j.id], c.kr);
    }
  }

  lemma NewWorkerOk(s: State, c: Step, claims': Claims)
    requires InvRows(s.rows, s.queued, s.made) && c.ClaimJobs? && ClaimReady(s, c) && Distinct(Leased(s, c))
    requires forall id :: id in Leased(s, c) ==> Logged(s.made, s.claims, claims', c.leases, c.w, id)
    ensures WorkerInv(claims', s.queued, c.w, NewWorker(s, c))
    ensures forall j :: j in Unsent(NewWorker(s, c)) ==> (j.id, j.attempt) !in s.claims
  {
    NewDoomed(s, c, claims');
    NewJobs(s, c, claims');
    SidesDisjoint(s.rows, Leased(s, c), c.leases, c.kr, c.dbNow);
  }

  lemma OpensToQueued(id: Id, r: Row, input: QueueInput, kr: K.Keyring)
    requires Faithful(id, r, input) && r.nonce.Some? && r.ciphertext.Some?
    ensures OpenBody(id, r, kr).Ok? ==> OpenBody(id, r, kr).value == input.body
  {
  }

  lemma ClaimKeepsInv(s: State, c: Step)
    requires Inv(s) && c.ClaimJobs? && Enabled(s, c)
    ensures Inv(Apply(s, c))
  {
    ClaimShape(s, c);
    var s', ids := AfterClaim(s, c), Leased(s, c);
    ClaimKeepsRows(s.rows, s.queued, s.made, c, ids);
    LogKeepsClaims(s.made, s.claims, ids, c.leases, c.w);
    ClaimKeepsLeases(s.rows, s.made, s.claims, s'.claims, c, ids);
    NewWorkerOk(s, c, s'.claims);
    ClaimKeepsWorkers(s, s', c.w, NewWorker(s, c));
  }

  lemma ClaimKeepsWorkers(s: State, s': State, w: WorkerId, wk: Worker)
    requires InvWorkers(s.workers, s.claims, s.queued) && InvSends(s.sends, s.claims, s.queued)
             && InvUnsent(s.sends, s.workers)
    requires Extends(s.claims, s'.claims)
    requires WorkerInv(s'.claims, s.queued, w, wk)
    requires forall j :: j in Unsent(wk) ==> (j.id, j.attempt) !in s.claims
    requires s'.workers == s.workers[w := wk] && s'.sends == s.sends && s'.queued == s.queued
    ensures InvWorkers(s'.workers, s'.claims, s'.queued) && InvSends(s'.sends, s'.claims, s'.queued)
            && InvUnsent(s'.sends, s'.workers)
  {
    forall v | v in s'.workers ensures WorkerInv(s'.claims, s.queued, v, s'.workers[v]) {
      assert v != w ==> WorkerInv(s.claims, s.queued, v, s.workers[v]);
      assert forall j :: HeldBy(s.claims, v, j) ==> HeldBy(s'.claims, v, j);
      assert forall j :: Deliverable(s.claims, s.queued, v, j) ==> Deliverable(s'.claims, s.queued, v, j);
    }
    forall e | e in s.sends ensures SendOk(s'.claims, s.queued, e) {
      assert SendOk(s.claims, s.queued, e);
    }
    forall j | j in Unsent(wk) ensures NotYetSent(s.sends, j) {
      assert forall e :: e in s.sends ==> SendOk(s.claims, s.queued, e);
    }
  }

  // ---- every step, every run ------------------------------------------------------------

  lemma StepKeepsInv(s: State, step: Step)
    requires Inv(s)
    ensures Inv(Apply(s, step))
  {
    if Enabled(s, step) {
      match step
      case Tick(_) => LeaveKeepsInv(s, step);
      case Leave(_) => LeaveKeepsInv(s, step);
      case Enqueue(_, _, _, _) => EnqueueKeepsInv(s, step);
      case ClaimJobs(_, _, _, _, _, _, _, _, _, _) => ClaimKeepsInv(s, step);
      case FailDoomed(_) => FailDoomedKeepsInv(s, step);
      case StartSend(_) => StartSendKeepsInv(s, step);
      case EndSend(_, _, _) => EndSendKeepsInv(s, step);
      case Record(_) => RecordKeepsInv(s, step);
      case Skip(_) => SkipKeepsInv(s, step);
      case _ => TableStepKeepsInv(s, step);
    }
  }

  lemma {:induction false} RunKeepsInv(s: State, steps: seq<Step>)
    requires Inv(s)
    ensures Inv(Run(s, steps))
    decreases |steps|
  {
    if steps != [] {
      StepKeepsInv(s, steps[0]);
      RunKeepsInv(Apply(s, steps[0]), steps[1..]);
    }
  }
}
