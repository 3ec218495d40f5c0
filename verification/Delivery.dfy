/** The delivery protocol: any number of workers claim rows under a lease, send outside the transaction and
    finalize by lease token, while handlers enqueue and supersede, webhooks reduce events, tokens are purged and
    workers crash or stall. One step is one committed transaction, one autocommitted statement, or one provider call.
    Time only moves in Tick, by any amount, so a stall is a long Tick. */
module Delivery {
  import opened Base
  import opened OutboxTable
  import opened Jobs
  import K = Keyring
  import R = RetryPolicy
  import T = TokenTable

  type WorkerId = nat

  const CLAIM_BATCH: nat := 4

  /** Where a worker stands: between provider calls, inside one, or recording what it returned. */
  datatype Phase = Between | Sending | Recording(out: Outcome)

  /** A worker with a batch: undecryptable jobs still to be failed, then jobs to deliver, the current one first.
      `claimedAt` is the claim's database time, `since` the start of this phase, `overhead` the time spent
      between provider calls before it. */
  datatype Worker = Worker(
    claimedAt: Time, overhead: Duration, since: Time, phase: Phase, doomed: seq<Job>, jobs: seq<Job>, done: nat)

  datatype Claimed = Claimed(lease: Lease, worker: WorkerId)

  type Queued = map<Id, QueueInput>
  type Claims = map<(Id, nat), Claimed>
  type Workers = map<WorkerId, Worker>

  datatype Sent = Sent(id: Id, attempt: nat, key: string, message: Message)

  /** The tables and the live workers, and after them what the run has done so far: every job ever queued, how often
      each was claimed, by whom and under which lease, and every provider call. */
  datatype State = State(
    clock: Time, rows: Rows, workers: Workers,
    queued: Queued, made: map<Id, nat>, claims: Claims, sends: seq<Sent>)

  datatype Step =
    | Tick(d: Duration)
    | Enqueue(id: Id, input: QueueInput, kr: K.Keyring, nonce: string)
    | ClaimJobs(w: WorkerId, provider: string, limit: nat, locked: set<Id>, cands: seq<Id>, tokens: T.Tokens,
                leases: map<Id, Lease>, kr: K.Keyring, dbNow: Time, appNow: Time)
    | FailDoomed(w: WorkerId)
    | StartSend(w: WorkerId)
    | EndSend(w: WorkerId, result: R.SendResult, jitter: Duration)
    | Record(w: WorkerId)
    | Skip(w: WorkerId)
    | Leave(w: WorkerId)
    | ProviderEvent(m: string, typ: EventType, at: Time)
    | PurgeFinished(olderThan: Duration)
    | PurgeTokens(kept: T.Tokens)

  function Init(now: Time): State {
    State(now, map[], map[], map[], map[], map[], [])
  }

  ghost predicate FreshLeases(s: State, cands: seq<Id>, leases: map<Id, Lease>) {
    && (forall id :: id in cands ==> id in leases)
    && (forall id, id' :: id in leases && id' in leases && leases[id] == leases[id'] ==> id == id')
    && (forall id, k :: id in leases && k in s.claims ==> s.claims[k].lease != leases[id])
  }

  ghost predicate Enabled(s: State, step: Step) {
    match step
    case Tick(d) => d >= 0
    case Enqueue(id, input, kr, nonce) =>
      id !in s.queued && kr.activeId in kr.aeads && |nonce| == K.NONCE_SIZE
    case ClaimJobs(w, provider, limit, locked, cands, tokens, leases, kr, dbNow, appNow) =>
      && w !in s.workers && limit <= CLAIM_BATCH && dbNow <= s.clock && dbNow <= appNow
      && Selected(s.rows, provider, limit, locked, dbNow, cands)
      && FreshLeases(s, cands, leases)
    case FailDoomed(w) => w in s.workers && s.workers[w].doomed != []
    case StartSend(w) =>
      w in s.workers && s.workers[w].phase.Between? && s.workers[w].doomed == [] && s.workers[w].jobs != []
    case EndSend(w, result, jitter) => w in s.workers && s.workers[w].phase.Sending?
    case Record(w) => w in s.workers && s.workers[w].phase.Recording? && s.workers[w].jobs != []
    case Skip(w) =>
      w in s.workers && (s.workers[w].doomed != [] || (s.workers[w].phase.Recording? && s.workers[w].jobs != []))
    case Leave(w) => w in s.workers
    case _ => true
  }

  /** The rows a claim leases and the worker it starts. */
  function Leased(s: State, c: Step): seq<Id>
    requires c.ClaimJobs? && forall id :: id in c.cands ==> id in s.rows
  {
    LeasedIds(s.rows, c.cands, c.tokens, c.dbNow, c.appNow)
  }

  ghost predicate ClaimReady(s: State, c: Step) {
    c.ClaimJobs? && (forall id :: id in c.cands ==> id in s.rows && id in c.leases)
        && Openable(s.rows, Leased(s, c), c.leases)
  }

  ghost function NewWorker(s: State, c: Step): Worker
    requires ClaimReady(s, c)
  {
    Worker(c.dbNow, s.clock - c.dbNow, s.clock, Between,
           Sift(s.rows, Leased(s, c), c.leases, c.kr, c.dbNow, false),
           Sift(s.rows, Leased(s, c), c.leases, c.kr, c.dbNow, true), 0)
  }

  function CountClaims(made: map<Id, nat>, ids: seq<Id>): map<Id, nat> {
    map id | id in made :: if id in ids then made[id] + 1 else made[id]
  }

  function LogClaims(made: map<Id, nat>, claims: Claims, ids: seq<Id>, leases: map<Id, Lease>, w: WorkerId): Claims {
    if ids == [] then claims
    else
      var rest := LogClaims(made, claims, ids[1..], leases, w);
      if ids[0] in made && ids[0] in leases then rest[(ids[0], made[ids[0]] + 1) := Claimed(leases[ids[0]], w)]
          else rest
  }

  ghost function AfterClaim(s: State, c: Step): State
    requires ClaimReady(s, c)
  {
    var ids := Leased(s, c);
    s.(rows := OutboxTable.Claim(s.rows, c.cands, c.tokens, c.leases, c.dbNow, c.appNow),
       workers := s.workers[c.w := NewWorker(s, c)],
       made := CountClaims(s.made, ids), claims := LogClaims(s.made, s.claims, ids, c.leases, c.w))
  }

  function Current(s: State, w: WorkerId): Job
    requires w in s.workers && s.workers[w].jobs != []
  {
    s.workers[w].jobs[0]
  }

  /** Done with the current job. */
  function AfterJob(wk: Worker, clock: Time): Worker
    requires wk.jobs != []
  {
    wk.(phase := Between, since := clock, jobs := wk.jobs[1..], done := wk.done + 1)
  }

  /** On to the next job, doomed ones first. */
  function Onward(wk: Worker, clock: Time): Worker
    requires wk.doomed != [] || wk.jobs != []
  {
    if wk.doomed != [] then wk.(doomed := wk.doomed[1..])
    else AfterJob(wk, clock)
  }

  /** Disabled steps leave the state alone. A worker whose finalize reports an error skips the job: it logs and goes on,
      and the row keeps its lease until that runs out. (When the update committed nevertheless, the step is the
      finalize.) */
  ghost function Apply(s: State, step: Step): State {
    if !Enabled(s, step) then s else
    match step
    case Tick(d) => s.(clock := s.clock + d)
    case Enqueue(id, input, kr, nonce) =>
      var p := K.Encrypt(kr, nonce, input.body, PayloadAad(id, input.provider, input.purpose)).value;
      s.(rows := Queue(s.rows, id, input, p, s.clock), queued := s.queued[id := input], made := s.made[id := 0])
    case ClaimJobs(_, _, _, _, _, _, _, _, _, _) => if ClaimReady(s, step) then AfterClaim(s, step) else s
    case FailDoomed(w) =>
      var wk := s.workers[w];
      s.(rows := Finalize(s.rows, wk.doomed[0].id, wk.doomed[0].leaseToken, OutcomeFailed(DecryptFailed), s.clock),
         workers := s.workers[w := wk.(doomed := wk.doomed[1..])])
    case StartSend(w) =>
      var wk := s.workers[w];
      var j := wk.jobs[0];
      s.(workers := s.workers[w := wk.(phase := Sending, overhead := wk.overhead + (s.clock - wk.since),
          since := s.clock)],
         sends := s.sends + [Sent(j.id, j.attempt, IdempotencyKey(j.id), j.message)])
    case EndSend(w, result, jitter) =>
      var wk := s.workers[w];
      if wk.jobs == [] then s else
      s.(workers := s.workers[w := wk.(phase := Recording(R.Classify(wk.jobs[0].attempt, wk.jobs[0].sendBefore,
          result, s.clock, jitter)),
                                       since := s.clock)])
    case Record(w) =>
      var wk := s.workers[w];
      s.(rows := Finalize(s.rows, wk.jobs[0].id, wk.jobs[0].leaseToken, wk.phase.out, s.clock),
         workers := s.workers[w := AfterJob(wk, s.clock)])
    case Skip(w) => s.(workers := s.workers[w := Onward(s.workers[w], s.clock)])
    case Leave(w) => s.(workers := map v | v in s.workers && v != w :: s.workers[v])
    case ProviderEvent(m, typ, at) => s.(rows := Reduce(s.rows, m, typ, at, s.clock))
    case PurgeFinished(olderThan) => s.(rows := Purge(s.rows, s.clock - olderThan))
    case PurgeTokens(kept) => s.(rows := ForgetTokens(s.rows, kept))
  }

  ghost function Run(s: State, steps: seq<Step>): State
    decreases |steps|
  {
    if steps == [] then s else Run(Apply(s, steps[0]), steps[1..])
  }

  // ---- the invariant --------------------------------------------------------------------

  function Carries(input: QueueInput): Message {
    Message(input.to, input.subject, input.body)
  }

  /** A row still says what was queued; while it is pending its payload is the queued body, sealed for this row under
      some key, whichever keys the servers hold. */
  predicate Faithful(id: Id, r: Row, input: QueueInput) {
    && r.recipient == input.to && r.subject == input.subject && r.provider == input.provider
        && r.purpose == input.purpose
    && r.userId == input.userId && r.sendBefore == input.sendBefore
    && (r.nonce.Some? && r.ciphertext.Some? ==>
          && |r.nonce.value| == K.NONCE_SIZE
          && r.ciphertext.value ==
               K.Sealed(r.ciphertext.value.key, r.nonce.value, input.body, PayloadAad(id, r.provider, r.purpose)))
  }

  ghost predicate InvRows(rows: Rows, queued: Queued, made: map<Id, nat>) {
    && TableInv(rows)
    && queued.Keys == made.Keys
    && (forall id :: id in rows ==> id in queued && rows[id].attempts == made[id] && Faithful(id, rows[id], queued[id]))
    && (forall id :: id in made ==> made[id] <= MAX_ATTEMPTS)
  }

  /** Every lease was handed out once, under its own attempt number. */
  ghost predicate InvClaims(made: map<Id, nat>, claims: Claims) {
    && (forall k :: k in claims ==> k.0 in made && 1 <= k.1 <= made[k.0])
    && (forall k, k' :: k in claims && k' in claims && claims[k].lease == claims[k'].lease ==> k == k')
  }

  /** The lease on a row is the one its latest claim took. */
  ghost predicate InvLeases(rows: Rows, made: map<Id, nat>, claims: Claims) {
    forall id :: id in rows && rows[id].leaseToken.Some? ==> HoldsLatest(made, claims, id, rows[id].leaseToken.value)
  }

  ghost predicate HoldsLatest(made: map<Id, nat>, claims: Claims, id: Id, lease: Lease) {
    id in made && (id, made[id]) in claims && claims[(id, made[id])].lease == lease
  }

  ghost predicate HeldBy(claims: Claims, w: WorkerId, j: Job) {
    (j.id, j.attempt) in claims && claims[(j.id, j.attempt)] == Claimed(j.leaseToken, w)
  }

  ghost predicate Deliverable(claims: Claims, queued: Queued, w: WorkerId, j: Job) {
    && HeldBy(claims, w, j) && j.id in queued
    && j.message == Carries(queued[j.id]) && j.sendBefore == queued[j.id].sendBefore
  }

  ghost predicate WorkerInv(claims: Claims, queued: Queued, w: WorkerId, wk: Worker) {
    && (forall j :: j in wk.doomed ==> HeldBy(claims, w, j))
    && (forall j :: j in wk.jobs ==> Deliverable(claims, queued, w, j))
    && DistinctJobs(wk.doomed) && DistinctJobs(wk.jobs) && Disjoint(wk.doomed, wk.jobs)
    && (!wk.phase.Between? ==> wk.doomed == [] && wk.jobs != [])
  }

  ghost predicate InvWorkers(workers: Workers, claims: Claims, queued: Queued) {
    forall w :: w in workers ==> WorkerInv(claims, queued, w, workers[w])
  }

  /** Jobs that have not been sent under their current claim. */
  function Unsent(wk: Worker): seq<Job> {
    if wk.phase.Between? || wk.jobs == [] then wk.jobs else wk.jobs[1..]
  }

  ghost predicate SendOk(claims: Claims, queued: Queued, e: Sent) {
    && (e.id, e.attempt) in claims && e.id in queued
    && e.key == IdempotencyKey(e.id) && e.message == Carries(queued[e.id])
  }

  ghost predicate InvSends(sends: seq<Sent>, claims: Claims, queued: Queued) {
    && (forall e :: e in sends ==> SendOk(claims, queued, e))
    && (forall i, j :: 0 <= i < j < |sends| ==> (sends[i].id, sends[i].attempt) != (sends[j].id, sends[j].attempt))
  }

  ghost predicate NotYetSent(sends: seq<Sent>, j: Job) {
    forall e :: e in sends ==> (j.id, j.attempt) != (e.id, e.attempt)
  }

  ghost predicate InvUnsent(sends: seq<Sent>, workers: Workers) {
    forall w, j :: w in workers && j in Unsent(workers[w]) ==> NotYetSent(sends, j)
  }

  ghost predicate Inv(s: State) {
    && InvRows(s.rows, s.queued, s.made)
    && InvClaims(s.made, s.claims)
    && InvLeases(s.rows, s.made, s.claims)
    && InvWorkers(s.workers, s.claims, s.queued)
    && InvSends(s.sends, s.claims, s.queued)
    && InvUnsent(s.sends, s.workers)
  }
}
