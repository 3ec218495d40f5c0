/** The send window against the link it protects. The window closes a margin before the link expires, but it is checked
    once per batch, and the margin also pays for what passes between minting the link and queueing its mail. So a mail
    can be sent after its link has expired: exactly when its place in the batch and that gap use the margin up. */
module LinkExpiry {
  import opened Base
  import opened OutboxTable
  import opened Jobs
  import opened Delivery
  import opened DeliveryInv
  import opened Timing
  import K = Keyring
  import L = Links
  import R = RetryPolicy
  import T = TokenTable

  /** By how much a send can miss its link: the deliveries before it in the batch and the batch's overhead, and the gap
      before its mail was queued, less the margin. */
  function Overrun(done: nat, gap: Duration): Duration {
    gap + done * PER_JOB + OVERHEAD - L.SEND_BEFORE_MARGIN
  }

  /** Worker `w` is about to send the mail of link request `c`, after `done` deliveries of the same batch. */
  ghost predicate AboutToSend(s: State, w: WorkerId, c: L.Step, done: nat) {
    && c.RequestLink? && Enabled(s, StartSend(w)) && s.workers[w].done == done
    && Current(s, w).id in s.queued && s.queued[Current(s, w).id] == L.LinkMail(c)
  }

  /** A mail starts less than its overrun after its link's expiry; before it, when the overrun is not positive. */
  lemma SendsStartNearExpiry(now: Time, steps: seq<Step>, w: WorkerId, c: L.Step, done: nat)
    requires TimedRun(Init(now), steps) && AboutToSend(Run(Init(now), steps), w, c, done)
    ensures Run(Init(now), steps).clock < c.issueAt + c.ttl + Overrun(done, c.queueAt - c.issueAt)
  {
    var s := Run(Init(now), steps);
    InitInv(now);
    RunKeepsInv(Init(now), steps);
    TimedRunIsTimely(Init(now), steps);
    assert WorkerInv(s.claims, s.queued, w, s.workers[w]);
    assert Deliverable(s.claims, s.queued, w, Current(s, w));
    StartBound(s.clock, s.workers[w]);
    assert Current(s, w) in s.workers[w].jobs;
  }

  // ---- runs in pieces -------------------------------------------------------------------

  lemma {:induction false} RunAppend(s: State, a: seq<Step>, b: seq<Step>)
    ensures Run(s, a + b) == Run(Run(s, a), b)
    ensures TimedRun(s, a + b) <==> TimedRun(s, a) && TimedRun(Run(s, a), b)
    decreases |a|
  {
    if a == [] {
      assert a + b == b;
    } else {
      assert (a + b)[0] == a[0] && (a + b)[1..] == a[1..] + b;
      RunAppend(Apply(s, a[0]), a[1..], b);
    }
  }

  lemma RunJoins(s: State, a: seq<Step>, s1: State, b: seq<Step>)
    requires Run(s, a) == s1 && TimedRun(s, a) && TimedRun(s1, b)
    ensures Run(s, a + b) == Run(s1, b) && TimedRun(s, a + b)
  {
    RunAppend(s, a, b);
  }

  lemma RunOne(s: State, step: Step)
    ensures Run(s, [step]) == Apply(s, step) && (TimedRun(s, [step]) <==> OnTime(s, step))
  {
    assert [step][1..] == [];
    assert Run(Apply(s, step), []) == Apply(s, step);
  }

  lemma RunCons(s: State, step: Step, rest: seq<Step>)
    ensures Run(s, [step] + rest) == Run(Apply(s, step), rest)
    ensures TimedRun(s, [step] + rest) <==> OnTime(s, step) && TimedRun(Apply(s, step), rest)
  {
    RunAppend(s, [step], rest);
    RunOne(s, step);
  }

  // ---- mails queued together ------------------------------------------------------------

  /** What the late run is made of: mails named after their links and users, each queued `gap` after its link was minted
      at time zero. */
  datatype Scene = Scene(ids: seq<Id>, ttl: Duration, gap: Duration, kr: K.Keyring, nonce: string)

  ghost predicate Playable(x: Scene) {
    && 0 < |x.ids| <= CLAIM_BATCH && Distinct(x.ids)
    && 0 <= x.gap && x.gap + L.SEND_BEFORE_MARGIN < x.ttl
    && x.kr.activeId in x.kr.aeads && |x.nonce| == K.NONCE_SIZE
  }

  function Ask(x: Scene, id: Id): L.Step {
    L.RequestLink(id, id, id, id, id, id, id, id, id, "log", K.Payload("", "", K.Sealed("", "", "", "")), x.ttl, 0,
        x.gap)
  }

  function Mail(x: Scene, id: Id): QueueInput {
    L.LinkMail(Ask(x, id))
  }

  function QueuedRow(x: Scene, id: Id): Row
    requires x.kr.activeId in x.kr.aeads
  {
    NewRow(Mail(x, id), K.Encrypt(x.kr, x.nonce, id, PayloadAad(id, "log", id)).value, x.gap)
  }

  /** The tables and the record of a run that has queued the mails of `ids`. */
  function RowsOf(x: Scene, ids: seq<Id>): Rows
    requires x.kr.activeId in x.kr.aeads
  {
    if ids == [] then map[] else RowsOf(x, ids[..|ids| - 1])[ids[|ids| - 1] := QueuedRow(x, ids[|ids| - 1])]
  }

  function MailsOf(x: Scene, ids: seq<Id>): Queued {
    if ids == [] then map[] else MailsOf(x, ids[..|ids| - 1])[ids[|ids| - 1] := Mail(x, ids[|ids| - 1])]
  }

  function Unclaimed(ids: seq<Id>): map<Id, nat> {
    if ids == [] then map[] else Unclaimed(ids[..|ids| - 1])[ids[|ids| - 1] := 0]
  }

  function QueuedState(x: Scene, ids: seq<Id>, clock: Time): State
    requires x.kr.activeId in x.kr.aeads
  {
    State(clock, RowsOf(x, ids), map[], MailsOf(x, ids), Unclaimed(ids), map[], [])
  }

  lemma {:induction false} TablesOf(x: Scene, ids: seq<Id>)
    requires x.kr.activeId in x.kr.aeads
    ensures forall id :: id in RowsOf(x, ids) <==> id in ids
    ensures forall id :: id in MailsOf(x, ids) <==> id in ids
    ensures forall id :: id in ids ==> RowsOf(x, ids)[id] == QueuedRow(x, id) && MailsOf(x, ids)[id] == Mail(x, id)
    decreases |ids|
  {
    if ids != [] {
      var front, last := ids[..|ids| - 1], ids[|ids| - 1];
      TablesOf(x, front);
      assert forall id :: id in ids <==> id in front || id == last;
    }
  }

  function QueueStep(x: Scene, id: Id): Step {
    Enqueue(id, Mail(x, id), x.kr, x.nonce)
  }

  function QueueSteps(x: Scene, ids: seq<Id>): seq<Step> {
    if ids == [] then [] else [QueueStep(x, ids[0])] + QueueSteps(x, ids[1..])
  }

  /** A queue of other users' mails grows by one. */
  lemma QueueOne(x: Scene, before: seq<Id>, id: Id)
    requires Playable(x) && id !in before
    ensures Apply(QueuedState(x, before, x.gap), QueueStep(x, id)) == QueuedState(x, before + [id], x.gap)
  {
    var rows := RowsOf(x, before);
    TablesOf(x, before);
    assert CancelPending(rows, id, id, x.gap) == rows;
    assert (before + [id])[..|before|] == before;
  }

  lemma {:induction false} QueueAll(x: Scene, before: seq<Id>, ids: seq<Id>)
    requires Playable(x) && Distinct(before + ids)
    ensures var s := QueuedState(x, before, x.gap);
            Run(s, QueueSteps(x, ids)) == QueuedState(x, before + ids, x.gap) && TimedRun(s, QueueSteps(x, ids))
    decreases |ids|
  {
    if ids == [] {
      assert before + ids == before;
    } else {
      assert forall i :: 0 <= i < |before| ==> (before + ids)[i] == before[i] && (before + ids)[|before|] == ids[0];
      QueueOne(x, before, ids[0]);
      RunCons(QueuedState(x, before, x.gap), QueueStep(x, ids[0]), QueueSteps(x, ids[1..]));
      assert before + ids == (before + [ids[0]]) + ids[1..];
      QueueAll(x, before + [ids[0]], ids[1..]);
    }
  }

  // ---- claimed at the last instant ------------------------------------------------------

  /** The last instant at which the window is open and the links are alive. */
  function LastCall(x: Scene): Time {
    x.ttl + Min(x.gap - L.SEND_BEFORE_MARGIN, 0) - 1
  }

  function Tokens(x: Scene): T.Tokens {
    map id | id in x.ids :: T.Token(id, id, id, x.ttl, None)
  }

  function Leases(x: Scene): map<Id, Lease> {
    map id | id in x.ids :: id
  }

  function ClaimLate(x: Scene): Step {
    ClaimJobs(0, "log", CLAIM_BATCH, {}, x.ids, Tokens(x), Leases(x), x.kr, LastCall(x), LastCall(x))
  }

  lemma RowIsReady(x: Scene, id: Id)
    requires Playable(x) && id in x.ids
    ensures var r := QueuedRow(x, id);
            && Eligible(r, "log", LastCall(x)) && r.availableAt == x.gap
            && Judge(r, Tokens(x), LastCall(x), LastCall(x)).Leasable? && OpenBody(id, r, x.kr).Ok?
  {
  }

  lemma ClaimEnabled(x: Scene)
    requires Playable(x)
    ensures Enabled(QueuedState(x, x.ids, LastCall(x)), ClaimLate(x))
  {
    var rows := RowsOf(x, x.ids);
    TablesOf(x, x.ids);
    forall id | id in rows ensures Eligible(rows[id], "log", LastCall(x)) && rows[id].availableAt == x.gap {
      RowIsReady(x, id);
    }
  }

  lemma {:induction false} AllLeased(rows: Rows, ids: seq<Id>, tokens: T.Tokens, now: Time)
    requires forall id :: id in ids ==> id in rows && Judge(rows[id], tokens, now, now).Leasable?
    ensures LeasedIds(rows, ids, tokens, now, now) == ids
  {
    if ids != [] {
      AllLeased(rows, ids[1..], tokens, now);
    }
  }

  lemma {:induction false} AllOpen(rows: Rows, ids: seq<Id>, leases: map<Id, Lease>, kr: K.Keyring, now: Time)
    requires Openable(rows, ids, leases) && forall id :: id in ids ==> OpenBody(id, rows[id], kr).Ok?
    ensures Sift(rows, ids, leases, kr, now, false) == []
    ensures var js := Sift(rows, ids, leases, kr, now, true);
            |js| == |ids| && forall i :: 0 <= i < |ids| ==> js[i].id == ids[i]
  {
    if ids != [] {
      AllOpen(rows, ids[1..], leases, kr, now);
    }
  }

  /** The only worker is between calls, after `done` jobs of its batch. */
  predicate Batch(s: State, ids: seq<Id>, done: nat) {
    && s.workers.Keys == {0} && done <= |ids|
    && (var wk := s.workers[0];
        && wk.phase.Between? && wk.doomed == [] && wk.done == done
        && |wk.jobs| == |ids| - done && (forall i :: 0 <= i < |wk.jobs| ==> wk.jobs[i].id == ids[done + i]))
  }

  predicate JustStarted(s: State) {
    0 in s.workers && s.workers[0].overhead == 0 && s.workers[0].since == s.clock
  }

  predicate Ready(x: Scene, id: Id, r: Row) {
    && r.status.Pending? && r.nonce.Some? && r.ciphertext.Some?
    && Judge(r, Tokens(x), LastCall(x), LastCall(x)).Leasable? && OpenBody(id, r, x.kr).Ok?
  }

  lemma RowsAreReady(x: Scene)
    requires Playable(x)
    ensures forall id :: id in x.ids ==> id in RowsOf(x, x.ids) && Ready(x, id, RowsOf(x, x.ids)[id])
  {
    TablesOf(x, x.ids);
    forall id | id in x.ids
      ensures Ready(x, id, QueuedRow(x, id))
    {
      RowIsReady(x, id);
    }
  }

  lemma ReadyAreLeased(x: Scene, rows: Rows)
    requires forall id :: id in x.ids ==> id in rows && Ready(x, id, rows[id])
    ensures LeasedIds(rows, x.ids, Tokens(x), LastCall(x), LastCall(x)) == x.ids && Openable(rows, x.ids, Leases(x))
  {
    AllLeased(rows, x.ids, Tokens(x), LastCall(x));
  }

  lemma LeasesAll(x: Scene, s: State)
    requires Playable(x) && s.rows == RowsOf(x, x.ids)
    ensures ClaimReady(s, ClaimLate(x)) && Leased(s, ClaimLate(x)) == x.ids
  {
    RowsAreReady(x);
    LeasesReady(x, s);
  }

  lemma LeasesReady(x: Scene, s: State)
    requires forall id :: id in x.ids ==> id in s.rows && Ready(x, id, s.rows[id])
    ensures ClaimReady(s, ClaimLate(x)) && Leased(s, ClaimLate(x)) == x.ids
  {
    ReadyAreLeased(x, s.rows);
  }

  lemma OpensAll(x: Scene)
    requires Playable(x) && Openable(RowsOf(x, x.ids), x.ids, Leases(x))
    ensures Sift(RowsOf(x, x.ids), x.ids, Leases(x), x.kr, LastCall(x), false) == []
    ensures var js := Sift(RowsOf(x, x.ids), x.ids, Leases(x), x.kr, LastCall(x), true);
            |js| == |x.ids| && forall i :: 0 <= i < |x.ids| ==> js[i].id == x.ids[i]
  {
    RowsAreReady(x);
    AllOpen(RowsOf(x, x.ids), x.ids, Leases(x), x.kr, LastCall(x));
  }

  lemma ClaimStarts(x: Scene)
    requires Playable(x)
    ensures var s, claim := QueuedState(x, x.ids, LastCall(x)), ClaimLate(x);
            && ClaimReady(s, claim) && NewWorker(s, claim).doomed == []
            && |NewWorker(s, claim).jobs| == |x.ids|
            && (forall i :: 0 <= i < |x.ids| ==> NewWorker(s, claim).jobs[i].id == x.ids[i])
  {
    LeasesAll(x, QueuedState(x, x.ids, LastCall(x)));
    OpensAll(x);
  }

  lemma ClaimAll(x: Scene)
    requires Playable(x)
    ensures var s := QueuedState(x, x.ids, LastCall(x));
            var s' := Apply(s, ClaimLate(x));
            && OnTime(s, ClaimLate(x)) && Batch(s', x.ids, 0) && JustStarted(s')
            && s'.clock == s.clock && s'.queued == s.queued
  {
    var s, claim := QueuedState(x, x.ids, LastCall(x)), ClaimLate(x);
    ClaimEnabled(x);
    ClaimStarts(x);
    assert Apply(s, claim) == AfterClaim(s, claim);
    assert AfterClaim(s, claim).workers == map[0 := NewWorker(s, claim)];
  }

  // ---- deliveries that take all their time ----------------------------------------------

  function Slowly(): seq<Step> {
    [StartSend(0)] + ([Tick(SEND_TIMEOUT)]
        + ([EndSend(0, R.Receipt(""), 1)] + ([Tick(FINALIZE_TIMEOUT)] + [Record(0)])))
  }

  lemma DeliverSlowly(s: State, ids: seq<Id>, done: nat)
    requires Batch(s, ids, done) && done < |ids|
    ensures Delivers(s, Slowly(), ids, done)
  {
    var s1 := Apply(s, StartSend(0));
    var s2 := Apply(s1, Tick(SEND_TIMEOUT));
    var s3 := Apply(s2, EndSend(0, R.Receipt(""), 1));
    var s4 := Apply(s3, Tick(FINALIZE_TIMEOUT));
    RunOne(s4, Record(0));
    RunCons(s3, Tick(FINALIZE_TIMEOUT), [Record(0)]);
    RunCons(s2, EndSend(0, R.Receipt(""), 1), [Tick(FINALIZE_TIMEOUT)] + [Record(0)]);
    RunCons(s1, Tick(SEND_TIMEOUT), [EndSend(0, R.Receipt(""), 1)] + ([Tick(FINALIZE_TIMEOUT)] + [Record(0)]));
    RunCons(s, StartSend(0),
            [Tick(SEND_TIMEOUT)] + ([EndSend(0, R.Receipt(""), 1)] + ([Tick(FINALIZE_TIMEOUT)] + [Record(0)])));
  }

  /** Running `block` delivers the current job in full. */
  ghost predicate Delivers(s: State, block: seq<Step>, ids: seq<Id>, done: nat) {
    var s' := Run(s, block);
    TimedRun(s, block) && Batch(s', ids, done + 1) && s'.clock == s.clock + PER_JOB && s'.queued == s.queued
  }

  function Times(block: seq<Step>, n: nat): seq<Step> {
    if n == 0 then [] else block + Times(block, n - 1)
  }

  lemma {:induction false} DeliverTimes(s: State, block: seq<Step>, ids: seq<Id>, done: nat, n: nat)
    requires Batch(s, ids, done) && done + n <= |ids|
    requires forall t: State, d: nat {:trigger Delivers(t, block, ids, d)} ::
               Batch(t, ids, d) && d < |ids| ==> Delivers(t, block, ids, d)
    ensures var s' := Run(s, Times(block, n));
            && TimedRun(s, Times(block, n)) && Batch(s', ids, done + n)
            && s'.clock == s.clock + n * PER_JOB && s'.queued == s.queued
    decreases n
  {
    if n > 0 {
      var s1 := Run(s, block);
      assert Delivers(s, block, ids, done);
      DeliverTimes(s1, block, ids, done + 1, n - 1);
      RunJoins(s, block, s1, Times(block, n - 1));
    }
  }

  lemma DeliverAllSlowly(s: State, ids: seq<Id>, n: nat)
    requires Batch(s, ids, 0) && n <= |ids|
    ensures var s' := Run(s, Times(Slowly(), n));
            && TimedRun(s, Times(Slowly(), n)) && Batch(s', ids, n)
            && s'.clock == s.clock + n * PER_JOB && s'.queued == s.queued
  {
    forall t: State, d: nat | Batch(t, ids, d) && d < |ids| ensures Delivers(t, Slowly(), ids, d) {
      DeliverSlowly(t, ids, d);
    }
    DeliverTimes(s, Slowly(), ids, 0, n);
  }

  // ---- past the expiry ------------------------------------------------------------------

  function LateTail(done: nat): seq<Step> {
    [Tick(OVERHEAD)] + Times(Slowly(), done)
  }

  function EarlySteps(x: Scene): seq<Step> {
    [Tick(x.gap)] + (QueueSteps(x, x.ids) + [Tick(LastCall(x) - x.gap)])
  }

  function LateSteps(x: Scene, done: nat): seq<Step> {
    [ClaimLate(x)] + LateTail(done)
  }

  /** Mails queued together and claimed at the last instant, by a worker that uses its overhead and then `done`
      deliveries to the full. */
  function LateRun(x: Scene, done: nat): seq<Step> {
    EarlySteps(x) + LateSteps(x, done)
  }

  lemma TailIsLate(s: State, ids: seq<Id>, done: nat)
    requires Batch(s, ids, 0) && JustStarted(s) && done < |ids|
    ensures var s' := Run(s, LateTail(done));
            && TimedRun(s, LateTail(done)) && Enabled(s', StartSend(0))
            && s'.workers[0].done == done && Current(s', 0).id == ids[done]
            && s'.clock == s.clock + OVERHEAD + done * PER_JOB && s'.queued == s.queued
  {
    var s1 := Apply(s, Tick(OVERHEAD));
    assert s1 == s.(clock := s.clock + OVERHEAD);
    RunCons(s, Tick(OVERHEAD), Times(Slowly(), done));
    DeliverAllSlowly(s1, ids, done);
  }

  lemma QueueFromEmpty(x: Scene)
    requires Playable(x)
    ensures var s := QueuedState(x, [], x.gap);
            Run(s, QueueSteps(x, x.ids)) == QueuedState(x, x.ids, x.gap) && TimedRun(s, QueueSteps(x, x.ids))
  {
    assert [] + x.ids == x.ids;
    QueueAll(x, [], x.ids);
  }

  lemma QueuedByThen(x: Scene)
    requires Playable(x)
    ensures Run(Init(0), EarlySteps(x)) == QueuedState(x, x.ids, LastCall(x)) && TimedRun(Init(0), EarlySteps(x))
  {
    QueueFromEmpty(x);
    Waits(x);
    RunBetween(Init(0), Tick(x.gap), QueuedState(x, [], x.gap), QueueSteps(x, x.ids), QueuedState(x, x.ids, x.gap),
               Tick(LastCall(x) - x.gap));
  }

  lemma RunBetween(s: State, first: Step, s0: State, steps: seq<Step>, s1: State, last: Step)
    requires Apply(s, first) == s0 && OnTime(s, first)
    requires Run(s0, steps) == s1 && TimedRun(s0, steps) && OnTime(s1, last)
    ensures var all := [first] + (steps + [last]); Run(s, all) == Apply(s1, last) && TimedRun(s, all)
  {
    RunOne(s1, last);
    RunJoins(s0, steps, s1, [last]);
    RunCons(s, first, steps + [last]);
  }

  lemma Waits(x: Scene)
    requires Playable(x)
    ensures Apply(Init(0), Tick(x.gap)) == QueuedState(x, [], x.gap) && OnTime(Init(0), Tick(x.gap))
    ensures var s, wait := QueuedState(x, x.ids, x.gap), Tick(LastCall(x) - x.gap);
            Apply(s, wait) == QueuedState(x, x.ids, LastCall(x)) && OnTime(s, wait)
  {
  }

  /** The worker is about to send the job that follows `done` others. */
  ghost predicate AtJob(s: State, id: Id, done: nat) {
    Enabled(s, StartSend(0)) && s.workers[0].done == done && Current(s, 0).id == id
  }

  lemma ClaimedLate(x: Scene, done: nat)
    requires Playable(x) && done < |x.ids|
    ensures var s, steps := QueuedState(x, x.ids, LastCall(x)), LateSteps(x, done);
            && TimedRun(s, steps) && AtJob(Run(s, steps), x.ids[done], done)
            && Run(s, steps).clock == LastCall(x) + OVERHEAD + done * PER_JOB
                && Run(s, steps).queued == MailsOf(x, x.ids)
  {
    var s := QueuedState(x, x.ids, LastCall(x));
    ClaimAll(x);
    RunCons(s, ClaimLate(x), LateTail(done));
    TailIsLate(Apply(s, ClaimLate(x)), x.ids, done);
  }

  lemma LateRunReaches(x: Scene, done: nat)
    requires Playable(x) && done < |x.ids|
    ensures var s := Run(Init(0), LateRun(x, done));
            && TimedRun(Init(0), LateRun(x, done)) && AtJob(s, x.ids[done], done)
            && s.clock == LastCall(x) + OVERHEAD + done * PER_JOB && s.queued == MailsOf(x, x.ids)
  {
    QueuedByThen(x);
    ClaimedLate(x, done);
    RunJoins(Init(0), EarlySteps(x), QueuedState(x, x.ids, LastCall(x)), LateSteps(x, done));
  }

  /** The bound is reached, to the nanosecond: for any gap up to the margin there is a run from empty tables that keeps
      every timeout and is about to send a mail its whole overrun after the last instant of its link. */
  lemma LateRunIsLate(x: Scene, done: nat)
    requires Playable(x) && done < |x.ids|
    ensures var s := Run(Init(0), LateRun(x, done));
            && TimedRun(Init(0), LateRun(x, done)) && AboutToSend(s, 0, Ask(x, x.ids[done]), done)
            && s.clock == LastCall(x) + OVERHEAD + done * PER_JOB
            && (x.gap <= L.SEND_BEFORE_MARGIN ==> s.clock == x.ttl - 1 + Overrun(done, x.gap))
  {
    LateRunReaches(x, done);
    TablesOf(x, x.ids);
    assert x.ids[done] in x.ids;
  }

  // ---- exactly when ---------------------------------------------------------------------

  /** In every timed run, a mail that is sent after `done` deliveries of its batch, and was queued `gap` after its link
      was minted, is sent before its link expires. */
  ghost predicate NeverLate(done: nat, gap: Duration) {
    forall now: Time, steps: seq<Step>, w: WorkerId, c: L.Step ::
      (TimedRun(Init(now), steps) && AboutToSend(Run(Init(now), steps), w, c, done) && c.queueAt - c.issueAt == gap) ==>
        Run(Init(now), steps).clock < c.issueAt + c.ttl
  }

  function AnyScene(gap: Duration): Scene {
    Scene(["a", "b", "c", "d"], gap + 2 * L.SEND_BEFORE_MARGIN, gap, K.Keyring("k", map["k" := "key"]), "twelve bytes")
  }

  lemma AnySceneIsPlayable(gap: Duration)
    requires gap >= 0
    ensures Playable(AnyScene(gap)) && |AnyScene(gap).ids| == CLAIM_BATCH
  {
    assert "a"[0] != "b"[0] && "a"[0] != "c"[0] && "a"[0] != "d"[0];
    assert "b"[0] != "c"[0] && "b"[0] != "d"[0] && "c"[0] != "d"[0];
  }

  lemma SometimesLate(done: nat, gap: Duration, x: Scene)
    requires done < |x.ids| && gap >= 0 && Overrun(done, gap) > 0 && Playable(x) && x.gap == gap
    ensures !NeverLate(done, gap)
  {
    LateRunIsLate(x, done);
    OneLateRun(0, LateRun(x, done), 0, Ask(x, x.ids[done]), done, gap);
  }

  lemma OneLateRun(now: Time, steps: seq<Step>, w: WorkerId, c: L.Step, done: nat, gap: Duration)
    requires TimedRun(Init(now), steps) && AboutToSend(Run(Init(now), steps), w, c, done)
    requires c.queueAt - c.issueAt == gap
    requires Run(Init(now), steps).clock >= c.issueAt + c.ttl
    ensures !NeverLate(done, gap)
  {
  }

  /** The margin does its work exactly while the gap, the deliveries before and the overhead fit into it. With a prompt
      enqueue that is the first two mails of a batch. */
  lemma NeverLateIff(done: nat, gap: Duration)
    requires done < CLAIM_BATCH && gap >= 0
    ensures NeverLate(done, gap) <==> gap + done * PER_JOB + OVERHEAD <= L.SEND_BEFORE_MARGIN
  {
    if Overrun(done, gap) <= 0 {
      forall now: Time, steps: seq<Step>, w: WorkerId, c: L.Step
        | TimedRun(Init(now), steps) && AboutToSend(Run(Init(now), steps), w, c, done) && c.queueAt - c.issueAt == gap
        ensures Run(Init(now), steps).clock < c.issueAt + c.ttl
      {
        SendsStartNearExpiry(now, steps, w, c, done);
      }
    } else {
      AnySceneIsPlayable(gap);
      SometimesLate(done, gap, AnyScene(gap));
    }
  }
}
