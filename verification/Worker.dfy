/** One worker's cycle: claim a batch, send its jobs one after the other, record each outcome. */
module Worker {
  import opened Base
  import opened OutboxTable
  import opened Jobs
  import opened OutboxEffects
  import opened DeliveryInv
  import K = Keyring
  import O = Outbox
  import R = RetryPolicy
  import E = EventFold
  import EventTable
  import T = TokenTable

  datatype Call = Call(key: string, message: Message)

  function Calls(jobs: seq<Job>): seq<Call> {
    seq(|jobs|, i requires 0 <= i < |jobs| => Call(IdempotencyKey(jobs[i].id), jobs[i].message))
  }

  /** Finalize with its replay hands out no lease, and takes the one it was given off the row. */
  lemma {:induction false} ReplayReleases(rows: Rows, m: string, evs: seq<E.Event>, now: Time)
    requires TableInv(rows)
    ensures TableInv(O.ReduceAll(rows, m, evs, now)) && SameLeases(rows, O.ReduceAll(rows, m, evs, now))
    decreases |evs|
  {
    if evs != [] {
      var front, last := evs[..|evs| - 1], evs[|evs| - 1];
      ReplayReleases(rows, m, front, now);
      ReduceReleases(O.ReduceAll(rows, m, front, now), m, last.typ, last.at, now);
      ReduceKeeps(O.ReduceAll(rows, m, front, now), m, last.typ, last.at, now);
    }
  }

  /** Leases only disappear. */
  ghost predicate SameLeases(rows: Rows, rows': Rows) {
    forall id :: id in rows' ==>
      id in rows && (rows'[id].leaseToken.Some? ==> rows'[id].leaseToken == rows[id].leaseToken)
  }

  lemma FinalizeOnlyReleases(rows: Rows, id: Id, lease: Lease, out: Outcome, now: Time)
    requires TableInv(rows)
    ensures SameLeases(rows, Finalize(rows, id, lease, out, now)) && TableInv(Finalize(rows, id, lease, out, now))
    ensures id in rows ==> Finalize(rows, id, lease, out, now)[id].leaseToken != Some(lease)
  {
    FinalizeKeeps(rows, id, lease, out, now);
    assert id in rows ==> RowInv(rows[id]);
  }

  lemma {:induction false} FailAllReleases(rows: Rows, js: seq<Job>, stuck: set<Id>, now: Time)
    requires TableInv(rows)
    ensures var rows' := O.FailAll(rows, js, stuck, now);
            && TableInv(rows') && SameLeases(rows, rows')
            && forall j :: j in js && j.id !in stuck && j.id in rows' ==> rows'[j.id].leaseToken != Some(j.leaseToken)
    decreases |js|
  {
    if js != [] {
      var front, last := js[..|js| - 1], js[|js| - 1];
      FailAllReleases(rows, front, stuck, now);
      FinalizeOnlyReleases(O.FailAll(rows, front, stuck, now), last.id, last.leaseToken, OutcomeFailed(DecryptFailed),
          now);
      assert js == front + [last];
    }
  }

  /** After a claim a leased row carries exactly its new lease. */
  lemma ClaimedLeases(rows: Rows, cands: seq<Id>, tokens: T.Tokens, leases: map<Id, Lease>, dbNow: Time, appNow: Time)
    requires Distinct(cands) && forall id :: id in cands ==> id in rows && id in leases
    ensures forall id :: id in LeasedIds(rows, cands, tokens, dbNow, appNow) ==>
              id in rows && id in leases
                  && Claim(rows, cands, tokens, leases, dbNow, appNow)[id].leaseToken == Some(leases[id])
  {
    LeasedAreLeasable(rows, cands, tokens, dbNow, appNow);
  }

  /** What a delivery meets: the provider's answer, the clock before and after it, the random draw, and the database. */
  datatype Turn = Turn(result: R.SendResult, sentAt: Time, jitter: Duration, recordAt: Time, fate: O.Fate)

  function OutcomeOf(j: Job, t: Turn): Outcome {
    R.Classify(j.attempt, j.sendBefore, t.result, t.sentAt, t.jitter)
  }

  /** The table after a batch: every job's outcome recorded in turn. */
  function RecordAll(rows: Rows, events: seq<E.Event>, jobs: seq<Job>, turns: Job -> Turn): Rows {
    if jobs == [] then rows
    else
      var j := jobs[|jobs| - 1];
      O.Finalized(RecordAll(rows, events, jobs[..|jobs| - 1], turns), events, j.id, j.leaseToken,
                  OutcomeOf(j, turns(j)), turns(j).recordAt, turns(j).fate)
  }

  /** A finalize, with as much of its replay as gets done, hands out no lease, and takes its own off the row unless its
      update was rejected. */
  lemma FinalizedReleases(rows: Rows, events: seq<E.Event>, id: Id, lease: Lease, out: Outcome, now: Time, fate: O.Fate)
    requires TableInv(rows)
    ensures var rows' := O.Finalized(rows, events, id, lease, out, now, fate);
            && TableInv(rows') && SameLeases(rows, rows')
            && (!fate.Rejected? && id in rows' ==> rows'[id].leaseToken != Some(lease))
  {
    FinalizeOnlyReleases(rows, id, lease, out, now);
    if O.Replays(out) {
      var m := out.providerMessageId;
      ReplayReleases(Finalize(rows, id, lease, out, now), m, O.Replayed(O.InOrder(EventTable.For(events, m)), fate),
          now);
    }
  }

  /** What one attempt leaves of the row it holds. A mail the provider took may have been told more about since. */
  ghost predicate Attempted(r: Row, r': Row, j: Job, t: Turn) {
    if t.fate.Rejected? then r' == r
    else exists out :: && R.Reads(j.attempt, j.sendBefore, t.result, t.sentAt, t.jitter, out)
                       && if out.OutcomeAccepted? then HandedOver(r, r', out.providerMessageId, t.recordAt)
                          else Records(r, r', out, t.recordAt)
  }

  /** One attempt: the row is recorded if its lease still holds; beside it only rows of the same message can change, by
      what the provider tells about it. */
  ghost predicate Delivers(rows: Rows, j: Job, t: Turn, rows': Rows) {
    && rows'.Keys == rows.Keys
    && (if j.id in rows && rows[j.id].leaseToken == Some(j.leaseToken)
        then Attempted(rows[j.id], rows'[j.id], j, t)
        else rows' == rows)
    && (forall x :: x in rows && x != j.id ==>
          if t.result.Receipt? && rows[x].providerMessageId == Some(t.result.providerMessageId)
          then Heard(rows[x], rows'[x])
          else rows'[x] == rows[x])
  }

  lemma FinalizedDelivers(rows: Rows, events: seq<E.Event>, j: Job, t: Turn)
    requires TableInv(rows)
    ensures Delivers(rows, j, t, O.Finalized(rows, events, j.id, j.leaseToken, OutcomeOf(j, t), t.recordAt, t.fate))
  {
    var out := OutcomeOf(j, t);
    R.ClassifyIsTheReading(j.attempt, j.sendBefore, t.result, t.sentAt, t.jitter, out);
    assert j.id in rows ==> RowInv(rows[j.id]);
    forall x | x in rows && rows[x].providerMessageId.Some? ensures Heard(rows[x], rows[x]) {
      assert RowInv(rows[x]);
    }
    if !t.fate.Rejected? {
      O.FinalizedSettles(rows, events, j.id, j.leaseToken, out, t.recordAt, t.fate);
    }
  }

  /** A batch of attempts on rows all of which it holds: each is recorded by its own answer, and no row out of the
      provider's sight moves. */
  ghost predicate DeliversAll(rows: Rows, jobs: seq<Job>, turns: Job -> Turn, rows': Rows) {
    && rows'.Keys == rows.Keys
    && (forall j :: j in jobs && j.id in rows ==> Attempted(rows[j.id], rows'[j.id], j, turns(j)))
    && (forall x :: x in rows && rows[x].providerMessageId.None? && (forall j :: j in jobs ==> j.id != x) ==>
          rows'[x] == rows[x])
  }

  lemma HeardAfterAttempt(r: Row, r': Row, r'': Row, j: Job, t: Turn)
    requires Attempted(r, r', j, t) && r.providerMessageId.None?
    requires r'' == r' || (Heard(r', r'') && r'.providerMessageId.Some?)
    ensures Attempted(r, r'', j, t)
  {
  }

  lemma DeliversOneMore(rows: Rows, jobs: seq<Job>, j: Job, turns: Job -> Turn, before: Rows, after: Rows)
    requires TableInv(rows) && O.Holds(rows, jobs + [j])
    requires DeliversAll(rows, jobs, turns, before) && Delivers(before, j, turns(j), after)
    ensures DeliversAll(rows, jobs + [j], turns, after)
  {
    var all := jobs + [j];
    assert all[|jobs|] == j && forall k :: k in jobs ==> k in all;
    forall k | k in all ensures rows[k.id].providerMessageId.None? {
      assert RowInv(rows[k.id]);
    }
    forall k | k in jobs ensures k.id != j.id && Attempted(rows[k.id], after[k.id], k, turns(k)) {
      var i :| 0 <= i < |jobs| && jobs[i] == k;
      assert all[i] == k;
      HeardAfterAttempt(rows[k.id], before[k.id], after[k.id], k, turns(k));
    }
    assert before[j.id] == rows[j.id];
  }

  lemma {:induction false} RecordAllDelivers(rows: Rows, events: seq<E.Event>, jobs: seq<Job>, turns: Job -> Turn)
    requires TableInv(rows) && O.Holds(rows, jobs)
    ensures TableInv(RecordAll(rows, events, jobs, turns))
    ensures DeliversAll(rows, jobs, turns, RecordAll(rows, events, jobs, turns))
    decreases |jobs|
  {
    if jobs != [] {
      var front, last := jobs[..|jobs| - 1], jobs[|jobs| - 1];
      assert jobs == front + [last];
      RecordAllDelivers(rows, events, front, turns);
      var before := RecordAll(rows, events, front, turns);
      FinalizedDelivers(before, events, last, turns(last));
      FinalizedReleases(before, events, last.id, last.leaseToken, OutcomeOf(last, turns(last)), turns(last).recordAt,
          turns(last).fate);
      DeliversOneMore(rows, front, last, turns, before, RecordAll(rows, events, jobs, turns));
    }
  }

  class Worker {
    const outbox: O.Outbox
    const provider: string
    var calls: seq<Call>

    constructor (outbox: O.Outbox, provider: string)
      ensures this.outbox == outbox && this.provider == provider && calls == []
    {
      this.outbox := outbox;
      this.provider := provider;
      calls := [];
    }

    /** One attempt: the provider's answer is classified and recorded under the job's lease. An error of the finalize is
        only logged. */
    method Deliver(job: Job, turn: Turn) returns (res: O.FinalizeResult)
      requires outbox.Valid()
      modifies this`calls, outbox`rows
      ensures outbox.Valid()
      ensures calls == old(calls) + [Call(IdempotencyKey(job.id), job.message)]
      ensures outbox.rows ==
              O.Finalized(old(outbox.rows), outbox.events, job.id, job.leaseToken, OutcomeOf(job, turn),
              turn.recordAt, turn.fate)
      ensures Delivers(old(outbox.rows), job, turn, outbox.rows)
      ensures SameLeases(old(outbox.rows), outbox.rows)
      ensures !turn.fate.Rejected? && job.id in outbox.rows ==> outbox.rows[job.id].leaseToken != Some(job.leaseToken)
      ensures res.LeaseLost? ==> outbox.rows == old(outbox.rows)
    {
      calls := calls + [Call(IdempotencyKey(job.id), job.message)];
      var out := R.Classify(job.attempt, job.sendBefore, turn.result, turn.sentAt, turn.jitter);
      FinalizedReleases(outbox.rows, outbox.events, job.id, job.leaseToken, out, turn.recordAt, turn.fate);
      FinalizedDelivers(outbox.rows, outbox.events, job, turn);
      res := outbox.Finalize(job.id, job.leaseToken, out, turn.recordAt, turn.fate);
    }

    /** A cycle nobody interferes with calls the provider once per job it could open, under that job's key, in claim
        order, whatever the provider and the database answer; and of the rows it leased it leaves leased only those
        whose update was rejected. */
    method RunOnce(ghost limit: nat, ghost locked: set<Id>, cands: seq<Id>, tokens: T.Tokens, leases: map<Id, Lease>,
                   dbNow: Time, appNow: Time, openAt: Time, stuck: set<Id>, turns: Job -> Turn)
      returns (n: nat)
      requires outbox.Valid() && Selected(outbox.rows, provider, limit, locked, dbNow, cands)
      requires forall id :: id in cands ==> id in leases
      modifies this`calls, outbox`rows
      ensures outbox.Valid()
      ensures var ids := LeasedIds(old(outbox.rows), cands, tokens, dbNow, appNow);
              && Openable(old(outbox.rows), ids, leases)
              && (var ready, doomed := Sift(old(outbox.rows), ids, leases, outbox.keyring, dbNow, true),
                                        Sift(old(outbox.rows), ids, leases, outbox.keyring, dbNow, false);
                  && calls == old(calls) + Calls(ready) && n == |ready|
                  && outbox.rows == RecordAll(O.FailAll(Claim(old(outbox.rows), cands, tokens, leases, dbNow, appNow),
                      doomed, stuck, openAt),
                                              outbox.events, ready, turns)
                  && Unheld(ids, ready, stuck, turns, outbox.rows))
      ensures exists claimed, jobs ::
                && ClaimsReadable(old(outbox.rows), cands, tokens, leases, dbNow, appNow, outbox.keyring, openAt, stuck,
                                  claimed)
                && HandsOut(old(outbox.rows), cands, tokens, leases, dbNow, appNow, outbox.keyring, jobs)
                && calls == old(calls) + Calls(jobs) && DeliversAll(claimed, jobs, turns, outbox.rows)
    {
      ghost var was := outbox.rows;
      ghost var ids := LeasedIds(was, cands, tokens, dbNow, appNow);
      ClaimKeeps(was, cands, tokens, leases, dbNow, appNow);
      var jobs := outbox.ClaimJobs(provider, limit, locked, cands, tokens, leases, dbNow, appNow, openAt, stuck);
      ghost var claimed := Claim(was, cands, tokens, leases, dbNow, appNow);
      ghost var readable := outbox.rows;
      HandedOutAreHeld(was, readable, cands, tokens, leases, dbNow, appNow, outbox.keyring, openAt, stuck, jobs);
      FailAllReleases(claimed, Sift(was, ids, leases, outbox.keyring, dbNow, false), stuck, openAt);
      DeliverAll(jobs, turns);
      RecordAllDelivers(readable, outbox.events, jobs, turns);
      NothingLeft(was, claimed, outbox.rows, cands, tokens, leases, outbox.keyring, dbNow, appNow, stuck, turns);
      n := |jobs|;
    }

    method DeliverAll(jobs: seq<Job>, turns: Job -> Turn)
      requires outbox.Valid()
      modifies this`calls, outbox`rows
      ensures outbox.Valid()
      ensures calls == old(calls) + Calls(jobs)
      ensures outbox.rows == RecordAll(old(outbox.rows), outbox.events, jobs, turns)
      ensures SameLeases(old(outbox.rows), outbox.rows)
      ensures Released(jobs, turns, outbox.rows)
    {
      var i := 0;
      while i < |jobs|
        invariant 0 <= i <= |jobs| && outbox.Valid()
        invariant calls == old(calls) + Calls(jobs[..i])
        invariant outbox.rows == RecordAll(old(outbox.rows), outbox.events, jobs[..i], turns)
      {
        var _ := Deliver(jobs[i], turns(jobs[i]));
        assert jobs[..i + 1] == jobs[..i] + [jobs[i]] && jobs[..i + 1][..i] == jobs[..i];
        i := i + 1;
      }
      assert jobs[..i] == jobs;
      RecordAllReleases(old(outbox.rows), outbox.events, jobs, turns);
    }
  }

  lemma HandedOutAreHeld(rows: Rows, rows': Rows, cands: seq<Id>, tokens: T.Tokens, leases: map<Id, Lease>, dbNow: Time,
                         appNow: Time, kr: K.Keyring, now: Time, stuck: set<Id>, jobs: seq<Job>)
    requires forall id :: id in cands ==> id in leases && id in rows
    requires ClaimsReadable(rows, cands, tokens, leases, dbNow, appNow, kr, now, stuck, rows')
    requires HandsOut(rows, cands, tokens, leases, dbNow, appNow, kr, jobs)
    ensures O.Holds(rows', jobs)
  {
    forall j | j in jobs ensures j.id in rows' && rows'[j.id].leaseToken == Some(j.leaseToken) {
      assert Carries(j, rows[j.id], leases[j.id], dbNow, kr);
    }
  }

  ghost predicate Released(jobs: seq<Job>, turns: Job -> Turn, rows: Rows) {
    forall j :: j in jobs && !turns(j).fate.Rejected? && j.id in rows ==> rows[j.id].leaseToken != Some(j.leaseToken)
  }

  /** Only rows whose update was rejected can still be leased. */
  ghost predicate Unheld(ids: seq<Id>, ready: seq<Job>, stuck: set<Id>, turns: Job -> Turn, rows: Rows) {
    forall id :: id in ids && id in rows && rows[id].leaseToken.Some? ==>
      id in stuck || exists j :: j in ready && j.id == id && turns(j).fate.Rejected?
  }

  lemma {:induction false} RecordAllReleases(rows: Rows, events: seq<E.Event>, jobs: seq<Job>, turns: Job -> Turn)
    requires TableInv(rows)
    ensures var rows' := RecordAll(rows, events, jobs, turns);
            TableInv(rows') && SameLeases(rows, rows') && Released(jobs, turns, rows')
    decreases |jobs|
  {
    if jobs != [] {
      var front, last := jobs[..|jobs| - 1], jobs[|jobs| - 1];
      assert jobs == front + [last];
      RecordAllReleases(rows, events, front, turns);
      FinalizedReleases(RecordAll(rows, events, front, turns), events, last.id, last.leaseToken,
                        OutcomeOf(last, turns(last)), turns(last).recordAt, turns(last).fate);
    }
  }

  lemma NothingLeft(was: Rows, claimed: Rows, rows: Rows, cands: seq<Id>, tokens: T.Tokens, leases: map<Id, Lease>,
      kr: K.Keyring,
                    dbNow: Time, appNow: Time, stuck: set<Id>, turns: Job -> Turn)
    requires Distinct(cands) && forall id :: id in cands ==> id in was && id in leases
    requires claimed == Claim(was, cands, tokens, leases, dbNow, appNow) && SameLeases(claimed, rows)
    requires var ids := LeasedIds(was, cands, tokens, dbNow, appNow);
             && Openable(was, ids, leases)
             && Released(Sift(was, ids, leases, kr, dbNow, true), turns, rows)
             && (forall j :: j in Sift(was, ids, leases, kr, dbNow, false) && j.id !in stuck && j.id in rows ==>
                   rows[j.id].leaseToken != Some(j.leaseToken))
    ensures var ids := LeasedIds(was, cands, tokens, dbNow, appNow);
            Openable(was, ids, leases) && Unheld(ids, Sift(was, ids, leases, kr, dbNow, true), stuck, turns, rows)
  {
    var ids := LeasedIds(was, cands, tokens, dbNow, appNow);
    var ready := Sift(was, ids, leases, kr, dbNow, true);
    ClaimedLeases(was, cands, tokens, leases, dbNow, appNow);
    forall id | id in ids && id in rows && rows[id].leaseToken.Some?
      ensures id in stuck || exists j :: j in ready && j.id == id && turns(j).fate.Rejected?
    {
      EverySide(was, ids, leases, kr, dbNow, id);
    }
  }
}
