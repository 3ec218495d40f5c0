/** Recording provider events, statement by statement. A webhook inserts its event and then, in a second statement,
    reduces it into the row; an accepting finalize updates the row, then selects the stored events, then reduces
    them one by one. Every statement autocommits, so any of them interleave, in any number, and a caller can fail
    between any two of them. */
module Reconcile {
  import opened Base
  import opened OutboxTable
  import opened EventFold
  import opened EventTable
  import K = Keyring
  import T = TokenTable

  type Pid = nat

  /** A caller between two of its statements. */
  datatype Proc =
    | Inserted(e: Event)
    | AcceptedFor(m: string)
    | Replaying(m: string, todo: seq<Event>)

  type Procs = map<Pid, Proc>

  /** The two tables, the callers in flight, every event ever recorded, and those that a caller meant to reduce and
      never will: it failed first, or they were purged before it selected. */
  datatype State = State(clock: Time, rows: Rows, table: seq<Event>, procs: Procs, recorded: seq<Event>,
      dropped: set<Event>)

  datatype Step =
    | Tick(d: Duration)
    | InsertEvent(p: Pid, svixId: string, m: string, typ: EventType, at: Time)
    | ReduceOwn(p: Pid)
    | AcceptJob(p: Pid, id: Id, lease: Lease, m: string)
    | SelectEvents(p: Pid, order: seq<Event>)
    | ReduceNext(p: Pid)
    | Crash(p: Pid)
    | PurgeEvents(olderThan: Duration)
    | OtherStatement(rows: Rows)

  function Init(now: Time): State {
    State(now, map[], [], map[], [], {})
  }

  /** What every other statement leaves alone: rows the provider knows keep their state or are deleted, and
      none becomes known. */
  ghost predicate LeavesKnown(rows: Rows, rows': Rows) {
    TableInv(rows') && forall id :: id in rows' && rows'[id].providerMessageId.Some? ==>
      id in rows && SameState(rows[id], rows'[id])
  }

  predicate SameState(r: Row, r': Row) {
    r'.providerMessageId == r.providerMessageId && r'.status == r.status && r'.deliveredAt == r.deliveredAt
  }

  function Without(procs: Procs, p: Pid): Procs {
    map q | q in procs && q != p :: procs[q]
  }

  /** The caller will still reduce the event into the rows of its message. */
  predicate Carries(proc: Proc, e: Event) {
    match proc
    case Inserted(e') => e' == e
    case AcceptedFor(m) => m == e.messageId
    case Replaying(m, todo) => m == e.messageId && e in todo
  }

  ghost predicate Enabled(s: State, step: Step) {
    match step
    case Tick(d) => d >= 0
    case InsertEvent(p, _, m, _, _) => p !in s.procs && m != ""
    case ReduceOwn(p) => p in s.procs && s.procs[p].Inserted?
    case AcceptJob(p, id, lease, m) => p !in s.procs && Matches(s.rows, id, lease, OutcomeAccepted(m))
    case SelectEvents(p, order) =>
      && p in s.procs && s.procs[p].AcceptedFor?
      && (forall e :: e in order <==> e in s.table && e.messageId == s.procs[p].m)
    case ReduceNext(p) => p in s.procs && s.procs[p].Replaying?
    case Crash(p) => p in s.procs
    case PurgeEvents(olderThan) => true
    case OtherStatement(rows) => LeavesKnown(s.rows, rows)
  }

  ghost function Apply(s: State, step: Step): State {
    if !Enabled(s, step) then s else
    match step
    case Tick(d) => s.(clock := s.clock + d)
    case InsertEvent(p, svixId, m, typ, at) =>
      if Duplicate(s.table, svixId) then s
      else
        var e := Event(svixId, m, typ, at, s.clock);
        s.(table := s.table + [e], recorded := s.recorded + [e], procs := s.procs[p := Inserted(e)])
    case ReduceOwn(p) =>
      var e := s.procs[p].e;
      s.(rows := Reduce(s.rows, e.messageId, e.typ, e.at, s.clock), procs := Without(s.procs, p))
    case AcceptJob(p, id, lease, m) =>
      s.(rows := Finalize(s.rows, id, lease, OutcomeAccepted(m), s.clock),
         procs := if m != "" then s.procs[p := AcceptedFor(m)] else s.procs)
    case SelectEvents(p, order) =>
      s.(procs := s.procs[p := Replaying(s.procs[p].m, order)],
         dropped := s.dropped + set e | e in s.recorded && e.messageId == s.procs[p].m && e !in s.table)
    case ReduceNext(p) =>
      var todo := s.procs[p].todo;
      if todo == [] then s.(procs := Without(s.procs, p))
      else s.(rows := Reduce(s.rows, s.procs[p].m, todo[0].typ, todo[0].at, s.clock),
              procs := s.procs[p := Replaying(s.procs[p].m, todo[1..])])
    case Crash(p) =>
      s.(procs := Without(s.procs, p), dropped := s.dropped + set e | e in s.recorded && Carries(s.procs[p], e))
    case PurgeEvents(olderThan) => s.(table := Unexpired(s.table, s.clock - olderThan))
    case OtherStatement(rows) => s.(rows := rows)
  }

  ghost function Run(s: State, steps: seq<Step>): State
    decreases |steps|
  {
    if steps == [] then s else Run(Apply(s, steps[0]), steps[1..])
  }

  /** No failures, and retention: events are purged only past it, and no accept replays a message whose first event is
      older. */
  ghost predicate Undisturbed(s: State, step: Step) {
    && !step.Crash?
    && (step.PurgeEvents? ==> step.olderThan >= OUTBOX_RETENTION)
    && (step.SelectEvents? && Enabled(s, step) ==>
          forall e :: e in s.recorded && e.messageId == s.procs[step.p].m ==>
              e.receivedAt >= s.clock - OUTBOX_RETENTION)
  }

  ghost predicate UndisturbedRun(s: State, steps: seq<Step>)
    decreases |steps|
  {
    steps == [] || (Undisturbed(s, steps[0]) && UndisturbedRun(Apply(s, steps[0]), steps[1..]))
  }

  // ---- the invariant --------------------------------------------------------------------

  ghost predicate Covered(procs: Procs, e: Event) {
    exists p :: p in procs && Carries(procs[p], e)
  }

  /** Nothing else is missing: each recorded event of the row's message is absorbed, still on its way, or dropped. */
  ghost predicate NothingLost(r: Row, procs: Procs, recorded: seq<Event>, dropped: set<Event>) {
    forall e :: e in recorded && r.providerMessageId == Some(e.messageId) ==>
      Absorbed(r, e) || Covered(procs, e) || e in dropped
  }

  /** Nothing is invented: what the row shows, a recorded event said. */
  ghost predicate NothingInvented(r: Row, recorded: seq<Event>) {
    && (r.status.Failed? ==> exists e :: e in recorded && r.providerMessageId == Some(e.messageId) && Bad(e.typ))
    && (r.deliveredAt.Some? ==>
          exists e :: e in recorded && r.providerMessageId == Some(e.messageId) && e.typ.EventDelivered?)
  }

  ghost predicate RowsOk(rows: Rows, procs: Procs, recorded: seq<Event>, dropped: set<Event>) {
    && TableInv(rows)
    && (forall id :: id in rows && rows[id].providerMessageId.Some? ==>
          NothingLost(rows[id], procs, recorded, dropped) && NothingInvented(rows[id], recorded))
  }

  ghost predicate ProcOk(proc: Proc, recorded: seq<Event>) {
    match proc
    case Inserted(e) => e in recorded
    case AcceptedFor(_) => true
    case Replaying(m, todo) => forall e :: e in todo ==> e in recorded && e.messageId == m
  }

  ghost predicate ProcsOk(procs: Procs, recorded: seq<Event>) {
    forall p :: p in procs ==> ProcOk(procs[p], recorded)
  }

  ghost predicate TableOk(table: seq<Event>, recorded: seq<Event>, dropped: set<Event>) {
    && (forall e :: e in table ==> e in recorded)
    && (forall e :: e in dropped ==> e in recorded)
    && (forall e :: e in recorded ==> e.messageId != "")
  }

  ghost predicate Inv(s: State) {
    RowsOk(s.rows, s.procs, s.recorded, s.dropped) && ProcsOk(s.procs, s.recorded)
        && TableOk(s.table, s.recorded, s.dropped)
  }

  /** Along an undisturbed run the table holds all that is younger than the retention, and nothing is dropped. */
  ghost predicate Kept(s: State) {
    s.dropped == {} && forall e :: e in s.recorded ==> e in s.table || e.receivedAt < s.clock - OUTBOX_RETENTION
  }

  // ---- one reduction --------------------------------------------------------------------

  /** A reduction keeps what a known row shows and adds what the event says. */
  lemma ReduceAbsorbs(r: Row, e: Event, now: Time)
    requires Known(r)
    ensures var r' := ReduceRow(r, e.typ, e.at, now);
            && Known(r') && r'.providerMessageId == r.providerMessageId && Absorbed(r', e)
            && (forall x :: Absorbed(r, x) ==> Absorbed(r', x))
            && (r'.status.Failed? ==> r.status.Failed? || Bad(e.typ))
            && (r'.deliveredAt.Some? ==> r.deliveredAt.Some? || e.typ.EventDelivered?)
  {
  }

  /** Reducing an event of message `m` after which the caller no longer carries it. */
  lemma ReduceKeepsRows(rows: Rows, m: string, e: Event, now: Time, procs: Procs, procs': Procs, recorded: seq<Event>,
      dropped: set<Event>)
    requires RowsOk(rows, procs, recorded, dropped) && e in recorded && e.messageId == m
    requires forall x :: x != e && Covered(procs, x) ==> Covered(procs', x)
    ensures RowsOk(Reduce(rows, m, e.typ, e.at, now), procs', recorded, dropped)
  {
    var rows' := Reduce(rows, m, e.typ, e.at, now);
    ReduceKeeps(rows, m, e.typ, e.at, now);
    forall id | id in rows' && rows'[id].providerMessageId.Some?
      ensures NothingLost(rows'[id], procs', recorded, dropped) && NothingInvented(rows'[id], recorded)
    {
      assert RowInv(rows[id]);
      if rows[id].providerMessageId == Some(m) {
        ReduceAbsorbs(rows[id], e, now);
      }
      assert NothingLost(rows[id], procs, recorded, dropped) && NothingInvented(rows[id], recorded);
    }
  }

  /** The same, for a caller that leaves, or fails and drops what it carried. */
  lemma LeaveKeepsRows(rows: Rows, procs: Procs, procs': Procs, recorded: seq<Event>, dropped: set<Event>,
      dropped': set<Event>)
    requires RowsOk(rows, procs, recorded, dropped) && dropped <= dropped'
    requires forall x :: x in recorded && Covered(procs, x) ==> Covered(procs', x) || x in dropped'
    ensures RowsOk(rows, procs', recorded, dropped')
  {
    forall id | id in rows && rows[id].providerMessageId.Some?
      ensures NothingLost(rows[id], procs', recorded, dropped')
    {
      assert NothingLost(rows[id], procs, recorded, dropped);
    }
  }

  /** Replacing one caller by what it carries on with covers everything it need not cover any more. */
  lemma CoverAfter(procs: Procs, procs': Procs, p: Pid, done: set<Event>)
    requires p in procs && forall q :: q in procs && q != p ==> q in procs' && procs'[q] == procs[q]
    requires forall x :: x !in done && Carries(procs[p], x) ==> p in procs' && Carries(procs'[p], x)
    ensures forall x :: x !in done && Covered(procs, x) ==> Covered(procs', x)
  {
    forall x | x !in done && Covered(procs, x) ensures Covered(procs', x) {
      var q :| q in procs && Carries(procs[q], x);
      assert q in procs' && Carries(procs'[q], x);
    }
  }

  // ---- each step ------------------------------------------------------------------------

  lemma InsertKeeps(s: State, step: Step)
    requires Inv(s) && step.InsertEvent? && Enabled(s, step)
    ensures Inv(Apply(s, step))
  {
    if !Duplicate(s.table, step.svixId) {
      var s' := Apply(s, step);
      var e := Event(step.svixId, step.m, step.typ, step.at, s.clock);
      assert s'.procs[step.p] == Inserted(e) && Carries(s'.procs[step.p], e) && Covered(s'.procs, e);
      forall x | Covered(s.procs, x) ensures Covered(s'.procs, x) {
        var q :| q in s.procs && Carries(s.procs[q], x);
        assert q in s'.procs && Carries(s'.procs[q], x);
      }
      forall id | id in s.rows && s.rows[id].providerMessageId.Some?
        ensures NothingLost(s.rows[id], s'.procs, s'.recorded, s'.dropped) && NothingInvented(s.rows[id], s'.recorded)
      {
        assert NothingLost(s.rows[id], s.procs, s.recorded, s.dropped) && NothingInvented(s.rows[id], s.recorded);
      }
      forall q | q in s'.procs ensures ProcOk(s'.procs[q], s'.recorded) {
        assert q != step.p ==> ProcOk(s.procs[q], s.recorded);
      }
    }
  }

  lemma ReduceOwnKeeps(s: State, step: Step)
    requires Inv(s) && step.ReduceOwn? && Enabled(s, step)
    ensures Inv(Apply(s, step))
  {
    var e, procs' := s.procs[step.p].e, Without(s.procs, step.p);
    assert ProcOk(s.procs[step.p], s.recorded);
    CoverAfter(s.procs, procs', step.p, {e});
    ReduceKeepsRows(s.rows, e.messageId, e, s.clock, s.procs, procs', s.recorded, s.dropped);
  }

  lemma AcceptKeeps(s: State, step: Step)
    requires Inv(s) && step.AcceptJob? && Enabled(s, step)
    ensures Inv(Apply(s, step))
  {
    var s' := Apply(s, step);
    FinalizeKeeps(s.rows, step.id, step.lease, OutcomeAccepted(step.m), s.clock);
    assert RowInv(s.rows[step.id]);
    if step.m != "" {
      assert s'.procs[step.p] == AcceptedFor(step.m);
    }
    forall x | Covered(s.procs, x) ensures Covered(s'.procs, x) {
      var q :| q in s.procs && Carries(s.procs[q], x);
      assert q in s'.procs && Carries(s'.procs[q], x);
    }
    forall id | id in s'.rows && s'.rows[id].providerMessageId.Some?
      ensures NothingLost(s'.rows[id], s'.procs, s.recorded, s.dropped) && NothingInvented(s'.rows[id], s.recorded)
    {
      if id == step.id {
        AcceptedRow(s.rows[id], step.m, s.clock);
        forall x | x in s.recorded && x.messageId == step.m ensures Covered(s'.procs, x) {
          assert step.p in s'.procs && Carries(s'.procs[step.p], x);
        }
      } else {
        assert NothingLost(s.rows[id], s.procs, s.recorded, s.dropped) && NothingInvented(s.rows[id], s.recorded);
      }
    }
    forall q | q in s'.procs ensures ProcOk(s'.procs[q], s.recorded) {
      assert q != step.p ==> ProcOk(s.procs[q], s.recorded);
    }
  }

  lemma AcceptedRow(r: Row, m: string, now: Time)
    requires RowInv(r) && r.status.Pending?
    ensures var r' := FinalizeRow(r, OutcomeAccepted(m), now);
            r'.status.Accepted? && r'.deliveredAt.None? && r'.providerMessageId == Some(m)
  {
  }

  lemma SelectKeeps(s: State, step: Step)
    requires Inv(s) && step.SelectEvents? && Enabled(s, step)
    ensures Inv(Apply(s, step))
  {
    var s', m := Apply(s, step), s.procs[step.p].m;
    assert s'.procs[step.p] == Replaying(m, step.order);
    forall x | x in s.recorded && Covered(s.procs, x) ensures Covered(s'.procs, x) || x in s'.dropped {
      var q :| q in s.procs && Carries(s.procs[q], x);
      if q == step.p {
        assert x in step.order || x !in s.table;
        assert x in step.order ==> Carries(s'.procs[q], x);
      } else {
        assert q in s'.procs && Carries(s'.procs[q], x);
      }
    }
    LeaveKeepsRows(s.rows, s.procs, s'.procs, s.recorded, s.dropped, s'.dropped);
    forall q | q in s'.procs ensures ProcOk(s'.procs[q], s.recorded) {
      assert q != step.p ==> ProcOk(s.procs[q], s.recorded);
    }
  }

  lemma CrashKeeps(s: State, step: Step)
    requires Inv(s) && step.Crash? && Enabled(s, step)
    ensures Inv(Apply(s, step))
  {
    var s' := Apply(s, step);
    forall x | x in s.recorded && Covered(s.procs, x) ensures Covered(s'.procs, x) || x in s'.dropped {
      var q :| q in s.procs && Carries(s.procs[q], x);
      assert q != step.p ==> q in s'.procs && Carries(s'.procs[q], x);
    }
    LeaveKeepsRows(s.rows, s.procs, s'.procs, s.recorded, s.dropped, s'.dropped);
  }

  lemma ReduceNextKeeps(s: State, step: Step)
    requires Inv(s) && step.ReduceNext? && Enabled(s, step)
    ensures Inv(Apply(s, step))
  {
    var todo, m, procs' := s.procs[step.p].todo, s.procs[step.p].m, Apply(s, step).procs;
    assert ProcOk(s.procs[step.p], s.recorded);
    if todo == [] {
      CoverAfter(s.procs, procs', step.p, {});
      LeaveKeepsRows(s.rows, s.procs, procs', s.recorded, s.dropped, s.dropped);
    } else {
      assert procs'[step.p] == Replaying(m, todo[1..]);
      CoverAfter(s.procs, procs', step.p, {todo[0]});
      ReduceKeepsRows(s.rows, m, todo[0], s.clock, s.procs, procs', s.recorded, s.dropped);
      forall q | q in procs' ensures ProcOk(procs'[q], s.recorded) {
        assert ProcOk(s.procs[q], s.recorded);
      }
    }
  }

  lemma OtherKeeps(s: State, step: Step)
    requires Inv(s) && step.OtherStatement? && Enabled(s, step)
    ensures Inv(Apply(s, step))
  {
    forall id | id in step.rows && step.rows[id].providerMessageId.Some?
      ensures NothingLost(step.rows[id], s.procs, s.recorded, s.dropped) && NothingInvented(step.rows[id], s.recorded)
    {
      assert SameState(s.rows[id], step.rows[id]);
      assert NothingLost(s.rows[id], s.procs, s.recorded, s.dropped) && NothingInvented(s.rows[id], s.recorded);
    }
  }

  lemma StepKeeps(s: State, step: Step)
    requires Inv(s)
    ensures Inv(Apply(s, step))
  {
    if Enabled(s, step) {
      match step
      case Tick(_) =>
      case InsertEvent(_, _, _, _, _) => InsertKeeps(s, step);
      case ReduceOwn(_) => ReduceOwnKeeps(s, step);
      case AcceptJob(_, _, _, _) => AcceptKeeps(s, step);
      case SelectEvents(_, _) => SelectKeeps(s, step);
      case ReduceNext(_) => ReduceNextKeeps(s, step);
      case Crash(_) => CrashKeeps(s, step);
      case PurgeEvents(olderThan) => UnexpiredKeeps(s.table, s.clock - olderThan);
      case OtherStatement(_) => OtherKeeps(s, step);
    }
  }

  lemma {:induction false} RunKeeps(s: State, steps: seq<Step>)
    requires Inv(s)
    ensures Inv(Run(s, steps))
    decreases |steps|
  {
    if steps != [] {
      StepKeeps(s, steps[0]);
      RunKeeps(Apply(s, steps[0]), steps[1..]);
    }
  }

  lemma StepDropsNothing(s: State, step: Step)
    requires Kept(s) && Undisturbed(s, step)
    ensures Kept(Apply(s, step))
  {
    if step.PurgeEvents? {
      UnexpiredKeeps(s.table, s.clock - step.olderThan);
    }
  }

  lemma {:induction false} RunDropsNothing(s: State, steps: seq<Step>)
    requires Kept(s) && UndisturbedRun(s, steps)
    ensures Kept(Run(s, steps))
    decreases |steps|
  {
    if steps != [] {
      StepDropsNothing(s, steps[0]);
      RunDropsNothing(Apply(s, steps[0]), steps[1..]);
    }
  }

  // ---- theorems -------------------------------------------------------------------------

  /** A row that invents nothing is right exactly when it has absorbed everything. */
  lemma RightIffAbsorbed(r: Row, recorded: seq<Event>)
    requires Known(r) && NothingInvented(r, recorded)
    ensures var evs := For(recorded, r.providerMessageId.value);
            Right(r, evs) <==> forall e :: e in evs ==> Absorbed(r, e)
  {
    var evs := For(recorded, r.providerMessageId.value);
    ForIs(recorded, r.providerMessageId.value);
    if Right(r, evs) {
      forall e | e in evs ensures Absorbed(r, e) {
        assert Bad(e.typ) ==> HasBad(evs);
        assert e.typ.EventDelivered? ==> HasDelivered(evs);
      }
    }
  }

  /** Under any interleaving, with callers failing anywhere and events purged at any time: once nobody is between two
      statements, a row the provider knows is right exactly when it has absorbed the events that were dropped. */
  lemma QuiescentRowIsRightIff(now: Time, steps: seq<Step>, id: Id)
    requires var s := Run(Init(now), steps);
             s.procs == map[] && id in s.rows && s.rows[id].providerMessageId.Some?
    ensures var s := Run(Init(now), steps);
            Right(s.rows[id], For(s.recorded, s.rows[id].providerMessageId.value)) <==>
            forall e :: e in s.dropped && s.rows[id].providerMessageId == Some(e.messageId) ==> Absorbed(s.rows[id], e)
  {
    RunKeeps(Init(now), steps);
    RightIffDropped(Run(Init(now), steps), id);
  }

  lemma RightIffDropped(s: State, id: Id)
    requires Inv(s) && s.procs == map[] && id in s.rows && s.rows[id].providerMessageId.Some?
    ensures Right(s.rows[id], For(s.recorded, s.rows[id].providerMessageId.value)) <==>
            forall e :: e in s.dropped && s.rows[id].providerMessageId == Some(e.messageId) ==> Absorbed(s.rows[id], e)
  {
    var r := s.rows[id];
    assert RowInv(r) && NothingLost(r, s.procs, s.recorded, s.dropped) && NothingInvented(r, s.recorded);
    ForIs(s.recorded, r.providerMessageId.value);
    RightIffAbsorbed(r, s.recorded);
    assert forall e :: !Covered(s.procs, e);
  }

  /** Without failures, and with replays inside the retention, every known row ends up right. */
  lemma QuiescentRowIsJoin(now: Time, steps: seq<Step>, id: Id)
    requires UndisturbedRun(Init(now), steps)
    requires var s := Run(Init(now), steps);
             s.procs == map[] && id in s.rows && s.rows[id].providerMessageId.Some?
    ensures var s := Run(Init(now), steps);
            Right(s.rows[id], For(s.recorded, s.rows[id].providerMessageId.value))
  {
    RunDropsNothing(Init(now), steps);
    QuiescentRowIsRightIff(now, steps, id);
  }

  /** A failure between the two statements is not repaired by the provider's retry: the retry carries the same svix id,
      finds the stored event and stops. The row ends up right exactly when it already showed the event, and whatever
      was dropped before. */
  lemma RetryDoesNotRepair(s: State, p: Pid, q: Pid, id: Id)
    requires Inv(s) && p in s.procs && s.procs == map[p := s.procs[p]]
    requires s.procs[p].Inserted? && s.procs[p].e in s.table
    requires id in s.rows && s.rows[id].providerMessageId == Some(s.procs[p].e.messageId)
    ensures var e := s.procs[p].e;
            var crashed := Apply(s, Crash(p));
            var s' := Apply(crashed, InsertEvent(q, e.svixId, e.messageId, e.typ, e.at));
            && s' == crashed && s'.procs == map[] && s'.rows == s.rows
            && (Right(s'.rows[id], For(s'.recorded, e.messageId)) <==>
                  Absorbed(s.rows[id], e) && forall x :: x in s.dropped && x.messageId == e.messageId ==>
                      Absorbed(s.rows[id], x))
  {
    var e := s.procs[p].e;
    var i :| 0 <= i < |s.table| && s.table[i] == e;
    assert Duplicate(s.table, e.svixId);
    assert ProcOk(s.procs[p], s.recorded);
    var crashed := Apply(s, Crash(p));
    CrashKeeps(s, Crash(p));
    assert forall x :: x in crashed.dropped <==> x == e || x in s.dropped;
    RightIffDropped(crashed, id);
  }

  /** Nor is a worker that fails after its accepting update, before it has replayed anything: the row just accepted ends
      up right exactly when no stored event of its message said more than accepted. */
  lemma LostReplayIsNotRepaired(s: State, p: Pid, id: Id, lease: Lease, m: string)
    requires Inv(s) && s.procs == map[] && m != "" && Enabled(s, AcceptJob(p, id, lease, m))
    ensures var s' := Apply(Apply(s, AcceptJob(p, id, lease, m)), Crash(p));
            && s'.procs == map[] && id in s'.rows && s'.rows[id].status.Accepted?
            && (Right(s'.rows[id], For(s'.recorded, m)) <==> forall e :: e in For(s.recorded, m) ==>
                EventRank(e.typ) == 0)
  {
    var accepted := Apply(s, AcceptJob(p, id, lease, m));
    AcceptKeeps(s, AcceptJob(p, id, lease, m));
    assert RowInv(s.rows[id]);
    AcceptedRow(s.rows[id], m, s.clock);
    CrashKeeps(accepted, Crash(p));
    var s' := Apply(accepted, Crash(p));
    ForIs(s.recorded, m);
    assert forall e :: e in s'.dropped && e.messageId == m <==> e in For(s.recorded, m);
    RightIffDropped(s', id);
  }

  lemma {:induction false} RunVisits(states: seq<State>, steps: seq<Step>)
    requires |states| == |steps| + 1 && forall i :: 0 <= i < |steps| ==> Apply(states[i], steps[i]) == states[i + 1]
    ensures Run(states[0], steps) == states[|steps|]
    decreases |steps|
  {
    if steps != [] {
      RunVisits(states[1..], steps[1..]);
    }
  }

  /** The acceptance and its empty replay, the insert of a bounce whose caller then fails, and the provider's retry. */
  function LosingSteps(job: Row, lease: Lease, e: Event): seq<Step> {
    [OtherStatement(map["job" := job]), AcceptJob(0, "job", lease, e.messageId), SelectEvents(0, []), ReduceNext(0),
     InsertEvent(1, e.svixId, e.messageId, e.typ, e.at), Crash(1), InsertEvent(2, e.svixId, e.messageId, e.typ, e.at)]
  }

  ghost function LosingStates(job: Row, e: Event): seq<State> {
    var now := e.receivedAt;
    var before, after := map["job" := job], map["job" := FinalizeRow(job, OutcomeAccepted(e.messageId), now)];
    [Init(now), State(now, before, [], map[], [], {}),
     State(now, after, [], map[0 := AcceptedFor(e.messageId)], [], {}),
         State(now, after, [], map[0 := Replaying(e.messageId, [])], [], {}),
     State(now, after, [], map[], [], {}), State(now, after, [e], map[1 := Inserted(e)], [e], {}),
     State(now, after, [e], map[], [e], {e}), State(now, after, [e], map[], [e], {e})]
  }

  lemma AcceptingSteps(job: Row, lease: Lease, e: Event, i: nat)
    requires RowInv(job) && job.leaseToken == Some(lease) && e.messageId != "" && i < 4
    ensures Apply(LosingStates(job, e)[i], LosingSteps(job, lease, e)[i]) == LosingStates(job, e)[i + 1]
  {
    if i == 3 {
      assert Without(map[0 := Replaying(e.messageId, [])], 0) == map[];
    }
  }

  lemma RecordingSteps(job: Row, lease: Lease, e: Event, i: nat)
    requires e.messageId != "" && 4 <= i < 7
    ensures Apply(LosingStates(job, e)[i], LosingSteps(job, lease, e)[i]) == LosingStates(job, e)[i + 1]
  {
    var s, s' := LosingStates(job, e)[i], LosingStates(job, e)[i + 1];
    if i == 4 {
      assert [] + [e] == [e];
    } else if i == 5 {
      assert Without(map[1 := Inserted(e)], 1) == map[];
      assert Apply(s, Crash(1)).dropped == {e};
    } else {
      assert s.table[0].svixId == e.svixId;
    }
  }

  /** The failure is reached from empty tables, with any leased job and any bounce: recorded half-way after the
      acceptance it stays invisible, retried or not. */
  lemma LostBounce(job: Row, lease: Lease, e: Event)
    requires RowInv(job) && job.leaseToken == Some(lease) && e.messageId != "" && e.typ.EventBounced?
    ensures var s := Run(Init(e.receivedAt), LosingSteps(job, lease, e));
            && s.procs == map[] && "job" in s.rows && s.rows["job"].providerMessageId == Some(e.messageId)
            && s.rows["job"].status.Accepted? && Join(For(s.recorded, e.messageId)).Failed?
  {
    var states, steps := LosingStates(job, e), LosingSteps(job, lease, e);
    forall i | 0 <= i < |steps| ensures Apply(states[i], steps[i]) == states[i + 1] {
      if i < 4 {
        AcceptingSteps(job, lease, e, i);
      } else {
        RecordingSteps(job, lease, e, i);
      }
    }
    RunVisits(states, steps);
    ForIs([e], e.messageId);
    assert e in For([e], e.messageId);
  }

  /** A bounce recorded in full before the acceptance, whose worker then fails before its replay. */
  function BrokenSteps(job: Row, lease: Lease, e: Event): seq<Step> {
    [OtherStatement(map["job" := job]), InsertEvent(1, e.svixId, e.messageId, e.typ, e.at), ReduceOwn(1),
     AcceptJob(0, "job", lease, e.messageId), Crash(0)]
  }

  ghost function BrokenStates(job: Row, e: Event): seq<State> {
    var now := e.receivedAt;
    var before, after := map["job" := job], map["job" := FinalizeRow(job, OutcomeAccepted(e.messageId), now)];
    [Init(now), State(now, before, [], map[], [], {}), State(now, before, [e], map[1 := Inserted(e)], [e], {}),
     State(now, before, [e], map[], [e], {}), State(now, after, [e], map[0 := AcceptedFor(e.messageId)], [e], {}),
     State(now, after, [e], map[], [e], {e})]
  }

  lemma BreakingSteps(job: Row, lease: Lease, e: Event, i: nat)
    requires RowInv(job) && job.leaseToken == Some(lease) && e.messageId != "" && i < 5
    ensures Apply(BrokenStates(job, e)[i], BrokenSteps(job, lease, e)[i]) == BrokenStates(job, e)[i + 1]
  {
    var s, s' := BrokenStates(job, e)[i], BrokenStates(job, e)[i + 1];
    if i == 1 {
      assert [] + [e] == [e];
    } else if i == 2 {
      assert Without(map[1 := Inserted(e)], 1) == map[];
      assert Reduce(s.rows, e.messageId, e.typ, e.at, s.clock) == s.rows;
    } else if i == 4 {
      assert Without(map[0 := AcceptedFor(e.messageId)], 0) == map[];
      assert Apply(s, Crash(0)).dropped == {e};
    }
  }

  /** This failure too is reached from empty tables. */
  lemma LostReplay(job: Row, lease: Lease, e: Event)
    requires RowInv(job) && job.leaseToken == Some(lease) && e.messageId != "" && e.typ.EventBounced?
    ensures var s := Run(Init(e.receivedAt), BrokenSteps(job, lease, e));
            && s.procs == map[] && "job" in s.rows && s.rows["job"].providerMessageId == Some(e.messageId)
            && s.rows["job"].status.Accepted? && Join(For(s.recorded, e.messageId)).Failed?
  {
    var states, steps := BrokenStates(job, e), BrokenSteps(job, lease, e);
    forall i | 0 <= i < |steps| ensures Apply(states[i], steps[i]) == states[i + 1] {
      BreakingSteps(job, lease, e, i);
    }
    RunVisits(states, steps);
    ForIs([e], e.messageId);
    assert e in For([e], e.messageId);
  }

  // ---- the other statements really leave known rows alone -------------------------------

  lemma QueueLeavesKnown(rows: Rows, id: Id, input: QueueInput, p: K.Payload, now: Time)
    requires TableInv(rows) && id !in rows
    ensures LeavesKnown(rows, Queue(rows, id, input, p, now))
  {
    QueueKeeps(rows, id, input, p, now);
    assert forall k :: k in rows ==> RowInv(rows[k]);
  }

  lemma ClaimLeavesKnown(rows: Rows, cands: seq<Id>, tokens: T.Tokens, leases: map<Id, Lease>, dbNow: Time,
      appNow: Time)
    requires TableInv(rows) && forall id :: id in cands ==> id in leases && id in rows && rows[id].status.Pending?
    ensures LeavesKnown(rows, Claim(rows, cands, tokens, leases, dbNow, appNow))
  {
    ClaimKeeps(rows, cands, tokens, leases, dbNow, appNow);
    assert forall k :: k in rows ==> RowInv(rows[k]);
  }

  lemma FinalizeLeavesKnown(rows: Rows, id: Id, lease: Lease, out: Outcome, now: Time)
    requires TableInv(rows) && !out.OutcomeAccepted?
    ensures LeavesKnown(rows, Finalize(rows, id, lease, out, now))
  {
    FinalizeKeeps(rows, id, lease, out, now);
    assert id in rows ==> RowInv(rows[id]);
  }

  lemma PurgesLeaveKnown(rows: Rows, cutoff: Time, kept: T.Tokens)
    requires TableInv(rows)
    ensures LeavesKnown(rows, Purge(rows, cutoff)) && LeavesKnown(rows, ForgetTokens(rows, kept))
  {
    PurgeKeeps(rows, cutoff);
    ForgetKeeps(rows, kept);
  }
}
