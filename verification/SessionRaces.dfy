/** Validate as it runs: an unsynchronized read, a decision, and a write by id some time later, interleaved with every
    other statement on the sessions table. Clock readings are arbitrary: nothing here needs them ordered. */
module SessionRaces {
  import opened Base
  import opened Session

  /** `at` is the clock reading the decision was taken by. */
  datatype Phase = Looked | Decided(at: Time, outcome: Outcome, write: Write) | Answered(at: Time, outcome: Outcome)

  datatype Call = Call(id: Id, seen: Option<Snapshot>, phase: Phase)

  datatype World = World(tables: Tables, issued: set<Id>, calls: map<nat, Call>)

  /** `Answer` is the write landing, or getting lost when `landed` is false, and the call returning. */
  datatype Step =
    | Do(op: Op)
    | Look(call: nat, id: Id)
    | Settle(call: nat, at: Time)
    | Answer(call: nat, landed: bool)

  function Init(disabled: map<UserId, bool>): World {
    World(Tables(map[], disabled), {}, map[])
  }

  predicate Enabled(w: World, step: Step) {
    match step
    case Do(op) => op.Create? ==> op.id !in w.issued
    case Look(call, id) => call !in w.calls
    case Settle(call, at) => call in w.calls && w.calls[call].phase.Looked?
    case Answer(call, landed) => call in w.calls && w.calls[call].phase.Decided?
  }

  /** A failed DELETE is ignored; a failed UPDATE fails the call. */
  function Returned(phase: Phase, landed: bool): Outcome
    requires phase.Decided?
  {
    if !landed && (phase.write.Touch? || phase.write.Extend?) then Failed else phase.outcome
  }

  function Apply(cfg: Config, w: World, step: Step): World
    requires Enabled(w, step)
  {
    match step
    case Do(op) =>
      World(Serve(cfg, w.tables, op), if op.Create? then w.issued + {op.id} else w.issued, w.calls)
    case Look(call, id) =>
      w.(calls := w.calls[call := Call(id, Session.Look(w.tables, id), Looked)])
    case Settle(call, at) =>
      var c := w.calls[call];
      var d := Decide(cfg, c.seen, at);
      w.(calls := w.calls[call := c.(phase := Decided(at, d.0, d.1))])
    case Answer(call, landed) =>
      var c := w.calls[call];
      World(if landed then w.tables.(sessions := Land(w.tables.sessions, c.id, c.phase.write)) else w.tables,
            w.issued, w.calls[call := c.(phase := Answered(c.phase.at, Returned(c.phase, landed)))])
  }

  predicate Legal(cfg: Config, w: World, steps: seq<Step>)
    decreases |steps|
  {
    steps == [] || (Enabled(w, steps[0]) && Legal(cfg, Apply(cfg, w, steps[0]), steps[1..]))
  }

  function Run(cfg: Config, w: World, steps: seq<Step>): World
    requires Legal(cfg, w, steps)
    decreases |steps|
  {
    if steps == [] then w else Run(cfg, Apply(cfg, w, steps[0]), steps[1..])
  }

  // ---- what every reachable world keeps -------------------------------------------------

  /** A call that saw a session saw one that was issued, and ids are never reissued: if the row is still there it is
      the same session. A call that saw none can only answer that there is none. */
  ghost predicate CallInv(cfg: Config, sessions: map<Id, Row>, issued: set<Id>, c: Call) {
    && (c.seen.Some? ==> c.id in issued)
    && (c.seen.Some? && c.id in sessions ==>
          && sessions[c.id].createdAt == c.seen.value.row.createdAt
          && sessions[c.id].userId == c.seen.value.row.userId)
    && (c.phase.Decided? ==> Decide(cfg, c.seen, c.phase.at) == (c.phase.outcome, c.phase.write))
    && (c.phase.Answered? ==> c.phase.outcome.Failed? || Decide(cfg, c.seen, c.phase.at).0 == c.phase.outcome)
    && (c.phase.Answered? && c.phase.outcome.Failed? ==> c.seen.Some?)
  }

  ghost predicate Inv(cfg: Config, w: World) {
    && w.tables.sessions.Keys <= w.issued
    && (forall k :: k in w.calls ==> CallInv(cfg, w.tables.sessions, w.issued, w.calls[k]))
  }

  /** Rows keep their creation time and owner for as long as they live. */
  predicate Persist(sessions: map<Id, Row>, sessions': map<Id, Row>) {
    forall id :: id in sessions && id in sessions' ==>
      sessions'[id].createdAt == sessions[id].createdAt && sessions'[id].userId == sessions[id].userId
  }

  lemma StepPersists(cfg: Config, w: World, step: Step)
    requires Inv(cfg, w) && Enabled(w, step)
    ensures var w' := Apply(cfg, w, step);
            && Persist(w.tables.sessions, w'.tables.sessions)
            && w'.tables.sessions.Keys <= w'.issued
            && w.issued <= w'.issued
            && (forall id :: id in w.issued && id !in w.tables.sessions ==> id !in w'.tables.sessions)
  {
  }

  lemma StepKeepsInv(cfg: Config, w: World, step: Step)
    requires Inv(cfg, w) && Enabled(w, step)
    ensures Inv(cfg, Apply(cfg, w, step))
  {
    StepPersists(cfg, w, step);
    var w' := Apply(cfg, w, step);
    forall k | k in w'.calls ensures CallInv(cfg, w'.tables.sessions, w'.issued, w'.calls[k]) {
      if k in w.calls {
        assert CallInv(cfg, w.tables.sessions, w.issued, w.calls[k]);
      }
    }
  }

  lemma {:induction false} RunKeepsInv(cfg: Config, w: World, steps: seq<Step>)
    requires Inv(cfg, w) && Legal(cfg, w, steps)
    ensures Inv(cfg, Run(cfg, w, steps))
    decreases |steps|
  {
    if steps != [] {
      StepKeepsInv(cfg, w, steps[0]);
      RunKeepsInv(cfg, Apply(cfg, w, steps[0]), steps[1..]);
    }
  }

  // ---- the absolute cap -----------------------------------------------------------------

  predicate AllCapped(cfg: Config, sessions: map<Id, Row>) {
    forall id :: id in sessions ==> Capped(cfg, sessions[id])
  }

  lemma StepKeepsCap(cfg: Config, w: World, step: Step)
    requires Inv(cfg, w) && Enabled(w, step) && AllCapped(cfg, w.tables.sessions)
    requires cfg.maxLifetime <= 0 || cfg.lifetime <= cfg.maxLifetime
    ensures AllCapped(cfg, Apply(cfg, w, step).tables.sessions)
  {
    if step.Answer? {
      var c := w.calls[step.call];
      assert CallInv(cfg, w.tables.sessions, w.issued, c);
    }
  }

  lemma {:induction false} RunKeepsCap(cfg: Config, w: World, steps: seq<Step>)
    requires Inv(cfg, w) && Legal(cfg, w, steps) && AllCapped(cfg, w.tables.sessions)
    requires cfg.maxLifetime <= 0 || cfg.lifetime <= cfg.maxLifetime
    ensures AllCapped(cfg, Run(cfg, w, steps).tables.sessions)
    decreases |steps|
  {
    if steps != [] {
      StepKeepsCap(cfg, w, steps[0]);
      StepKeepsInv(cfg, w, steps[0]);
      RunKeepsCap(cfg, Apply(cfg, w, steps[0]), steps[1..]);
    }
  }

  ghost predicate CapHolds(cfg: Config, disabled: map<UserId, bool>) {
    forall steps :: Legal(cfg, Init(disabled), steps) ==>
        AllCapped(cfg, Run(cfg, Init(disabled), steps).tables.sessions)
  }

  /** No interleaving takes a session past created + MaxLifetime, exactly for the configurations the loader accepts
      (or with the cap switched off). */
  lemma CapSurvivesRaces(cfg: Config, disabled: map<UserId, bool>, userId: UserId)
    requires userId in disabled
    ensures CapHolds(cfg, disabled) <==> cfg.maxLifetime <= 0 || cfg.lifetime <= cfg.maxLifetime
  {
    if cfg.maxLifetime <= 0 || cfg.lifetime <= cfg.maxLifetime {
      forall steps | Legal(cfg, Init(disabled), steps) ensures AllCapped(cfg,
          Run(cfg, Init(disabled), steps).tables.sessions) {
        RunKeepsCap(cfg, Init(disabled), steps);
      }
    } else {
      var step := Do(Create(0, userId, 0));
      var w := Apply(cfg, Init(disabled), step);
      assert [step][1..] == [];
      assert Legal(cfg, w, [][..]);
      assert Run(cfg, Init(disabled), [step]) == Run(cfg, w, []) == w;
      assert !Capped(cfg, w.tables.sessions[0]);
    }
  }

  // ---- deletion is final ----------------------------------------------------------------

  /** `id` is gone, and so it is for every call that looked since `base`. */
  predicate Gone(w: World, base: set<nat>, id: Id) {
    && id in w.issued
    && id !in w.tables.sessions
    && forall k :: k in w.calls && k !in base && w.calls[k].id == id ==> w.calls[k].seen.None?
  }

  lemma {:induction false} RunKeepsGone(cfg: Config, w: World, steps: seq<Step>, base: set<nat>, id: Id)
    requires Inv(cfg, w) && Legal(cfg, w, steps) && Gone(w, base, id)
    ensures Gone(Run(cfg, w, steps), base, id)
    decreases |steps|
  {
    if steps != [] {
      StepPersists(cfg, w, steps[0]);
      StepKeepsInv(cfg, w, steps[0]);
      RunKeepsGone(cfg, Apply(cfg, w, steps[0]), steps[1..], base, id);
    }
  }

  predicate Removes(t: Tables, step: Step, id: Id) {
    && step.Do?
    && id in t.sessions
    && (step.op == Revoke(id) || step.op == RevokeAll(t.sessions[id].userId)
        || (step.op == SetDisabled(t.sessions[id].userId, true) && t.sessions[id].userId in t.disabled))
  }

  /** A session removed by logout, reset or disable never comes back, whatever validations were in flight and
      whatever follows, re-enabling included; and every validation that looks afterwards answers NotFound. */
  lemma RemovalIsFinal(cfg: Config, w: World, step: Step, steps: seq<Step>, id: Id)
    requires Inv(cfg, w) && Removes(w.tables, step, id)
    requires Legal(cfg, Apply(cfg, w, step), steps)
    ensures var w' := Run(cfg, Apply(cfg, w, step), steps);
            && id !in w'.tables.sessions
            && forall k :: k in w'.calls && k !in w.calls && w'.calls[k].id == id && w'.calls[k].phase.Answered? ==>
                 w'.calls[k].phase.outcome == NotFound
  {
    var w1 := Apply(cfg, w, step);
    StepKeepsInv(cfg, w, step);
    RunKeepsGone(cfg, w1, steps, w.calls.Keys, id);
    RunKeepsInv(cfg, w1, steps);
    var w' := Run(cfg, w1, steps);
    forall k | k in w'.calls && k !in w.calls && w'.calls[k].id == id && w'.calls[k].phase.Answered?
      ensures w'.calls[k].phase.outcome == NotFound
    {
      assert CallInv(cfg, w'.tables.sessions, w'.issued, w'.calls[k]);
    }
  }

  lemma {:induction false} RunPersists(cfg: Config, w: World, steps: seq<Step>, id: Id)
    requires Inv(cfg, w) && Legal(cfg, w, steps) && id in w.issued
    ensures var w' := Run(cfg, w, steps);
            id in w'.tables.sessions ==>
              id in w.tables.sessions && w'.tables.sessions[id].userId == w.tables.sessions[id].userId
    decreases |steps|
  {
    if steps != [] {
      StepPersists(cfg, w, steps[0]);
      StepKeepsInv(cfg, w, steps[0]);
      RunPersists(cfg, Apply(cfg, w, steps[0]), steps[1..], id);
    }
  }

  /** Whatever sessions a user has after a disable were all created after it. */
  lemma SurvivorsAreNew(cfg: Config, w: World, userId: UserId, steps: seq<Step>)
    requires Inv(cfg, w) && userId in w.tables.disabled
    requires Legal(cfg, Apply(cfg, w, Do(SetDisabled(userId, true))), steps)
    ensures var w' := Run(cfg, Apply(cfg, w, Do(SetDisabled(userId, true))), steps);
            forall id :: id in w'.tables.sessions && w'.tables.sessions[id].userId == userId ==> id !in w.issued
  {
    var w1 := Apply(cfg, w, Do(SetDisabled(userId, true)));
    StepKeepsInv(cfg, w, Do(SetDisabled(userId, true)));
    forall id | id in w.issued
      ensures var w' := Run(cfg, w1, steps); id in w'.tables.sessions ==> w'.tables.sessions[id].userId != userId
    {
      RunPersists(cfg, w1, steps, id);
    }
  }

  // ---- expiry ---------------------------------------------------------------------------

  predicate SawGood(c: Call)
    requires !c.phase.Looked?
  {
    c.seen.Some? && !c.seen.value.disabled && c.phase.at < c.seen.value.row.expiresAt
  }

  /** However calls interleave, one that settles at or after the expiry it saw never answers Valid: it answers Valid
      iff what it saw was good when it settled, for the owner it saw, unless its own update failed. */
  lemma ExpiredIsNeverValid(cfg: Config, w: World, steps: seq<Step>)
    requires Inv(cfg, w) && Legal(cfg, w, steps)
    ensures var w' := Run(cfg, w, steps);
            forall k :: k in w'.calls && !w'.calls[k].phase.Looked? ==>
              var c := w'.calls[k];
              && (c.phase.outcome.Valid? ==> SawGood(c) && c.phase.outcome.userId == c.seen.value.row.userId)
              && (SawGood(c) ==> c.phase.outcome.Valid? || (c.phase.Answered? && c.phase.outcome.Failed?))
  {
    RunKeepsInv(cfg, w, steps);
    var w' := Run(cfg, w, steps);
    forall k | k in w'.calls && !w'.calls[k].phase.Looked?
      ensures var c := w'.calls[k];
              && (c.phase.outcome.Valid? ==> SawGood(c) && c.phase.outcome.userId == c.seen.value.row.userId)
              && (SawGood(c) ==> c.phase.outcome.Valid? || (c.phase.Answered? && c.phase.outcome.Failed?))
    {
      assert CallInv(cfg, w'.tables.sessions, w'.issued, w'.calls[k]);
      DecideReads(cfg, w'.calls[k].seen, w'.calls[k].phase.at);
    }
  }

  // ---- the kill switch ------------------------------------------------------------------

  predicate Refused(w: World, base: set<nat>, userId: UserId) {
    && userId in w.tables.disabled && w.tables.disabled[userId]
    && forall k :: k in w.calls && k !in base && w.calls[k].seen.Some? && w.calls[k].seen.value.row.userId == userId ==>
         w.calls[k].seen.value.disabled
  }

  lemma {:induction false} RunKeepsRefused(cfg: Config, w: World, steps: seq<Step>, base: set<nat>, userId: UserId)
    requires Legal(cfg, w, steps) && Refused(w, base, userId)
    requires forall i :: 0 <= i < |steps| ==> steps[i] != Do(SetDisabled(userId, false))
    ensures Refused(Run(cfg, w, steps), base, userId)
    decreases |steps|
  {
    if steps != [] {
      RunKeepsRefused(cfg, Apply(cfg, w, steps[0]), steps[1..], base, userId);
    }
  }

  /** While an account is disabled no validation that starts answers Valid for it, although sessions may exist. */
  lemma DisabledIsNeverValid(cfg: Config, w: World, steps: seq<Step>, userId: UserId)
    requires Inv(cfg, w) && Legal(cfg, w, steps)
    requires userId in w.tables.disabled && w.tables.disabled[userId]
    requires forall i :: 0 <= i < |steps| ==> steps[i] != Do(SetDisabled(userId, false))
    ensures var w' := Run(cfg, w, steps);
            forall k :: (k in w'.calls && k !in w.calls
                         && w'.calls[k].phase.Answered? && w'.calls[k].phase.outcome.Valid?) ==>
              w'.calls[k].phase.outcome.userId != userId
  {
    RunKeepsRefused(cfg, w, steps, w.calls.Keys, userId);
    RunKeepsInv(cfg, w, steps);
    var w' := Run(cfg, w, steps);
    forall k | k in w'.calls && k !in w.calls && w'.calls[k].phase.Answered? && w'.calls[k].phase.outcome.Valid?
      ensures w'.calls[k].phase.outcome.userId != userId
    {
      assert CallInv(cfg, w'.tables.sessions, w'.issued, w'.calls[k]);
    }
  }

  /** "Disabled" does not mean "no sessions": a password login that checked the switch before it was thrown inserts
      its session after, and once the account is re-enabled that session is good. */
  lemma LateLoginOutlivesDisable(cfg: Config, w: World, userId: UserId, id: Id, call: nat, at: Time)
    requires Inv(cfg, w) && userId in w.tables.disabled && id !in w.issued && call !in w.calls && cfg.lifetime > 0
    ensures var w1 := Apply(cfg, w, Do(SetDisabled(userId, true)));
            var w2 := Apply(cfg, w1, Do(Create(id, userId, at)));
            var w3 := Apply(cfg, w2, Do(SetDisabled(userId, false)));
            var w4 := Apply(cfg, w3, Look(call, id));
            var w5 := Apply(cfg, w4, Settle(call, at));
            && w2.tables.disabled[userId] && id in w2.tables.sessions
            && w5.calls[call].phase.outcome.Valid? && w5.calls[call].phase.outcome.userId == userId
  {
    assert id !in w.tables.sessions;
  }

  // ---- racing renewals ------------------------------------------------------------------

  /** Two validations read the same row and renew it at `t1` and `t2`. If the later decision lands first the stored
      expiry goes backwards, exactly when the earlier one was not already pinned at the cap. */
  lemma RacingRenewalsCanGoBack(cfg: Config, w: World, a: nat, b: nat, t1: Time, t2: Time)
    requires a != b && a in w.calls && b in w.calls && w.calls[a] == w.calls[b] && w.calls[a].phase.Looked?
    requires w.calls[a].id in w.tables.sessions && t1 < t2
    requires Decide(cfg, w.calls[a].seen, t1).1.Extend? && Decide(cfg, w.calls[a].seen, t2).1.Extend?
    ensures var id := w.calls[a].id;
            var w1 := Apply(cfg, Apply(cfg, w, Settle(a, t1)), Settle(b, t2));
            var w2 := Apply(cfg, w1, Answer(b, true));
            var w3 := Apply(cfg, w2, Answer(a, true));
            && id in w2.tables.sessions && id in w3.tables.sessions
            && (w3.tables.sessions[id].expiresAt < w2.tables.sessions[id].expiresAt
                <==> cfg.maxLifetime <= 0 || t1 + cfg.lifetime < w.calls[a].seen.value.row.createdAt + cfg.maxLifetime)
  {
    var id := w.calls[a].id;
    var d1, d2 := Decide(cfg, w.calls[a].seen, t1), Decide(cfg, w.calls[b].seen, t2);
    var w1 := Apply(cfg, Apply(cfg, w, Settle(a, t1)), Settle(b, t2));
    assert w1.calls[a].phase == Decided(t1, d1.0, d1.1) && w1.calls[b].phase == Decided(t2, d2.0, d2.1);
    var w2 := Apply(cfg, w1, Answer(b, true));
    assert w2.tables.sessions[id].expiresAt == d2.1.until && w2.calls[a] == w1.calls[a];
    var w3 := Apply(cfg, w2, Answer(a, true));
    assert w3.tables.sessions[id].expiresAt == d1.1.until;
  }
}
