/** Sessions: one function per statement of the store, the decision Validate takes between its read and its write,
    and the store itself. Ids are hashes of random tokens; `disabled` holds every user's kill switch. */
module Session {
  import opened Base

  type Id = nat
  type UserId = string

  datatype Config = Config(lifetime: Duration, threshold: Duration, maxLifetime: Duration)

  datatype Row = Row(userId: UserId, createdAt: Time, lastUsedAt: Time, expiresAt: Time)

  datatype Tables = Tables(sessions: map<Id, Row>, disabled: map<UserId, bool>)

  datatype Outcome = NotFound | Expired | Valid(userId: UserId, expiresAt: Time, renewed: bool) | Failed

  /** What Validate reads: the session joined with its owner's switch. */
  datatype Snapshot = Snapshot(row: Row, disabled: bool)

  /** What Validate then writes, by id. */
  datatype Write = Keep | Drop | Touch(at: Time) | Extend(at: Time, until: Time)

  // ---- statements -----------------------------------------------------------------------

  function Look(t: Tables, id: Id): Option<Snapshot> {
    if id in t.sessions && t.sessions[id].userId in t.disabled
    then Some(Snapshot(t.sessions[id], t.disabled[t.sessions[id].userId]))
    else None
  }

  function NewExpiry(cfg: Config, createdAt: Time, now: Time): Time {
    if cfg.maxLifetime > 0 && createdAt + cfg.maxLifetime < now + cfg.lifetime
    then createdAt + cfg.maxLifetime
    else now + cfg.lifetime
  }

  function Decide(cfg: Config, seen: Option<Snapshot>, now: Time): (Outcome, Write) {
    if seen.None? then (NotFound, Keep)
    else
      var row := seen.value.row;
      if seen.value.disabled || row.expiresAt <= now then (Expired, Drop)
      else if now - row.lastUsedAt < cfg.threshold then (Valid(row.userId, row.expiresAt, false), Keep)
      else if row.expiresAt < NewExpiry(cfg, row.createdAt, now)
      then (Valid(row.userId, NewExpiry(cfg, row.createdAt, now), true),
          Extend(now, NewExpiry(cfg, row.createdAt, now)))
      else (Valid(row.userId, row.expiresAt, false), Touch(now))
  }

  function Rewrite(row: Row, w: Write): Row {
    match w
    case Touch(at) => row.(lastUsedAt := at)
    case Extend(at, until) => row.(lastUsedAt := at, expiresAt := until)
    case _ => row
  }

  /** An UPDATE or DELETE by id: it affects no row when the session is gone. */
  function Land(sessions: map<Id, Row>, id: Id, w: Write): map<Id, Row> {
    if w.Drop? then sessions - {id}
    else if id in sessions then sessions[id := Rewrite(sessions[id], w)]
    else sessions
  }

  function Without(sessions: map<Id, Row>, userId: UserId): map<Id, Row> {
    map id | id in sessions && sessions[id].userId != userId :: sessions[id]
  }

  function Unexpired(sessions: map<Id, Row>, now: Time): map<Id, Row> {
    map id | id in sessions && sessions[id].expiresAt > now :: sessions[id]
  }

  datatype Op =
    | Create(id: Id, userId: UserId, at: Time)
    | Validate(id: Id, at: Time)
    | Revoke(id: Id)
    | RevokeAll(userId: UserId)
    | SetDisabled(userId: UserId, flag: bool)
    | Purge(at: Time)

  /** The primary key and the foreign key of the sessions table. */
  predicate Insertable(t: Tables, id: Id, userId: UserId) {
    id !in t.sessions && userId in t.disabled
  }

  function Serve(cfg: Config, t: Tables, op: Op): Tables {
    match op
    case Create(id, userId, at) =>
      if Insertable(t, id, userId)
      then t.(sessions := t.sessions[id := Row(userId, at, at, at + cfg.lifetime)])
      else t
    case Validate(id, at) => t.(sessions := Land(t.sessions, id, Decide(cfg, Look(t, id), at).1))
    case Revoke(id) => t.(sessions := t.sessions - {id})
    case RevokeAll(userId) => t.(sessions := Without(t.sessions, userId))
    case SetDisabled(userId, flag) =>
      if userId !in t.disabled then t
      else Tables(if flag then Without(t.sessions, userId) else t.sessions, t.disabled[userId := flag])
    case Purge(at) => t.(sessions := Unexpired(t.sessions, at))
  }

  // ---- what they promise ----------------------------------------------------------------

  predicate Good(t: Tables, id: Id, now: Time) {
    && id in t.sessions && t.sessions[id].expiresAt > now
    && t.sessions[id].userId in t.disabled && !t.disabled[t.sessions[id].userId]
  }

  /** A use of a good session: one idle for the threshold is touched, and extended as far as one lifetime and the cap
      allow, never back; a busy one is left alone. */
  predicate Used(cfg: Config, r: Row, r': Row, now: Time, renewed: bool) {
    && r'.userId == r.userId && r'.createdAt == r.createdAt
    && if now - r.lastUsedAt < cfg.threshold then r' == r && !renewed
       else
         var reach := if cfg.maxLifetime > 0 then Min(now + cfg.lifetime, r.createdAt + cfg.maxLifetime)
                      else now + cfg.lifetime;
         r'.lastUsedAt == now && r'.expiresAt == Max(r.expiresAt, reach) && (renewed <==> r.expiresAt < reach)
  }

  ghost predicate OthersStay(was: map<Id, Row>, now: map<Id, Row>, id: Id) {
    forall x :: x != id ==> (x in now <==> x in was) && (x in now ==> now[x] == was[x])
  }

  /** The decision between the read and the write: no session, a dead one to delete, or a good one to use. */
  lemma DecideReads(cfg: Config, seen: Option<Snapshot>, now: Time)
    ensures var d := Decide(cfg, seen, now);
            && (d.0.NotFound? <==> seen.None?)
            && (d.0.Valid? <==> seen.Some? && !seen.value.disabled && now < seen.value.row.expiresAt)
            && (d.0.Expired? <==> seen.Some? && (seen.value.disabled || seen.value.row.expiresAt <= now))
            && (d.1.Drop? <==> d.0.Expired?)
            && (d.0.Valid? ==>
                  var row, row' := seen.value.row, Rewrite(seen.value.row, d.1);
                  Used(cfg, row, row', now, d.0.renewed) && d.0.userId == row.userId && d.0.expiresAt == row'.expiresAt)
  {
  }

  // ---- a serial run ---------------------------------------------------------------------

  function ServeAll(cfg: Config, t: Tables, ops: seq<Op>): Tables
    decreases |ops|
  {
    if ops == [] then t else ServeAll(cfg, Serve(cfg, t, ops[0]), ops[1..])
  }

  predicate Writes(cfg: Config, t: Tables, op: Op, id: Id) {
    op.Validate? && op.id == id && (var w := Decide(cfg, Look(t, id), op.at).1; w.Touch? || w.Extend?)
  }

  /** How many of a run's validations wrote to the session. */
  function WriteCount(cfg: Config, t: Tables, ops: seq<Op>, id: Id): nat
    decreases |ops|
  {
    if ops == [] then 0
    else (if Writes(cfg, t, ops[0], id) then 1 else 0) + WriteCount(cfg, Serve(cfg, t, ops[0]), ops[1..], id)
  }

  predicate Capped(cfg: Config, row: Row) {
    cfg.maxLifetime > 0 ==> row.expiresAt <= row.createdAt + cfg.maxLifetime
  }

  /** A session after `k` writes. */
  predicate Spaced(cfg: Config, row: Row, k: nat) {
    && k * cfg.threshold <= row.lastUsedAt - row.createdAt
    && row.expiresAt <= row.lastUsedAt + cfg.lifetime
    && Capped(cfg, row)
  }

  lemma ServeKeepsSpacing(cfg: Config, t: Tables, op: Op, id: Id, k: nat)
    requires cfg.threshold >= 0 && id in t.sessions && Spaced(cfg, t.sessions[id], k)
    ensures var t' := Serve(cfg, t, op);
            id in t'.sessions ==>
              && Spaced(cfg, t'.sessions[id], k + (if Writes(cfg, t, op, id) then 1 else 0))
              && t'.sessions[id].createdAt == t.sessions[id].createdAt
              && t.sessions[id].expiresAt <= t'.sessions[id].expiresAt
  {
    assert (k + 1) * cfg.threshold == k * cfg.threshold + cfg.threshold;
  }

  /** In a serial run the writes to a session are spaced by the renewal threshold, and its expiry never goes back and
      never passes one lifetime after the last recorded use nor the absolute cap, on the extending and on the pinned
      branch alike. */
  lemma {:induction false} SerialRunSpacesWrites(cfg: Config, t: Tables, ops: seq<Op>, id: Id, k: nat)
    requires cfg.threshold >= 0 && id in t.sessions && Spaced(cfg, t.sessions[id], k)
    requires forall i :: 0 <= i < |ops| ==> !(ops[i].Create? && ops[i].id == id)
    ensures var t' := ServeAll(cfg, t, ops);
            id in t'.sessions ==>
              && Spaced(cfg, t'.sessions[id], k + WriteCount(cfg, t, ops, id))
              && t'.sessions[id].createdAt == t.sessions[id].createdAt
              && t.sessions[id].expiresAt <= t'.sessions[id].expiresAt
    decreases |ops|
  {
    if ops != [] {
      var t1, k1 := Serve(cfg, t, ops[0]), k + (if Writes(cfg, t, ops[0], id) then 1 else 0);
      ServeKeepsSpacing(cfg, t, ops[0], id, k);
      if id in t1.sessions {
        SerialRunSpacesWrites(cfg, t1, ops[1..], id, k1);
      } else {
        StaysAbsent(cfg, t1, ops[1..], id);
      }
    }
  }

  lemma {:induction false} StaysAbsent(cfg: Config, t: Tables, ops: seq<Op>, id: Id)
    requires id !in t.sessions
    requires forall i :: 0 <= i < |ops| ==> !(ops[i].Create? && ops[i].id == id)
    ensures id !in ServeAll(cfg, t, ops).sessions
    decreases |ops|
  {
    if ops != [] {
      StaysAbsent(cfg, Serve(cfg, t, ops[0]), ops[1..], id);
    }
  }

  // ---- the store ------------------------------------------------------------------------

  class Store {
    const cfg: Config
    var sessions: map<Id, Row>
    var disabled: map<UserId, bool>

    constructor (cfg: Config, disabled: map<UserId, bool>)
      ensures this.cfg == cfg && Now() == Tables(map[], disabled)
    {
      this.cfg := cfg;
      sessions, this.disabled := map[], disabled;
    }

    function Now(): Tables
      reads this
    {
      Tables(sessions, disabled)
    }

    method Create(id: Id, userId: UserId, now: Time) returns (expiresAt: Option<Time>)
      modifies this`sessions
      ensures Now() == Serve(cfg, old(Now()), Op.Create(id, userId, now))
      ensures expiresAt.Some? <==> id !in old(sessions) && userId in disabled
      ensures expiresAt.Some? ==> id in sessions && sessions[id] == Row(userId, now, now, now + cfg.lifetime)
                                  && expiresAt == Some(now + cfg.lifetime)
      ensures expiresAt.None? ==> sessions == old(sessions)
      ensures OthersStay(old(sessions), sessions, id)
    {
      var expiry := now + cfg.lifetime;
      if id in sessions || userId !in disabled {
        return None;
      }
      sessions := sessions[id := Row(userId, now, now, expiry)];
      return Some(expiry);
    }

    /** NotFound without a session and a known owner, Valid for one not run out of an account not disabled, and Expired
        otherwise, which deletes it. */
    method Validate(id: Id, now: Time) returns (outcome: Outcome)
      modifies this`sessions
      ensures Now() == Serve(cfg, old(Now()), Op.Validate(id, now))
      ensures outcome == Decide(cfg, Look(old(Now()), id), now).0
      ensures outcome.NotFound? <==> !(id in old(sessions) && old(sessions)[id].userId in disabled)
      ensures outcome.NotFound? ==> sessions == old(sessions)
      ensures outcome.Valid? <==> Good(old(Now()), id, now)
      ensures outcome.Valid? ==>
                && id in sessions && Used(cfg, old(sessions)[id], sessions[id], now, outcome.renewed)
                && outcome.userId == old(sessions)[id].userId && outcome.expiresAt == sessions[id].expiresAt
      ensures outcome.Expired? ==> id !in sessions
      ensures !outcome.Failed? && OthersStay(old(sessions), sessions, id)
    {
      if id !in sessions || sessions[id].userId !in disabled {
        return NotFound;
      }
      var row := sessions[id];
      var expiresAt := row.expiresAt;
      if disabled[row.userId] || !(expiresAt > now) {
        sessions := sessions - {id};
        return Expired;
      }
      var renewed := false;
      if now - row.lastUsedAt >= cfg.threshold {
        var newExpiry := now + cfg.lifetime;
        if cfg.maxLifetime > 0 {
          var limit := row.createdAt + cfg.maxLifetime;
          if newExpiry > limit {
            newExpiry := limit;
          }
        }
        if newExpiry > expiresAt {
          sessions := sessions[id := row.(lastUsedAt := now, expiresAt := newExpiry)];
          expiresAt := newExpiry;
          renewed := true;
        } else {
          sessions := sessions[id := row.(lastUsedAt := now)];
        }
      }
      return Valid(row.userId, expiresAt, renewed);
    }

    method Revoke(id: Id) returns (userId: Option<UserId>)
      modifies this`sessions
      ensures Now() == Serve(cfg, old(Now()), Op.Revoke(id))
      ensures userId == if id in old(sessions) then Some(old(sessions)[id].userId) else None
      ensures id !in sessions && OthersStay(old(sessions), sessions, id)
    {
      userId := if id in sessions then Some(sessions[id].userId) else None;
      sessions := sessions - {id};
    }

    method RevokeAllForUser(userId: UserId)
      modifies this`sessions
      ensures Now() == Serve(cfg, old(Now()), RevokeAll(userId))
      ensures forall id :: id in sessions <==> id in old(sessions) && old(sessions)[id].userId != userId
      ensures forall id :: id in sessions ==> sessions[id] == old(sessions)[id]
    {
      sessions := map id | id in sessions && sessions[id].userId != userId :: sessions[id];
    }

    method Rotate(oldId: Id, id: Id, userId: UserId, now: Time) returns (expiresAt: Option<Time>)
      modifies this`sessions
      ensures Now() == ServeAll(cfg, old(Now()), [Op.Revoke(oldId), Op.Create(id, userId, now)])
      ensures expiresAt.Some? <==> (id !in old(sessions) || id == oldId) && userId in disabled
      ensures expiresAt.Some? ==> id in sessions && sessions[id] == Row(userId, now, now, now + cfg.lifetime)
                                  && expiresAt == Some(now + cfg.lifetime)
      ensures oldId in sessions ==> oldId == id && expiresAt.Some?
      ensures forall x :: x != id && x != oldId ==>
                (x in sessions <==> x in old(sessions)) && (x in sessions ==> sessions[x] == old(sessions)[x])
    {
      var _ := Revoke(oldId);
      expiresAt := Create(id, userId, now);
      assert [Op.Revoke(oldId), Op.Create(id, userId, now)][1..] == [Op.Create(id, userId, now)];
      assert [Op.Create(id, userId, now)][1..] == [];
      ghost var t0, ops := old(Now()), [Op.Create(id, userId, now)];
      assert ServeAll(cfg, Serve(cfg, t0, Op.Revoke(oldId)), ops)
          == ServeAll(cfg, Serve(cfg, Serve(cfg, t0, Op.Revoke(oldId)), ops[0]), ops[1..]);
    }

    method PurgeExpired(now: Time) returns (removed: int)
      modifies this`sessions
      ensures Now() == Serve(cfg, old(Now()), Purge(now))
      ensures forall id :: id in sessions <==> id in old(sessions) && old(sessions)[id].expiresAt > now
      ensures forall id :: id in sessions ==> sessions[id] == old(sessions)[id]
      ensures removed == |old(sessions)| - |sessions|
    {
      var before := |sessions|;
      sessions := map id | id in sessions && !(sessions[id].expiresAt <= now) :: sessions[id];
      removed := before - |sessions|;
    }
  }
}
