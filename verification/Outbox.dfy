/** The durable queue: its two tables are mutable fields, each method is one entry point. The methods are
    specified by the statements of OutboxTable that the protocol modules step through. */
module Outbox {
  import opened Base
  import opened OutboxTable
  import opened Jobs
  import opened EventFold
  import opened EventTable
  import opened OutboxEffects
  import K = Keyring
  import T = TokenTable

  datatype FinalizeResult = Recorded | LeaseLost | Broken

  /** How the database treats a finalize: it works; its update fails; its update commits but the acknowledgement is
      lost; or its replay stops with an error after `done` events. */
  datatype Fate = Fine | Rejected | Unacknowledged | ReplayStops(done: nat)

  /** How it treats a recording: the insert fails, loses its acknowledgement, or is not followed by the reduction. */
  datatype RecordFate = Complete | NotInserted | InsertUnacknowledged | NotReduced

  // ---- claim, statement by statement ----------------------------------------------------

  function Retire(rows: Rows, ids: seq<Id>, status: Status, reason: Code, now: Time): Rows {
    map id | id in rows :: if id in ids then RetireRow(rows[id], status, reason, now) else rows[id]
  }

  lemma RetireRetiresAll(rows: Rows, ids: seq<Id>, status: Status, reason: Code, now: Time)
    ensures RetiresAll(rows, ids, status, reason, now, Retire(rows, ids, status, reason, now))
  {
    forall id | id in rows ensures Retires(rows[id], RetireRow(rows[id], status, reason, now), status, reason, now) {
      RetireRowRetires(rows[id], status, reason, now);
    }
  }

  function TakeLeases(rows: Rows, ids: seq<Id>, leases: map<Id, Lease>, now: Time): Rows
    requires forall id :: id in ids ==> id in leases
  {
    map id | id in rows :: if id in ids then LeaseRow(rows[id], leases[id], now) else rows[id]
  }

  /** Which list of the classification loop a candidate belongs to. */
  ghost predicate Sorted(rows: Rows, cands: seq<Id>, tokens: T.Tokens, dbNow: Time, appNow: Time, v: Verdict,
      ids: seq<Id>)
    requires forall id :: id in cands ==> id in rows
  {
    forall id :: id in ids <==> id in cands && Judge(rows[id], tokens, dbNow, appNow) == v
  }

  lemma StatementsAreClaim(rows: Rows, cands: seq<Id>, tokens: T.Tokens, leases: map<Id, Lease>, dbNow: Time,
      appNow: Time, expired: seq<Id>, exhausted: seq<Id>, dead: seq<Id>, leasable: seq<Id>)
    requires forall id :: id in cands ==> id in rows && id in leases
    requires Sorted(rows, cands, tokens, dbNow, appNow, WindowElapsed, expired)
    requires Sorted(rows, cands, tokens, dbNow, appNow, Exhausted, exhausted)
    requires Sorted(rows, cands, tokens, dbNow, appNow, Dead, dead)
    requires Sorted(rows, cands, tokens, dbNow, appNow, Leasable, leasable)
    ensures var r1 := Retire(rows, expired, Expired, SendWindowElapsed, dbNow);
            var r2 := Retire(r1, exhausted, Failed, AttemptsExhausted, dbNow);
            var r3 := Retire(r2, dead, Canceled, TokenInactive, dbNow);
            TakeLeases(r3, leasable, leases, dbNow) == Claim(rows, cands, tokens, leases, dbNow, appNow)
  {
    var r1 := Retire(rows, expired, Expired, SendWindowElapsed, dbNow);
    var r2 := Retire(r1, exhausted, Failed, AttemptsExhausted, dbNow);
    var r3 := Retire(r2, dead, Canceled, TokenInactive, dbNow);
    var r4, c := TakeLeases(r3, leasable, leases, dbNow), Claim(rows, cands, tokens, leases, dbNow, appNow);
    forall id | id in rows ensures r4[id] == c[id] {
      if id in cands {
        var v := Judge(rows[id], tokens, dbNow, appNow);
        assert id in expired <==> v == WindowElapsed;
        assert id in exhausted <==> v == Exhausted;
        assert id in dead <==> v == Dead;
        assert id in leasable <==> v == Leasable;
      }
    }
  }

  /** Three retirements and one lease update amount to the claim of every candidate by its own verdict. */
  lemma ClaimInStatements(rows: Rows, cands: seq<Id>, tokens: T.Tokens, leases: map<Id, Lease>, dbNow: Time,
      appNow: Time, expired: seq<Id>, exhausted: seq<Id>, dead: seq<Id>, leasable: seq<Id>)
    requires forall id :: id in cands ==> id in rows && id in leases
    requires Sorted(rows, cands, tokens, dbNow, appNow, WindowElapsed, expired)
    requires Sorted(rows, cands, tokens, dbNow, appNow, Exhausted, exhausted)
    requires Sorted(rows, cands, tokens, dbNow, appNow, Dead, dead)
    requires Sorted(rows, cands, tokens, dbNow, appNow, Leasable, leasable)
    requires forall id :: id in cands ==> rows[id].status.Pending?
    ensures var r1 := Retire(rows, expired, Expired, SendWindowElapsed, dbNow);
            var r2 := Retire(r1, exhausted, Failed, AttemptsExhausted, dbNow);
            var r3 := Retire(r2, dead, Canceled, TokenInactive, dbNow);
            var r4 := TakeLeases(r3, leasable, leases, dbNow);
            && r4 == Claim(rows, cands, tokens, leases, dbNow, appNow)
            && ClaimsAll(rows, cands, tokens, leases, dbNow, appNow, r4)
  {
    StatementsAreClaim(rows, cands, tokens, leases, dbNow, appNow, expired, exhausted, dead, leasable);
    ClaimClaimsAll(rows, cands, tokens, leases, dbNow, appNow);
  }

  lemma LeasedIdsHead(rows: Rows, id: Id, cands: seq<Id>, tokens: T.Tokens, dbNow: Time, appNow: Time)
    requires forall x :: x in [id] + cands ==> x in rows
    ensures forall x :: x in cands ==> x in rows
    ensures LeasedIds(rows, [id] + cands, tokens, dbNow, appNow) ==
            (if Judge(rows[id], tokens, dbNow, appNow).Leasable? then [id] else [])
                + LeasedIds(rows, cands, tokens, dbNow, appNow)
  {
    assert ([id] + cands)[1..] == cands;
    assert forall x :: x in cands ==> x in [id] + cands;
  }

  lemma {:induction false} LeasedIdsAppend(rows: Rows, cands: seq<Id>, id: Id, tokens: T.Tokens, dbNow: Time,
      appNow: Time)
    requires id in rows && forall x :: x in cands ==> x in rows
    ensures forall x :: x in cands + [id] ==> x in rows
    ensures LeasedIds(rows, cands + [id], tokens, dbNow, appNow) ==
            LeasedIds(rows, cands, tokens, dbNow, appNow)
                + (if Judge(rows[id], tokens, dbNow, appNow).Leasable? then [id] else [])
  {
    if cands == [] {
      LeasedIdsHead(rows, id, [], tokens, dbNow, appNow);
      assert cands + [id] == [id] + [];
    } else {
      assert cands + [id] == [cands[0]] + (cands[1..] + [id]);
      LeasedIdsHead(rows, cands[0], cands[1..] + [id], tokens, dbNow, appNow);
      LeasedIdsAppend(rows, cands[1..], id, tokens, dbNow, appNow);
    }
  }

  lemma {:induction false} SiftAppend(rows: Rows, ids: seq<Id>, id: Id, leases: map<Id, Lease>, kr: K.Keyring,
      now: Time, opens: bool)
    requires Openable(rows, ids, leases) && Openable(rows, [id], leases) && Openable(rows, ids + [id], leases)
    ensures Sift(rows, ids + [id], leases, kr, now, opens) ==
            Sift(rows, ids, leases, kr, now, opens)
            + (if OpenBody(id, rows[id], kr).Ok? == opens then [Opened(id, rows[id], leases[id], kr, now)] else [])
  {
    if ids == [] {
      assert ids + [id] == [id] && [id][1..] == [];
    } else {
      assert (ids + [id])[0] == ids[0] && (ids + [id])[1..] == ids[1..] + [id];
      SiftAppend(rows, ids[1..], id, leases, kr, now, opens);
    }
  }

  /** Failing the undecryptable jobs one after the other, but for those whose update fails. */
  function FailAll(rows: Rows, js: seq<Job>, stuck: set<Id>, now: Time): Rows {
    if js == [] then rows
    else
      var last, before := js[|js| - 1], FailAll(rows, js[..|js| - 1], stuck, now);
      if last.id in stuck then before
      else Finalize(before, last.id, last.leaseToken, OutcomeFailed(DecryptFailed), now)
  }

  lemma FailAllAppend(rows: Rows, js: seq<Job>, j: Job, stuck: set<Id>, now: Time)
    ensures FailAll(rows, js + [j], stuck, now) ==
            if j.id in stuck then FailAll(rows, js, stuck, now)
            else Finalize(FailAll(rows, js, stuck, now), j.id, j.leaseToken, OutcomeFailed(DecryptFailed), now)
  {
    assert (js + [j])[..|js|] == js;
  }

  ghost predicate Spared(id: Id, js: seq<Job>, stuck: set<Id>) {
    id in stuck || forall j :: j in js ==> j.id != id
  }

  /** Every row whose job is failed is closed by that failure; no other row moves. */
  ghost predicate FailsAll(rows: Rows, js: seq<Job>, stuck: set<Id>, now: Time, rows': Rows) {
    && rows'.Keys == rows.Keys
    && (forall id :: id in rows && Spared(id, js, stuck) ==> rows'[id] == rows[id])
    && (forall id :: id in rows && !Spared(id, js, stuck) ==> ClosedFailed(rows[id], rows'[id], DecryptFailed, now))
  }

  ghost predicate Holds(rows: Rows, js: seq<Job>) {
    DistinctJobs(js) && forall j :: j in js ==> j.id in rows && rows[j.id].leaseToken == Some(j.leaseToken)
  }

  lemma FailsOneMore(rows: Rows, js: seq<Job>, j: Job, stuck: set<Id>, now: Time, before: Rows)
    requires Holds(rows, js + [j]) && FailsAll(rows, js, stuck, now, before) && j.id !in stuck
    ensures FailsAll(rows, js + [j], stuck, now,
                     Finalize(before, j.id, j.leaseToken, OutcomeFailed(DecryptFailed), now))
  {
    var all := js + [j];
    assert all[|js|] == j && forall k :: k in js ==> k in all;
    forall k | k in js ensures k.id != j.id {
      var i :| 0 <= i < |js| && js[i] == k;
      assert all[i] == k;
    }
    assert Spared(j.id, js, stuck) && before[j.id] == rows[j.id];
    FinalizeRecords(before, j.id, j.leaseToken, OutcomeFailed(DecryptFailed), now);
    forall id | id in rows ensures Spared(id, all, stuck) <==> id != j.id && Spared(id, js, stuck) {
    }
  }

  lemma {:induction false} FailAllIs(rows: Rows, js: seq<Job>, stuck: set<Id>, now: Time)
    requires Holds(rows, js)
    ensures FailsAll(rows, js, stuck, now, FailAll(rows, js, stuck, now))
    decreases |js|
  {
    if js != [] {
      var front, last := js[..|js| - 1], js[|js| - 1];
      FailAllIs(rows, front, stuck, now);
      assert js == front + [last];
      if last.id in stuck {
        forall id | id in rows ensures Spared(id, js, stuck) <==> Spared(id, front, stuck) {
        }
      } else {
        FailsOneMore(rows, front, last, stuck, now, FailAll(rows, front, stuck, now));
      }
    }
  }

  ghost predicate Illegible(rows: Rows, cands: seq<Id>, tokens: T.Tokens, dbNow: Time, appNow: Time, kr: K.Keyring,
      id: Id)
  {
    id in cands && id in rows && CanSend(rows[id], tokens, dbNow, appNow) && !Readable(id, rows[id], kr)
  }

  /** The jobs that get failed are those of the illegible candidates, each under the lease just taken. */
  lemma DoomedAreIllegible(rows: Rows, cands: seq<Id>, tokens: T.Tokens, leases: map<Id, Lease>, dbNow: Time,
                           appNow: Time, kr: K.Keyring)
    requires TableInv(rows) && Distinct(cands)
    requires forall id :: id in cands ==> id in leases && id in rows && rows[id].status.Pending?
    ensures var ids := LeasedIds(rows, cands, tokens, dbNow, appNow);
            && Openable(rows, ids, leases)
            && (var doomed := Sift(rows, ids, leases, kr, dbNow, false);
                && Holds(Claim(rows, cands, tokens, leases, dbNow, appNow), doomed)
                && forall j :: j in doomed ==> Illegible(rows, cands, tokens, dbNow, appNow, kr, j.id))
  {
    var ids := LeasedIds(rows, cands, tokens, dbNow, appNow);
    SiftHandsOut(rows, cands, tokens, leases, dbNow, appNow, kr);
    LeasedAreLeasable(rows, cands, tokens, dbNow, appNow);
    SiftIs(rows, ids, leases, kr, dbNow, false);
    var claimed, doomed := Claim(rows, cands, tokens, leases, dbNow, appNow), Sift(rows, ids, leases, kr, dbNow, false);
    forall j | j in doomed
      ensures j.id in claimed && claimed[j.id].leaseToken == Some(j.leaseToken)
      ensures Illegible(rows, cands, tokens, dbNow, appNow, kr, j.id)
    {
      assert IsSifted(rows, ids, leases, kr, dbNow, false, j);
    }
  }

  lemma IllegibleIsDoomed(rows: Rows, cands: seq<Id>, tokens: T.Tokens, leases: map<Id, Lease>, dbNow: Time,
                          appNow: Time, kr: K.Keyring, id: Id)
    requires TableInv(rows) && Distinct(cands)
    requires forall x :: x in cands ==> x in leases && x in rows && rows[x].status.Pending?
    requires Openable(rows, LeasedIds(rows, cands, tokens, dbNow, appNow), leases)
    requires Illegible(rows, cands, tokens, dbNow, appNow, kr, id)
    ensures exists j :: j in Sift(rows, LeasedIds(rows, cands, tokens, dbNow, appNow), leases, kr, dbNow, false)
                        && j.id == id
  {
    var ids := LeasedIds(rows, cands, tokens, dbNow, appNow);
    LeasedAreLeasable(rows, cands, tokens, dbNow, appNow);
    SiftIs(rows, ids, leases, kr, dbNow, true);
    EverySide(rows, ids, leases, kr, dbNow, id);
    var ready, doomed := Sift(rows, ids, leases, kr, dbNow, true), Sift(rows, ids, leases, kr, dbNow, false);
    var j :| (j in ready || j in doomed) && j.id == id;
    assert j in ready ==> IsSifted(rows, ids, leases, kr, dbNow, true, j);
  }

  lemma LeasedThenFailed(r: Row, c: Row, r': Row, lease: Lease, dbNow: Time, now: Time)
    requires Leases(r, c, lease, dbNow) && ClosedFailed(c, r', DecryptFailed, now)
    ensures Unreadable(r, r', now)
  {
  }

  /** The claim of every candidate by its own case, then the failing of what does not open. */
  lemma ClaimIsReadable(rows: Rows, cands: seq<Id>, tokens: T.Tokens, leases: map<Id, Lease>, dbNow: Time, appNow: Time,
                        kr: K.Keyring, now: Time, stuck: set<Id>)
    requires TableInv(rows) && Distinct(cands)
    requires forall id :: id in cands ==> id in leases && id in rows && rows[id].status.Pending?
    ensures var ids := LeasedIds(rows, cands, tokens, dbNow, appNow);
            && Openable(rows, ids, leases)
            && ClaimsReadable(rows, cands, tokens, leases, dbNow, appNow, kr, now, stuck,
                              FailAll(Claim(rows, cands, tokens, leases, dbNow, appNow),
                                      Sift(rows, ids, leases, kr, dbNow, false), stuck, now))
  {
    DoomedAreIllegible(rows, cands, tokens, leases, dbNow, appNow, kr);
    ClaimClaimsAll(rows, cands, tokens, leases, dbNow, appNow);
    var ids := LeasedIds(rows, cands, tokens, dbNow, appNow);
    var claimed, doomed := Claim(rows, cands, tokens, leases, dbNow, appNow), Sift(rows, ids, leases, kr, dbNow, false);
    FailAllIs(claimed, doomed, stuck, now);
    var rows' := FailAll(claimed, doomed, stuck, now);
    forall id | id in rows && id !in stuck && Illegible(rows, cands, tokens, dbNow, appNow, kr, id)
      ensures Unreadable(rows[id], rows'[id], now)
    {
      IllegibleIsDoomed(rows, cands, tokens, leases, dbNow, appNow, kr, id);
      assert Claims(rows[id], claimed[id], tokens, leases[id], dbNow, appNow);
      LeasedThenFailed(rows[id], claimed[id], rows'[id], leases[id], dbNow, now);
    }
    forall id | id in rows && (id in stuck || !Illegible(rows, cands, tokens, dbNow, appNow, kr, id))
      ensures rows'[id] == claimed[id]
    {
    }
  }

  // ---- events in order ------------------------------------------------------------------

  function Insert(e: Event, evs: seq<Event>): seq<Event> {
    if evs == [] then [e] else if evs[0].at <= e.at then [evs[0]] + Insert(e, evs[1..]) else [e] + evs
  }

  /** ORDER BY occurred_at, id: the table is in id order, and later rows go after earlier ones of the same time. */
  function InOrder(evs: seq<Event>): seq<Event> {
    if evs == [] then [] else Insert(evs[|evs| - 1], InOrder(evs[..|evs| - 1]))
  }

  predicate Ascending(evs: seq<Event>) {
    evs == [] || ((forall e :: e in evs ==> evs[0].at <= e.at) && Ascending(evs[1..]))
  }

  lemma {:induction false} InsertHas(e: Event, evs: seq<Event>)
    ensures multiset(Insert(e, evs)) == multiset(evs) + multiset{e}
    ensures forall x :: x in Insert(e, evs) <==> x in evs || x == e
  {
    if evs != [] && evs[0].at <= e.at {
      InsertHas(e, evs[1..]);
      assert evs == [evs[0]] + evs[1..];
    }
  }

  lemma {:induction false} InsertSorts(e: Event, evs: seq<Event>)
    requires Ascending(evs)
    ensures Ascending(Insert(e, evs))
  {
    if evs != [] && evs[0].at <= e.at {
      InsertSorts(e, evs[1..]);
      InsertHas(e, evs[1..]);
      assert Insert(e, evs)[1..] == Insert(e, evs[1..]);
    } else {
      assert ([e] + evs)[1..] == evs;
    }
  }

  lemma {:induction false} InOrderHas(evs: seq<Event>)
    ensures multiset(InOrder(evs)) == multiset(evs)
  {
    if evs != [] {
      var front, last := evs[..|evs| - 1], evs[|evs| - 1];
      InOrderHas(front);
      InsertHas(last, InOrder(front));
      assert evs == front + [last];
    }
  }

  lemma {:induction false} InOrderSorts(evs: seq<Event>)
    ensures Ascending(InOrder(evs))
  {
    if evs != [] {
      InOrderSorts(evs[..|evs| - 1]);
      InsertSorts(evs[|evs| - 1], InOrder(evs[..|evs| - 1]));
    }
  }

  /** The events of one instant, in table order. */
  function AtTime(evs: seq<Event>, t: Time): seq<Event> {
    if evs == [] then [] else (if evs[0].at == t then [evs[0]] else []) + AtTime(evs[1..], t)
  }

  lemma AtTimeHead(e: Event, evs: seq<Event>, t: Time)
    ensures AtTime([e] + evs, t) == (if e.at == t then [e] else []) + AtTime(evs, t)
  {
    assert ([e] + evs)[1..] == evs;
  }

  lemma {:induction false} AtTimeAppend(evs: seq<Event>, e: Event, t: Time)
    ensures AtTime(evs + [e], t) == AtTime(evs, t) + (if e.at == t then [e] else [])
    decreases |evs|
  {
    if evs == [] {
      AtTimeHead(e, [], t);
      assert evs + [e] == [e] + [];
    } else {
      assert evs + [e] == [evs[0]] + (evs[1..] + [e]);
      AtTimeHead(evs[0], evs[1..] + [e], t);
      AtTimeAppend(evs[1..], e, t);
    }
  }

  lemma {:induction false} NoneAtTime(evs: seq<Event>, t: Time)
    requires forall e :: e in evs ==> e.at != t
    ensures AtTime(evs, t) == []
  {
    if evs != [] {
      NoneAtTime(evs[1..], t);
    }
  }

  /** An inserted event goes after those of its instant. */
  lemma {:induction false} InsertGoesLast(e: Event, evs: seq<Event>, t: Time)
    requires Ascending(evs)
    ensures AtTime(Insert(e, evs), t) == AtTime(evs, t) + (if e.at == t then [e] else [])
  {
    if evs == [] {
      AtTimeHead(e, [], t);
    } else if evs[0].at <= e.at {
      InsertGoesLast(e, evs[1..], t);
      AtTimeHead(evs[0], Insert(e, evs[1..]), t);
    } else {
      AtTimeHead(e, evs, t);
      if e.at == t {
        NoneAtTime(evs, t);
      }
    }
  }

  lemma {:induction false} InOrderIsStable(evs: seq<Event>, t: Time)
    ensures AtTime(InOrder(evs), t) == AtTime(evs, t)
  {
    if evs != [] {
      var front, last := evs[..|evs| - 1], evs[|evs| - 1];
      InOrderIsStable(front, t);
      InOrderSorts(front);
      InsertGoesLast(last, InOrder(front), t);
      AtTimeAppend(front, last, t);
      assert evs == front + [last];
    }
  }

  /** The replay order is a permutation of the stored events, earliest first, and events of one instant keep the order
      in which they were stored. */
  lemma InOrderIs(evs: seq<Event>)
    ensures multiset(InOrder(evs)) == multiset(evs)
    ensures Ascending(InOrder(evs))
    ensures forall t :: AtTime(InOrder(evs), t) == AtTime(evs, t)
    ensures forall e :: e in InOrder(evs) <==> e in evs
  {
    InOrderHas(evs);
    InOrderSorts(evs);
    forall t ensures AtTime(InOrder(evs), t) == AtTime(evs, t) {
      InOrderIsStable(evs, t);
    }
    forall e ensures e in InOrder(evs) <==> e in evs {
      assert e in multiset(InOrder(evs)) <==> e in multiset(evs);
    }
  }

  /** Reducing a list of events into the table, front to back. */
  function ReduceAll(rows: Rows, m: string, evs: seq<Event>, now: Time): Rows {
    if evs == [] then rows
    else
      var last := evs[|evs| - 1];
      Reduce(ReduceAll(rows, m, evs[..|evs| - 1], now), m, last.typ, last.at, now)
  }

  /** Whether a replay of `evs` stops early: at the select, or at one of its reductions. */
  predicate Stops(evs: seq<Event>, fate: Fate) {
    fate.ReplayStops? && (fate.done == 0 || fate.done < |evs|)
  }

  function Replayed(evs: seq<Event>, fate: Fate): seq<Event> {
    if Stops(evs, fate) then evs[..fate.done] else evs
  }

  predicate Replays(out: Outcome) {
    out.OutcomeAccepted? && out.providerMessageId != ""
  }

  /** The table after a finalize and the replay that goes with it. */
  function Finalized(rows: Rows, events: seq<Event>, id: Id, lease: Lease, out: Outcome, now: Time, fate: Fate): Rows {
    if fate.Rejected? then rows
    else
      var rows1 := OutboxTable.Finalize(rows, id, lease, out, now);
      if fate.Unacknowledged? || !Matches(rows, id, lease, out) || !Replays(out) then rows1
      else
        var m := out.providerMessageId;
        ReduceAll(rows1, m, Replayed(InOrder(For(events, m)), fate), now)
  }

  lemma FoldLast(r: Row, evs: seq<Event>, now: Time)
    requires RowInv(r) && r.providerMessageId.Some? && evs != []
    ensures var front, last := evs[..|evs| - 1], evs[|evs| - 1];
            && Fold(r, evs, now) == ReduceRow(Fold(r, front, now), last.typ, last.at, now)
            && Fold(r, front, now).providerMessageId == r.providerMessageId
  {
    var front, last := evs[..|evs| - 1], evs[|evs| - 1];
    assert evs == front + [last] && [last][1..] == [];
    FoldSplit(r, front, [last], now);
    var r' := ReduceRow(Fold(r, front, now), last.typ, last.at, now);
    assert Fold(r', [], now) == r';
    FoldEvidence(r, front, now);
  }

  lemma {:induction false} ReduceAllIsFold(rows: Rows, m: string, evs: seq<Event>, now: Time)
    requires TableInv(rows)
    ensures var rows' := ReduceAll(rows, m, evs, now);
            && rows'.Keys == rows.Keys && TableInv(rows')
            && (forall id :: id in rows ==>
                rows'[id] == if rows[id].providerMessageId == Some(m) then Fold(rows[id], evs, now) else rows[id])
    decreases |evs|
  {
    if evs != [] {
      var front, last := evs[..|evs| - 1], evs[|evs| - 1];
      ReduceAllIsFold(rows, m, front, now);
      ReduceKeeps(ReduceAll(rows, m, front, now), m, last.typ, last.at, now);
      forall id | id in rows && rows[id].providerMessageId == Some(m)
        ensures Fold(rows[id], evs, now) == ReduceRow(Fold(rows[id], front, now), last.typ, last.at, now)
        ensures Fold(rows[id], front, now).providerMessageId == Some(m)
      {
        assert RowInv(rows[id]);
        FoldLast(rows[id], evs, now);
      }
    }
  }

  lemma {:induction false} FoldIsHeard(r: Row, evs: seq<Event>, now: Time)
    requires RowInv(r) && r.providerMessageId.Some?
    ensures Heard(r, Fold(r, evs, now))
    decreases |evs|
  {
    if evs != [] {
      ReduceSteps(r, evs[0].typ, evs[0].at, now);
      FoldIsHeard(ReduceRow(r, evs[0].typ, evs[0].at, now), evs[1..], now);
    }
  }

  lemma ReplayIsHeard(rows: Rows, m: string, evs: seq<Event>, now: Time)
    requires TableInv(rows)
    ensures var rows' := ReduceAll(rows, m, evs, now);
            && rows'.Keys == rows.Keys
            && forall id :: id in rows ==>
                 if rows[id].providerMessageId == Some(m) then Heard(rows[id], rows'[id]) else rows'[id] == rows[id]
  {
    ReduceAllIsFold(rows, m, evs, now);
    forall id | id in rows && rows[id].providerMessageId == Some(m) ensures Heard(rows[id], Fold(rows[id], evs, now)) {
      assert RowInv(rows[id]);
      FoldIsHeard(rows[id], evs, now);
    }
  }

  lemma FinalizedSettles(rows: Rows, events: seq<Event>, id: Id, lease: Lease, out: Outcome, now: Time, fate: Fate)
    requires TableInv(rows) && !fate.Rejected?
    ensures Settles(rows, id, lease, out, now, !fate.Unacknowledged?,
                    Finalized(rows, events, id, lease, out, now, fate))
  {
    FinalizeRecords(rows, id, lease, out, now);
    FinalizeKeeps(rows, id, lease, out, now);
    if !fate.Unacknowledged? && Matches(rows, id, lease, out) && Replays(out) {
      var m := out.providerMessageId;
      ReplayIsHeard(OutboxTable.Finalize(rows, id, lease, out, now), m, Replayed(InOrder(For(events, m)), fate), now);
    }
  }

  class Outbox {
    var rows: Rows
    var events: seq<Event>
    const keyring: K.Keyring

    ghost predicate Valid()
      reads this
    {
      TableInv(rows)
    }

    constructor (keyring: K.Keyring)
      ensures Valid() && rows == map[] && events == [] && this.keyring == keyring
    {
      this.keyring := keyring;
      rows, events := map[], [];
    }

    /** Cancels what the new mail supersedes, then inserts it encrypted; `id` and `nonce` are fresh. */
    method QueueTx(id: Id, nonce: string, input: QueueInput, now: Time) returns (r: Result<(), K.KeyringError>)
      requires Valid() && id !in rows
      modifies this`rows
      ensures Valid()
      ensures r.Err? <==> keyring.activeId !in keyring.aeads
      ensures r.Err? ==> rows == old(rows)
      ensures r.Ok? ==> rows == Queue(old(rows), id, input,
                          K.Encrypt(keyring, nonce, input.body, PayloadAad(id, input.provider, input.purpose)).value,
                              now)
      ensures r.Ok? ==> Enqueues(old(rows), id, input, now, rows)
      ensures r.Ok? && |nonce| == K.NONCE_SIZE ==> OpenBody(id, rows[id], keyring) == Ok(input.body)
    {
      var sealed := K.Encrypt(keyring, nonce, input.body, PayloadAad(id, input.provider, input.purpose));
      if sealed.Err? {
        return Err(sealed.error);
      }
      QueueKeeps(rows, id, input, sealed.value, now);
      QueueEnqueues(rows, id, input, sealed.value, now);
      rows := CancelPending(rows, input.userId, input.purpose, now);
      rows := rows[id := NewRow(input, sealed.value, now)];
      return Ok(());
    }

    method RetireIds(ids: seq<Id>, status: Status, reason: Code, now: Time)
      modifies this`rows
      ensures rows == Retire(old(rows), ids, status, reason, now)
      ensures RetiresAll(old(rows), ids, status, reason, now, rows)
    {
      RetireRetiresAll(rows, ids, status, reason, now);
      if |ids| == 0 {
        assert rows == Retire(rows, ids, status, reason, now);
        return;
      }
      rows := map id | id in rows :: if id in ids then RetireRow(rows[id], status, reason, now) else rows[id];
    }

    /** The classification loop. */
    method Classify(cands: seq<Id>, tokens: T.Tokens, dbNow: Time, appNow: Time)
      returns (expired: seq<Id>, exhausted: seq<Id>, dead: seq<Id>, leasable: seq<Id>, leasableBy: map<Id, Row>)
      requires forall id :: id in cands ==> id in rows
      ensures Sorted(rows, cands, tokens, dbNow, appNow, WindowElapsed, expired)
      ensures Sorted(rows, cands, tokens, dbNow, appNow, Exhausted, exhausted)
      ensures Sorted(rows, cands, tokens, dbNow, appNow, Dead, dead)
      ensures Sorted(rows, cands, tokens, dbNow, appNow, Leasable, leasable)
      ensures leasable == LeasedIds(rows, cands, tokens, dbNow, appNow)
      ensures forall id :: id in leasable ==> id in leasableBy && leasableBy[id] == rows[id]
    {
      expired, exhausted, dead, leasable, leasableBy := [], [], [], [], map[];
      var i := 0;
      while i < |cands|
        invariant 0 <= i <= |cands|
        invariant forall x :: x in cands[..i] ==> x in rows
        invariant Sorted(rows, cands[..i], tokens, dbNow, appNow, WindowElapsed, expired)
        invariant Sorted(rows, cands[..i], tokens, dbNow, appNow, Exhausted, exhausted)
        invariant Sorted(rows, cands[..i], tokens, dbNow, appNow, Dead, dead)
        invariant Sorted(rows, cands[..i], tokens, dbNow, appNow, Leasable, leasable)
        invariant leasable == LeasedIds(rows, cands[..i], tokens, dbNow, appNow)
        invariant forall id :: id in leasable ==> id in leasableBy && leasableBy[id] == rows[id]
      {
        var id := cands[i];
        var c := rows[id];
        LeasedIdsAppend(rows, cands[..i], id, tokens, dbNow, appNow);
        assert cands[..i + 1] == cands[..i] + [id];
        if c.sendBefore <= appNow {
          expired := expired + [id];
        } else if c.attempts >= MAX_ATTEMPTS {
          exhausted := exhausted + [id];
        } else if c.tokenId.Some? && !T.LiveIn(tokens, c.tokenId, dbNow) {
          dead := dead + [id];
        } else {
          leasable := leasable + [id];
          leasableBy := leasableBy[id := c];
        }
        i := i + 1;
      }
      assert cands[..i] == cands;
    }

    /** The claim transaction: classify the selected candidates, retire the hopeless ones, lease the rest. */
    method ClaimTx(ghost provider: string, ghost limit: nat, ghost locked: set<Id>, cands: seq<Id>, tokens: T.Tokens,
                   leases: map<Id, Lease>, dbNow: Time, appNow: Time)
      returns (leasable: seq<Id>, leasableBy: map<Id, Row>)
      requires Valid() && Selected(rows, provider, limit, locked, dbNow, cands)
      requires forall id :: id in cands ==> id in leases
      modifies this`rows
      ensures Valid()
      ensures rows == Claim(old(rows), cands, tokens, leases, dbNow, appNow)
      ensures ClaimsAll(old(rows), cands, tokens, leases, dbNow, appNow, rows)
      ensures forall id :: id in leasable <==> id in cands && CanSend(old(rows)[id], tokens, dbNow, appNow)
      ensures leasable == LeasedIds(old(rows), cands, tokens, dbNow, appNow)
      ensures forall id :: id in leasable ==> id in old(rows) && id in leasableBy && leasableBy[id] == old(rows)[id]
    {
      ghost var was := rows;
      var expired, exhausted, dead;
      expired, exhausted, dead, leasable, leasableBy := Classify(cands, tokens, dbNow, appNow);
      ClaimInStatements(was, cands, tokens, leases, dbNow, appNow, expired, exhausted, dead, leasable);
      RetireAndLease(expired, exhausted, dead, leasable, leases, dbNow);
      ClaimKeeps(was, cands, tokens, leases, dbNow, appNow);
    }

    /** Its writes. */
    method RetireAndLease(expired: seq<Id>, exhausted: seq<Id>, dead: seq<Id>, leasable: seq<Id>,
                          leases: map<Id, Lease>, now: Time)
      requires forall id :: id in leasable ==> id in leases
      modifies this`rows
      ensures rows == TakeLeases(Retire(Retire(Retire(old(rows), expired, Expired, SendWindowElapsed, now), exhausted,
                                               Failed, AttemptsExhausted, now), dead, Canceled, TokenInactive, now),
                                 leasable, leases, now)
    {
      RetireIds(expired, Expired, SendWindowElapsed, now);
      RetireIds(exhausted, Failed, AttemptsExhausted, now);
      RetireIds(dead, Canceled, TokenInactive, now);
      LeaseIds(leasable, leases, now);
    }

    method LeaseIds(ids: seq<Id>, leases: map<Id, Lease>, now: Time)
      requires forall id :: id in ids ==> id in leases
      modifies this`rows
      ensures rows == TakeLeases(old(rows), ids, leases, now)
    {
      if |ids| > 0 {
        rows := map id | id in rows :: if id in ids then LeaseRow(rows[id], leases[id], now) else rows[id];
      } else {
        assert rows == TakeLeases(rows, ids, leases, now);
      }
    }

    /** ClaimTx, then decryption outside the transaction: what opens is handed out, what does not is failed for good,
        unless that update fails too and leaves the row leased. */
    method ClaimJobs(ghost provider: string, ghost limit: nat, ghost locked: set<Id>, cands: seq<Id>, tokens: T.Tokens,
                     leases: map<Id, Lease>, dbNow: Time, appNow: Time, now: Time, stuck: set<Id>)
      returns (out: seq<Job>)
      requires Valid() && Selected(rows, provider, limit, locked, dbNow, cands)
      requires forall id :: id in cands ==> id in leases
      modifies this`rows
      ensures Valid()
      ensures var ids := LeasedIds(old(rows), cands, tokens, dbNow, appNow);
              && Openable(old(rows), ids, leases)
              && out == Sift(old(rows), ids, leases, keyring, dbNow, true)
              && rows == FailAll(Claim(old(rows), cands, tokens, leases, dbNow, appNow),
                                 Sift(old(rows), ids, leases, keyring, dbNow, false), stuck, now)
      ensures ClaimsReadable(old(rows), cands, tokens, leases, dbNow, appNow, keyring, now, stuck, rows)
      ensures HandsOut(old(rows), cands, tokens, leases, dbNow, appNow, keyring, out)
      ensures forall j :: j in out ==> j.provider == provider && DueAt(old(rows)[j.id], dbNow)
    {
      ghost var was := rows;
      var leasable, leasableBy := ClaimTx(provider, limit, locked, cands, tokens, leases, dbNow, appNow);
      LeasedAreLeasable(was, cands, tokens, dbNow, appNow);
      SiftHandsOut(was, cands, tokens, leases, dbNow, appNow, keyring);
      ClaimIsReadable(was, cands, tokens, leases, dbNow, appNow, keyring, now, stuck);
      out := OpenAll(was, leasable, leasableBy, leases, dbNow, now, stuck);
    }

    /** The decryption loop over the rows as they were when claimed. */
    method OpenAll(ghost was: Rows, leasable: seq<Id>, leasableBy: map<Id, Row>, leases: map<Id, Lease>, dbNow: Time,
        now: Time, stuck: set<Id>)
      returns (out: seq<Job>)
      requires Valid() && Openable(was, leasable, leases)
      requires forall id :: id in leasable ==> id in leasableBy && leasableBy[id] == was[id]
      modifies this`rows
      ensures Valid()
      ensures out == Sift(was, leasable, leases, keyring, dbNow, true)
      ensures rows == FailAll(old(rows), Sift(was, leasable, leases, keyring, dbNow, false), stuck, now)
    {
      ghost var claimed := rows;
      out := [];
      ghost var doomed: seq<Job> := [];
      var i := 0;
      while i < |leasable|
        invariant 0 <= i <= |leasable| && Valid()
        invariant out == Sift(was, leasable[..i], leases, keyring, dbNow, true)
        invariant doomed == Sift(was, leasable[..i], leases, keyring, dbNow, false)
        invariant rows == FailAll(claimed, doomed, stuck, now)
      {
        var id := leasable[i];
        var c := leasableBy[id];
        assert leasable[..i + 1] == leasable[..i] + [id];
        SiftAppend(was, leasable[..i], id, leases, keyring, dbNow, true);
        SiftAppend(was, leasable[..i], id, leases, keyring, dbNow, false);
        var body := K.Decrypt(keyring, c.keyId, c.nonce.value, c.ciphertext.value,
            PayloadAad(id, c.provider, c.purpose));
        if body.Err? {
          var fate := if id in stuck then Rejected else Fine;
          var _ := this.Finalize(id, leases[id], OutcomeFailed(DecryptFailed), now, fate);
          FailAllAppend(claimed, doomed, Opened(id, c, leases[id], keyring, dbNow), stuck, now);
          doomed := doomed + [Opened(id, c, leases[id], keyring, dbNow)];
        } else {
          out := out + [JobOf(id, c, leases[id], dbNow, body.value)];
        }
        i := i + 1;
      }
      assert leasable[..i] == leasable;
    }

    /** Records an attempt's outcome under its lease. An acceptance also replays, in order of occurrence, the events
        that arrived before the message id was known, and so, unless the replay breaks off, leaves the row right. */
    method Finalize(id: Id, lease: Lease, out: Outcome, now: Time, fate: Fate) returns (res: FinalizeResult)
      requires Valid()
      modifies this`rows
      ensures Valid()
      ensures rows == Finalized(old(rows), events, id, lease, out, now, fate)
      ensures if fate.Rejected? then rows == old(rows)
              else Settles(old(rows), id, lease, out, now, !fate.Unacknowledged?, rows)
      ensures res.LeaseLost? <==> (fate.Fine? || fate.ReplayStops?) && !Matches(old(rows), id, lease, out)
      ensures res.LeaseLost? ==> rows == old(rows)
      ensures res.Recorded? <==> (fate.Fine? || fate.ReplayStops?) && Matches(old(rows), id, lease, out)
                                 && (Replays(out) ==> !Stops(InOrder(For(events, out.providerMessageId)), fate))
      ensures res.Recorded? && Replays(out) ==>
                && id in rows && rows[id].providerMessageId == Some(out.providerMessageId)
                && Right(rows[id], For(events, out.providerMessageId))
    {
      if fate.Rejected? {
        return Broken;
      }
      FinalizeKeeps(rows, id, lease, out, now);
      FinalizedSettles(rows, events, id, lease, out, now, fate);
      var affected := id in rows && rows[id].leaseToken == Some(lease)
          && (out.OutcomeRetry? ==> rows[id].status.Pending?);
      if affected {
        rows := rows[id := FinalizeRow(rows[id], out, now)];
      }
      if fate.Unacknowledged? {
        return Broken;
      }
      if !affected {
        return LeaseLost;
      }
      if out.OutcomeAccepted? && out.providerMessageId != "" {
        ghost var rows1 := rows;
        var ok := ReconcileEvents(out.providerMessageId, now, fate);
        if !ok {
          return Broken;
        }
        AcceptedThenReplayed(rows1, id, out.providerMessageId, events, now);
      }
      return Recorded;
    }

    /** Reduces the stored events of a message one by one, until one fails. */
    method ReconcileEvents(m: string, now: Time, fate: Fate) returns (ok: bool)
      requires Valid()
      modifies this`rows
      ensures Valid()
      ensures rows == ReduceAll(old(rows), m, Replayed(InOrder(For(events, m)), fate), now)
      ensures ok <==> !Stops(InOrder(For(events, m)), fate)
    {
      if fate == ReplayStops(0) {
        return false;
      }
      var evs := InOrder(For(events, m));
      ghost var was := rows;
      var i := 0;
      while i < |evs|
        invariant 0 <= i <= |evs| && Valid()
        invariant Stops(evs, fate) ==> i <= fate.done
        invariant rows == ReduceAll(was, m, evs[..i], now)
      {
        if fate == ReplayStops(i) {
          return false;
        }
        assert evs[..i + 1][..i] == evs[..i];
        ReduceEvent(m, evs[i].typ, evs[i].at, now);
        i := i + 1;
      }
      assert evs[..i] == evs;
      return true;
    }

    /** One update per kind of event. It takes the join with what the rows of the message show, and touches no other
        row. */
    method ReduceEvent(m: string, typ: EventType, at: Time, now: Time)
      requires Valid()
      modifies this`rows
      ensures Valid()
      ensures rows == Reduce(old(rows), m, typ, at, now)
      ensures rows.Keys == old(rows).Keys
      ensures forall id :: id in rows ==>
                if old(rows)[id].providerMessageId == Some(m) then Hears(old(rows)[id], rows[id], typ, at, now)
                else rows[id] == old(rows)[id]
      ensures forall id :: id in rows && old(rows)[id].providerMessageId == Some(m) ==>
              Joins(old(rows)[id], typ, rows[id])
    {
      ReduceKeeps(rows, m, typ, at, now);
      ReduceJoins(rows, m, typ, at, now);
      ReduceHears(rows, m, typ, at, now);
      match typ {
        case EventDelivered => MarkDelivered(m, at, now);
        case EventSent => MarkSent(m, at, now);
        case EventDelayed => MarkDelayed(m, at, now);
        case EventOther(_) => assert rows == Reduce(rows, m, typ, at, now);
        case _ => MarkFailed(m, typ, at, now);
      }
    }

    method MarkDelivered(m: string, at: Time, now: Time)
      modifies this`rows
      ensures rows == Reduce(old(rows), m, EventDelivered, at, now)
    {
      rows := map id | id in rows ::
        if rows[id].providerMessageId == Some(m) then
          rows[id].(deliveredAt := Coalesce(rows[id].deliveredAt, at),
                    status := if rows[id].status.Pending? || rows[id].status.Accepted? then Delivered
                              else rows[id].status,
                    nonce := None, ciphertext := None, updatedAt := now)
        else rows[id];
    }

    method MarkSent(m: string, at: Time, now: Time)
      modifies this`rows
      ensures rows == Reduce(old(rows), m, EventSent, at, now)
    {
      rows := map id | id in rows ::
        if rows[id].providerMessageId == Some(m) && rows[id].status.Pending? then
          rows[id].(status := Accepted, acceptedAt := Coalesce(rows[id].acceptedAt, at), updatedAt := now)
        else rows[id];
    }

    method MarkDelayed(m: string, at: Time, now: Time)
      modifies this`rows
      ensures rows == Reduce(old(rows), m, EventDelayed, at, now)
    {
      rows := map id | id in rows ::
        if rows[id].providerMessageId == Some(m) && (rows[id].status.Pending? || rows[id].status.Accepted?) then
          rows[id].(lastError := Some(Provider(EventDelayed)), updatedAt := now)
        else rows[id];
    }

    method MarkFailed(m: string, typ: EventType, at: Time, now: Time)
      requires Bad(typ)
      modifies this`rows
      ensures rows == Reduce(old(rows), m, typ, at, now)
    {
      rows := map id | id in rows ::
        if rows[id].providerMessageId == Some(m) then
          rows[id].(status := Failed, failedAt := Coalesce(rows[id].failedAt, at), lastError := Some(Provider(typ)),
                    nonce := None, ciphertext := None, updatedAt := now)
        else rows[id];
    }

    /** Stores a verified event once per svix id, then folds it into its row; a failure in between leaves it stored and
        unreduced. */
    method RecordProviderEvent(svixId: string, m: string, typ: EventType, at: Time, now: Time, fate: RecordFate)
      returns (applied: bool, ok: bool)
      requires Valid()
      modifies this
      ensures Valid()
      ensures var isNew := forall i :: 0 <= i < |old(events)| ==> old(events)[i].svixId != svixId;
              && events == (if isNew && !fate.NotInserted? then old(events) + [Event(svixId, m, typ, at, now)]
                            else old(events))
              && rows == (if isNew && fate.Complete? then Reduce(old(rows), m, typ, at, now) else old(rows))
              && (applied <==> isNew && (fate.Complete? || fate.NotReduced?))
              && (ok <==> fate.Complete? || (fate.NotReduced? && (!isNew || typ.EventOther?)))
    {
      if fate.NotInserted? {
        return false, false;
      }
      var conflict := exists i :: 0 <= i < |events| && events[i].svixId == svixId;
      if !conflict {
        events := events + [Event(svixId, m, typ, at, now)];
      }
      if fate.InsertUnacknowledged? {
        return false, false;
      }
      if conflict {
        return false, true;
      }
      if fate.NotReduced? {
        return true, typ.EventOther?;
      }
      ReduceEvent(m, typ, at, now);
      return true, true;
    }

    /** Deletes finished jobs and stranded ones, then events, past the retention; `deletes` of the two statements
        succeed. What can still be sent stays, and so does the replay guard of every event inside the retention. */
    method PurgeFinished(olderThan: Duration, now: Time, deletes: nat) returns (removed: int, ok: bool)
      requires Valid()
      modifies this
      ensures Valid() && (ok <==> deletes >= 2)
      ensures rows == if deletes >= 1 then Purge(old(rows), now - olderThan) else old(rows)
      ensures events == if deletes >= 2 then Unexpired(old(events), now - olderThan) else old(events)
      ensures removed == |old(rows)| - |rows| + |old(events)| - |events|
      ensures deletes >= 1 ==> Keeps(old(rows), rows, now - olderThan)
      ensures deletes >= 2 ==> forall e :: e in events <==> e in old(events) && e.receivedAt >= now - olderThan
      ensures SparesJobs(old(rows), rows, now - olderThan) && SparesGuards(old(events), events, now - olderThan)
    {
      if deletes == 0 {
        GuardsKept(events, events, now - olderThan);
        return 0, false;
      }
      removed := DeleteRows(now - olderThan);
      if deletes == 1 {
        GuardsKept(events, events, now - olderThan);
        return removed, false;
      }
      var more := DeleteEvents(now - olderThan);
      return removed + more, true;
    }

    method DeleteRows(cutoff: Time) returns (removed: int)
      requires Valid()
      modifies this`rows
      ensures Valid()
      ensures rows == Purge(old(rows), cutoff) && removed == |old(rows)| - |rows|
      ensures Keeps(old(rows), rows, cutoff) && SparesJobs(old(rows), rows, cutoff)
    {
      PurgePromises(rows, cutoff);
      var before := |rows|;
      rows := map id | id in rows &&
                !((!rows[id].status.Pending? && rows[id].updatedAt < cutoff)
                  || (rows[id].status.Pending? && rows[id].sendBefore < cutoff)) :: rows[id];
      assert rows == Purge(old(rows), cutoff);
      removed := before - |rows|;
    }

    method DeleteEvents(cutoff: Time) returns (removed: int)
      modifies this`events
      ensures events == Unexpired(old(events), cutoff) && removed == |old(events)| - |events|
      ensures forall e :: e in events <==> e in old(events) && e.receivedAt >= cutoff
      ensures SparesGuards(old(events), events, cutoff)
    {
      ghost var was := events;
      var kept, i := [], 0;
      while i < |events|
        invariant 0 <= i <= |events| && events == was
        invariant kept == Unexpired(events[..i], cutoff)
      {
        assert events[..i + 1] == events[..i] + [events[i]];
        UnexpiredAppend(events[..i], events[i], cutoff);
        if !(events[i].receivedAt < cutoff) {
          kept := kept + [events[i]];
        }
        i := i + 1;
      }
      assert events[..i] == events;
      UnexpiredKeeps(was, cutoff);
      GuardsKept(was, kept, cutoff);
      removed := |events| - |kept|;
      events := kept;
    }
  }

  /** Jobs that can still be sent survive a purge, and so do the replay guards inside the retention. */
  ghost predicate SparesJobs(rows: Rows, rows': Rows, cutoff: Time) {
    forall id :: id in rows && rows[id].status.Pending? && rows[id].sendBefore >= cutoff ==>
      id in rows' && rows'[id] == rows[id]
  }

  ghost predicate SparesGuards(events: seq<Event>, events': seq<Event>, cutoff: Time) {
    forall e :: e in events && e.receivedAt >= cutoff ==> Duplicate(events', e.svixId)
  }

  lemma PurgePromises(rows: Rows, cutoff: Time)
    requires TableInv(rows)
    ensures var rows' := Purge(rows, cutoff);
            TableInv(rows') && Keeps(rows, rows', cutoff) && SparesJobs(rows, rows', cutoff)
  {
    PurgeKeeps(rows, cutoff);
    PurgeIsKeeps(rows, cutoff);
  }

  lemma GuardsKept(was: seq<Event>, evs: seq<Event>, cutoff: Time)
    requires forall e :: e in was && e.receivedAt >= cutoff ==> e in evs
    ensures SparesGuards(was, evs, cutoff)
  {
    forall e | e in was && e.receivedAt >= cutoff ensures Duplicate(evs, e.svixId) {
      var i :| 0 <= i < |evs| && evs[i] == e;
    }
  }

  /** What one event adds to a row: the higher of the two ranks, and a delivery stamp. */
  predicate Joins(r: Row, typ: EventType, r': Row) {
    && Rank(r'.status) == Max(Rank(r.status), EventRank(typ))
    && (r'.deliveredAt.Some? <==> r.deliveredAt.Some? || typ.EventDelivered?)
    && r'.providerMessageId == r.providerMessageId
  }

  lemma ReduceJoins(rows: Rows, m: string, typ: EventType, at: Time, now: Time)
    requires TableInv(rows)
    ensures forall id :: id in rows && rows[id].providerMessageId == Some(m) ==>
            Joins(rows[id], typ, Reduce(rows, m, typ, at, now)[id])
  {
    forall id | id in rows && rows[id].providerMessageId == Some(m)
      ensures Joins(rows[id], typ, Reduce(rows, m, typ, at, now)[id])
    {
      assert RowInv(rows[id]);
    }
  }

  lemma AcceptedThenReplayed(rows: Rows, id: Id, m: string, events: seq<Event>, now: Time)
    requires TableInv(rows) && id in rows && rows[id].providerMessageId == Some(m) && rows[id].status.Accepted?
    ensures var rows' := ReduceAll(rows, m, InOrder(For(events, m)), now);
            id in rows' && rows'[id].providerMessageId == Some(m) && Right(rows'[id], For(events, m))
  {
    var evs := For(events, m);
    assert RowInv(rows[id]);
    ReduceAllIsFold(rows, m, InOrder(evs), now);
    FoldEvidence(rows[id], InOrder(evs), now);
    FoldIsJoin(rows[id], InOrder(evs), now);
    InOrderIs(evs);
    assert Join(InOrder(evs)) == Join(evs);
  }
}
