/** The provider-event reducer as a fold: what a row ends up as, whatever the order and
    however often its events arrive. */
module EventFold {
  import opened Base
  import opened OutboxTable

  datatype Event = Event(svixId: string, messageId: string, typ: EventType, at: Time, receivedAt: Time)

  /** Applying a list of events to the row they belong to. */
  function Fold(r: Row, evs: seq<Event>, now: Time): Row
    decreases |evs|
  {
    if evs == [] then r else Fold(ReduceRow(r, evs[0].typ, evs[0].at, now), evs[1..], now)
  }

  predicate Bad(typ: EventType) {
    typ.EventBounced? || typ.EventComplained? || typ.EventFailed? || typ.EventSuppressed?
  }

  ghost predicate HasBad(evs: seq<Event>) {
    exists e :: e in evs && Bad(e.typ)
  }

  ghost predicate HasDelivered(evs: seq<Event>) {
    exists e :: e in evs && e.typ.EventDelivered?
  }

  /** The join of the events: a complaint hides a delivery, a delivery hides an acceptance. */
  ghost function Join(evs: seq<Event>): Status {
    if HasBad(evs) then Failed else if HasDelivered(evs) then Delivered else Accepted
  }

  /** Rows the provider has accepted: the only ones an event can reach. */
  predicate Known(r: Row) {
    RowInv(r) && r.providerMessageId.Some?
  }

  /** When the first event of a kind occurred, in the order of the list. */
  function FirstDelivered(evs: seq<Event>): Option<Time> {
    if evs == [] then None
    else if evs[0].typ.EventDelivered? then Some(evs[0].at)
    else FirstDelivered(evs[1..])
  }

  function FirstBad(evs: seq<Event>): Option<Time> {
    if evs == [] then None else if Bad(evs[0].typ) then Some(evs[0].at) else FirstBad(evs[1..])
  }

  function OrElse<T>(a: Option<T>, b: Option<T>): Option<T> {
    if a.Some? then a else b
  }

  /** From any row the provider knows: evidence is the earliest stamp seen, failure is final,
      and delivery promotes only an accepted row. */
  lemma {:induction false} FoldEvidence(r: Row, evs: seq<Event>, now: Time)
    requires Known(r)
    ensures var f := Fold(r, evs, now);
            && Known(f) && f.providerMessageId == r.providerMessageId
            && f.deliveredAt == OrElse(r.deliveredAt, FirstDelivered(evs))
            && f.failedAt == OrElse(r.failedAt, FirstBad(evs))
            && f.status == (if f.failedAt.Some? then Failed else if f.deliveredAt.Some? then Delivered else Accepted)
    decreases |evs|
  {
    if evs != [] {
      FoldEvidence(ReduceRow(r, evs[0].typ, evs[0].at, now), evs[1..], now);
    }
  }

  lemma {:induction false} FirstPresent(evs: seq<Event>)
    ensures FirstDelivered(evs).Some? <==> HasDelivered(evs)
    ensures FirstBad(evs).Some? <==> HasBad(evs)
  {
    if evs != [] {
      FirstPresent(evs[1..]);
      assert forall e :: e in evs <==> e == evs[0] || e in evs[1..];
    }
  }

  /** Folding any events into a freshly accepted row gives exactly their join, with delivery and failure stamped iff
      such an event occurred. */
  lemma FoldIsJoin(r: Row, evs: seq<Event>, now: Time)
    requires Known(r) && r.status.Accepted?
    ensures var f := Fold(r, evs, now);
            && f.status == Join(evs)
            && (f.deliveredAt.Some? <==> HasDelivered(evs))
            && (f.failedAt.Some? <==> HasBad(evs))
  {
    FoldEvidence(r, evs, now);
    FirstPresent(evs);
  }

  ghost function Kinds(evs: seq<Event>): set<EventType> {
    set e | e in evs :: e.typ
  }

  /** Order and repetition do not matter: two histories with the same kinds of events leave the same
      status and the same evidence. A permutation or a replay is a special case. */
  lemma FoldOrderFree(r: Row, a: seq<Event>, b: seq<Event>, now: Time)
    requires Known(r) && r.status.Accepted?
    requires Kinds(a) == Kinds(b)
    ensures var f, g := Fold(r, a, now), Fold(r, b, now);
            f.status == g.status && (f.deliveredAt.Some? <==> g.deliveredAt.Some?)
                && (f.failedAt.Some? <==> g.failedAt.Some?)
  {
    FoldIsJoin(r, a, now);
    FoldIsJoin(r, b, now);
    KindsDecide(a);
    KindsDecide(b);
  }

  lemma KindsDecide(evs: seq<Event>)
    ensures HasBad(evs) <==> exists t :: t in Kinds(evs) && Bad(t)
    ensures HasDelivered(evs) <==> EventDelivered in Kinds(evs)
  {
    assert forall e :: e in evs ==> e.typ in Kinds(evs);
  }

  lemma {:induction false} FoldSplit(r: Row, a: seq<Event>, b: seq<Event>, now: Time)
    ensures Fold(r, a + b, now) == Fold(Fold(r, a, now), b, now)
    decreases |a|
  {
    if a == [] {
      assert a + b == b;
    } else {
      assert (a + b)[0] == a[0] && (a + b)[1..] == a[1..] + b;
      FoldSplit(ReduceRow(r, a[0].typ, a[0].at, now), a[1..], b, now);
    }
  }

  /** Replaying events a row has already absorbed moves neither status nor evidence, from any starting row. */
  lemma ReplayIsIdle(r: Row, evs: seq<Event>, now: Time)
    requires Known(r)
    ensures var once, twice := Fold(r, evs, now), Fold(r, evs + evs, now);
            twice.status == once.status && twice.deliveredAt == once.deliveredAt && twice.failedAt == once.failedAt
  {
    FoldSplit(r, evs, evs, now);
    FoldEvidence(r, evs, now);
    FoldEvidence(Fold(r, evs, now), evs, now);
  }

  /** last_error is the exception: it reports the event that came last. */
  lemma LastErrorDependsOnOrder(r: Row, now: Time)
    requires Known(r) && r.status.Accepted?
    ensures var b, c := Event("1", r.providerMessageId.value, EventBounced, 1, 1),
            Event("2", r.providerMessageId.value, EventComplained, 2, 2);
            Fold(r, [b, c], now).lastError != Fold(r, [c, b], now).lastError
  {
    var b, c := Event("1", r.providerMessageId.value, EventBounced, 1, 1),
        Event("2", r.providerMessageId.value, EventComplained, 2, 2);
    assert [b, c][1..] == [c] && [c, b][1..] == [b];
    assert Fold(r, [b, c], now) == Fold(ReduceRow(r, EventBounced, 1, now), [c], now);
    assert Fold(r, [c, b], now) == Fold(ReduceRow(r, EventComplained, 2, now), [b], now);
  }

  // ---- what a row shows ------------------------------------------------------------------

  function Rank(st: Status): nat {
    if st.Failed? then 2 else if st.Delivered? then 1 else 0
  }

  function EventRank(typ: EventType): nat {
    if Bad(typ) then 2 else if typ.EventDelivered? then 1 else 0
  }

  /** The row already shows at least what this event says. */
  predicate Absorbed(r: Row, e: Event) {
    EventRank(e.typ) <= Rank(r.status) && (e.typ.EventDelivered? ==> r.deliveredAt.Some?)
  }

  /** The row shows exactly what was recorded for its message: the join as its status, and a delivery stamp exactly when
      a delivery was recorded. */
  ghost predicate Right(r: Row, evs: seq<Event>) {
    r.status == Join(evs) && (r.deliveredAt.Some? <==> HasDelivered(evs))
  }
}
