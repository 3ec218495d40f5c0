/** The email_events table: which events it holds for a message, its replay guard and its purge. */
module EventTable {
  import opened Base
  import opened EventFold

  predicate Duplicate(table: seq<Event>, svixId: string) {
    exists i :: 0 <= i < |table| && table[i].svixId == svixId
  }

  /** The events recorded for one message. */
  function For(recorded: seq<Event>, m: string): seq<Event> {
    if recorded == [] then []
    else (if recorded[0].messageId == m then [recorded[0]] else []) + For(recorded[1..], m)
  }

  lemma {:induction false} ForIs(recorded: seq<Event>, m: string)
    ensures forall e :: e in For(recorded, m) <==> e in recorded && e.messageId == m
  {
    if recorded != [] {
      ForIs(recorded[1..], m);
      assert forall e :: e in recorded <==> e == recorded[0] || e in recorded[1..];
    }
  }

  function Unexpired(table: seq<Event>, cutoff: Time): seq<Event> {
    if table == [] then []
    else (if table[0].receivedAt < cutoff then [] else [table[0]]) + Unexpired(table[1..], cutoff)
  }

  lemma {:induction false} UnexpiredKeeps(table: seq<Event>, cutoff: Time)
    ensures forall e :: e in Unexpired(table, cutoff) <==> e in table && e.receivedAt >= cutoff
  {
    if table != [] {
      UnexpiredKeeps(table[1..], cutoff);
      assert forall e :: e in table <==> e == table[0] || e in table[1..];
    }
  }

  lemma UnexpiredHead(e: Event, evs: seq<Event>, cutoff: Time)
    ensures Unexpired([e] + evs, cutoff) == (if e.receivedAt < cutoff then [] else [e]) + Unexpired(evs, cutoff)
  {
    assert ([e] + evs)[1..] == evs;
  }

  lemma {:induction false} UnexpiredAppend(evs: seq<Event>, e: Event, cutoff: Time)
    ensures Unexpired(evs + [e], cutoff) == Unexpired(evs, cutoff) + (if e.receivedAt < cutoff then [] else [e])
    decreases |evs|
  {
    if evs == [] {
      UnexpiredHead(e, [], cutoff);
      assert evs + [e] == [e] + [];
    } else {
      assert evs + [e] == [evs[0]] + (evs[1..] + [e]);
      UnexpiredHead(evs[0], evs[1..] + [e], cutoff);
      UnexpiredAppend(evs[1..], e, cutoff);
    }
  }
}
