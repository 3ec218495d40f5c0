/** Purging stale buckets: when callers cannot tell. */
module BucketPurge {
  import opened Base
  import opened RateLimit

  datatype Op = Call(key: string, at: real) | PurgeStale(at: real)

  /** What the callers see, in order. */
  function Answers(buckets: Buckets, rules: string -> Rule, olderThan: real, ops: seq<Op>): seq<Answer>
    requires forall key :: Sound(rules(key))
    decreases |ops|
  {
    if ops == [] then []
    else match ops[0]
      case Call(key, at) =>
        [Reply(At(buckets, key), rules(key), at)]
        + Answers(buckets[key := Spend(At(buckets, key), rules(key), at)], rules, olderThan, ops[1..])
      case PurgeStale(at) => Answers(Purge(buckets, at - olderThan), rules, olderThan, ops[1..])
  }

  function Calls(ops: seq<Op>): seq<Op> {
    if ops == [] then [] else (if ops[0].Call? then [ops[0]] else []) + Calls(ops[1..])
  }

  predicate InTime(ops: seq<Op>, from: real) {
    ops == [] || (from <= ops[0].at && InTime(ops[1..], ops[0].at))
  }

  /** Every caller gets the answers it would get with no purge at all, whenever purges run. */
  ghost predicate Invisible(rules: string -> Rule, olderThan: real)
    requires forall key :: Sound(rules(key))
  {
    forall ops: seq<Op>, from: real :: InTime(ops, from) ==>
      Answers(map[], rules, olderThan, ops) == Answers(map[], rules, olderThan, Calls(ops))
  }

  /** A bucket refills within the purge age, or never admits anything. */
  predicate Refills(rule: Rule, olderThan: real) {
    rule.capacity < 1.0 || rule.capacity <= Accrued(olderThan, rule.refillPerSec)
  }

  // ---- it is invisible ------------------------------------------------------------------

  /** A bucket in use; one that holds less than a token never loses any. */
  predicate InUse(b: Bucket, rule: Rule, now: real) {
    Within(Some(b), rule, now) && (rule.capacity < 1.0 ==> b.tokens == rule.capacity)
  }

  predicate Full(b: Bucket, rule: Rule, now: real) {
    Refill(Some(b), rule, now) == rule.capacity
  }

  /** The table with purges and the table without: they share every bucket the first one kept, and what it
      dropped has refilled. */
  ghost predicate Alike(purged: Buckets, full: Buckets, rules: string -> Rule, now: real) {
    && (forall key :: key in full ==> InUse(full[key], rules(key), now))
    && (forall key :: key in purged ==> key in full && purged[key] == full[key])
    && (forall key :: key in full && key !in purged ==> Full(full[key], rules(key), now))
  }

  lemma FullLater(b: Bucket, rule: Rule, now: real, later: real)
    requires Sound(rule) && InUse(b, rule, now) && now <= later
    ensures InUse(b, rule, later) && (Full(b, rule, now) ==> Full(b, rule, later))
  {
    ScaleMonotone(now - b.updatedAt, later - b.updatedAt, rule.refillPerSec);
  }

  lemma StaleIsFull(b: Bucket, rule: Rule, now: real, olderThan: real)
    requires Sound(rule) && InUse(b, rule, now) && b.updatedAt < now - olderThan && Refills(rule, olderThan)
    ensures Full(b, rule, now)
  {
    ScaleMonotone(0.0, now - b.updatedAt, rule.refillPerSec);
    ScaleMonotone(olderThan, now - b.updatedAt, rule.refillPerSec);
  }

  lemma SpendInUse(b: Option<Bucket>, rule: Rule, now: real)
    requires Sound(rule) && (b.Some? ==> InUse(b.value, rule, now))
    ensures InUse(Spend(b, rule, now), rule, now)
  {
    RefillWithin(b, rule, now);
    if b.Some? {
      ScaleMonotone(0.0, now - b.value.updatedAt, rule.refillPerSec);
    }
  }

  lemma AlikeLater(purged: Buckets, full: Buckets, rules: string -> Rule, now: real, later: real)
    requires (forall key :: Sound(rules(key))) && Alike(purged, full, rules, now) && now <= later
    ensures Alike(purged, full, rules, later)
  {
    forall key | key in full
      ensures InUse(full[key], rules(key), later) && (key !in purged ==> Full(full[key], rules(key), later))
    {
      FullLater(full[key], rules(key), now, later);
    }
  }

  lemma PurgeAlike(purged: Buckets, full: Buckets, rules: string -> Rule, now: real, olderThan: real)
    requires (forall key :: Sound(rules(key)) && Refills(rules(key), olderThan)) && Alike(purged, full, rules, now)
    ensures Alike(Purge(purged, now - olderThan), full, rules, now)
  {
    forall key | key in purged && key !in Purge(purged, now - olderThan) ensures Full(full[key], rules(key), now) {
      StaleIsFull(full[key], rules(key), now, olderThan);
    }
  }

  lemma CallAlike(purged: Buckets, full: Buckets, rules: string -> Rule, now: real, key: string)
    requires (forall k :: Sound(rules(k))) && Alike(purged, full, rules, now)
    ensures Reply(At(purged, key), rules(key), now) == Reply(At(full, key), rules(key), now)
    ensures Alike(purged[key := Spend(At(purged, key), rules(key), now)],
            full[key := Spend(At(full, key), rules(key), now)], rules, now)
  {
    SpendInUse(At(full, key), rules(key), now);
    assert Refill(At(purged, key), rules(key), now) == Refill(At(full, key), rules(key), now);
  }

  lemma {:induction false} InvisibleFrom(purged: Buckets, full: Buckets, rules: string -> Rule, olderThan: real,
      ops: seq<Op>, now: real)
    requires (forall key :: Sound(rules(key)) && Refills(rules(key), olderThan))
    requires Alike(purged, full, rules, now) && InTime(ops, now)
    ensures Answers(purged, rules, olderThan, ops) == Answers(full, rules, olderThan, Calls(ops))
    decreases |ops|
  {
    if ops != [] {
      var at := ops[0].at;
      AlikeLater(purged, full, rules, now, at);
      match ops[0]
      case Call(key, _) =>
        CallAlike(purged, full, rules, at, key);
        assert Calls(ops)[1..] == Calls(ops[1..]);
        InvisibleFrom(purged[key := Spend(At(purged, key), rules(key), at)],
            full[key := Spend(At(full, key), rules(key), at)],
                      rules, olderThan, ops[1..], at);
      case PurgeStale(_) =>
        PurgeAlike(purged, full, rules, at, olderThan);
        assert Calls(ops) == Calls(ops[1..]);
        InvisibleFrom(Purge(purged, at - olderThan), full, rules, olderThan, ops[1..], at);
    }
  }

  // ---- it is visible --------------------------------------------------------------------

  function Replies(b: Option<Bucket>, rule: Rule, calls: seq<real>): (rs: seq<Answer>)
    requires Sound(rule)
    ensures |rs| == |calls|
    decreases |calls|
  {
    if calls == [] then [] else [Reply(b, rule, calls[0])] + Replies(Some(Spend(b, rule, calls[0])), rule, calls[1..])
  }

  /** Two buckets that do not hold the same can be told apart by a burst that exhausts the poorer one. */
  lemma {:induction false} BurstTellsApart(a: Option<Bucket>, b: Option<Bucket>, rule: Rule, at: real, n: nat)
    requires Sound(rule) && 0.0 <= Refill(a, rule, at) < Refill(b, rule, at) <= rule.capacity
             && Refill(a, rule, at) < n as real
    ensures Replies(a, rule, Burst(n, at)) != Replies(b, rule, Burst(n, at))
    decreases n
  {
    var y, z := Refill(a, rule, at), Refill(b, rule, at);
    assert Burst(n, at)[1..] == Burst(n - 1, at);
    if y < 1.0 {
      DivideApart(1.0 - y, 1.0 - z, rule.refillPerSec);
      assert Replies(a, rule, Burst(n, at))[0] != Replies(b, rule, Burst(n, at))[0];
    } else {
      var a', b' := Some(Spend(a, rule, at)), Some(Spend(b, rule, at));
      RefillAtOnce(a'.value, rule);
      RefillAtOnce(b'.value, rule);
      BurstTellsApart(a', b', rule, at, n - 1);
      assert Replies(a, rule, Burst(n, at))[1..] == Replies(a', rule, Burst(n - 1, at));
      assert Replies(b, rule, Burst(n, at))[1..] == Replies(b', rule, Burst(n - 1, at));
    }
  }

  lemma RefillAtOnce(b: Bucket, rule: Rule)
    requires Sound(rule) && b.tokens <= rule.capacity
    ensures Refill(Some(b), rule, b.updatedAt) == b.tokens
  {
  }

  /** When a full bucket that spent its whole tokens at time zero has refilled to exactly one. */
  function WholeAgain(rule: Rule): real
    requires Sound(rule)
  {
    (1.0 - (rule.capacity - rule.capacity.Floor as real)) / rule.refillPerSec
  }

  function Drain(rule: Rule): seq<real>
    requires Sound(rule)
  {
    Burst(if rule.capacity.Floor > 0 then rule.capacity.Floor else 0, 0.0) + [WholeAgain(rule)]
  }

  /** So any bucket that ever admits a call can be emptied to nothing. */
  lemma Drained(rule: Rule)
    requires Sound(rule) && rule.capacity >= 1.0
    ensures WholeAgain(rule) > 0.0 && Ordered(Drain(rule))
    ensures After(None, rule, Drain(rule)) == Some(Bucket(0.0, WholeAgain(rule)))
  {
    var n, w := rule.capacity.Floor, WholeAgain(rule);
    var left := rule.capacity - n as real;
    PositiveQuotient(1.0 - left, rule.refillPerSec);
    AfterBurst(rule, n, n);
    AfterSplit(None, rule, Burst(n, 0.0), w);
    DivideBack(1.0 - left, rule.refillPerSec);
  }

  lemma PositiveQuotient(x: real, r: real)
    requires x > 0.0 && r > 0.0
    ensures x / r > 0.0
  {
  }

  lemma {:induction false} AfterBurst(rule: Rule, n: nat, k: nat)
    requires Sound(rule) && n as real <= rule.capacity && 1 <= k <= n
    ensures After(None, rule, Burst(k, 0.0)) == Some(Bucket(rule.capacity - k as real, 0.0))
    decreases k
  {
    assert Burst(k, 0.0) == Burst(k - 1, 0.0) + [0.0];
    AfterSplit(None, rule, Burst(k - 1, 0.0), 0.0);
    if k > 1 {
      AfterBurst(rule, n, k - 1);
      RefillAtOnce(Bucket(rule.capacity - (k - 1) as real, 0.0), rule);
    }
  }

  lemma {:induction false} AfterSplit(b: Option<Bucket>, rule: Rule, a: seq<real>, c: real)
    ensures After(b, rule, a + [c]) == Some(Spend(After(b, rule, a), rule, c))
    decreases |a|
  {
    if a == [] {
      assert [c][1..] == [];
      assert After(b, rule, [c]) == After(Some(Spend(b, rule, c)), rule, []);
    } else {
      assert (a + [c])[0] == a[0] && (a + [c])[1..] == a[1..] + [c];
      AfterSplit(Some(Spend(b, rule, a[0])), rule, a[1..], c);
    }
  }

  // Runs of calls on one key.

  function CallsAt(key: string, times: seq<real>): seq<Op> {
    if times == [] then [] else [Call(key, times[0])] + CallsAt(key, times[1..])
  }

  function TableAfter(buckets: Buckets, rules: string -> Rule, key: string, times: seq<real>): Buckets
    decreases |times|
  {
    if times == [] then buckets
    else TableAfter(buckets[key := Spend(At(buckets, key), rules(key), times[0])], rules, key, times[1..])
  }

  lemma CallsAtHead(key: string, times: seq<real>, rest: seq<Op>)
    requires times != []
    ensures CallsAt(key, times) + rest == [Call(key, times[0])] + (CallsAt(key, times[1..]) + rest)
  {
  }

  lemma AnswersOfCall(buckets: Buckets, rules: string -> Rule, olderThan: real, key: string, time: real, rest: seq<Op>)
    requires forall k :: Sound(rules(k))
    ensures Answers(buckets, rules, olderThan, [Call(key, time)] + rest) ==
            [Reply(At(buckets, key), rules(key), time)]
            + Answers(buckets[key := Spend(At(buckets, key), rules(key), time)], rules, olderThan, rest)
  {
    assert ([Call(key, time)] + rest)[1..] == rest;
  }

  lemma Associates<X>(a: seq<X>, b: seq<X>, c: seq<X>)
    ensures a + (b + c) == a + b + c
  {
  }

  lemma {:induction false} AnswersOfCalls(buckets: Buckets, rules: string -> Rule, olderThan: real, key: string,
      times: seq<real>, rest: seq<Op>)
    requires forall k :: Sound(rules(k))
    ensures Answers(buckets, rules, olderThan, CallsAt(key, times) + rest) ==
            Replies(At(buckets, key), rules(key), times)
                + Answers(TableAfter(buckets, rules, key, times), rules, olderThan, rest)
    decreases |times|
  {
    if times == [] {
      assert CallsAt(key, times) + rest == rest;
    } else {
      var first, b := Reply(At(buckets, key), rules(key), times[0]), Spend(At(buckets, key), rules(key), times[0]);
      CallsAtHead(key, times, rest);
      AnswersOfCall(buckets, rules, olderThan, key, times[0], CallsAt(key, times[1..]) + rest);
      AnswersOfCalls(buckets[key := b], rules, olderThan, key, times[1..], rest);
      assert At(buckets[key := b], key) == Some(b);
      Associates([first], Replies(Some(b), rules(key), times[1..]),
                 Answers(TableAfter(buckets, rules, key, times), rules, olderThan, rest));
    }
  }

  lemma {:induction false} TableAfterIs(buckets: Buckets, rules: string -> Rule, key: string, times: seq<real>)
    ensures At(TableAfter(buckets, rules, key, times), key) == After(At(buckets, key), rules(key), times)
    decreases |times|
  {
    if times != [] {
      TableAfterIs(buckets[key := Spend(At(buckets, key), rules(key), times[0])], rules, key, times[1..]);
    }
  }

  lemma {:induction false} CallsOfCalls(key: string, times: seq<real>, rest: seq<Op>)
    ensures Calls(CallsAt(key, times) + rest) == CallsAt(key, times) + Calls(rest)
    decreases |times|
  {
    if times == [] {
      assert CallsAt(key, times) + rest == rest;
    } else {
      CallsAtHead(key, times, rest);
      assert ([Call(key, times[0])] + (CallsAt(key, times[1..]) + rest))[1..] == CallsAt(key, times[1..]) + rest;
      CallsOfCalls(key, times[1..], rest);
    }
  }

  lemma {:induction false} CallsInTime(key: string, times: seq<real>, rest: seq<Op>, from: real, until: real)
    requires Ordered(times) && from <= until && (forall c :: c in times ==> from <= c <= until) && InTime(rest, until)
    ensures InTime(CallsAt(key, times) + rest, from)
    decreases |times|
  {
    if times == [] {
      assert CallsAt(key, times) + rest == rest;
    } else {
      CallsAtHead(key, times, rest);
      assert ([Call(key, times[0])] + (CallsAt(key, times[1..]) + rest))[1..] == CallsAt(key, times[1..]) + rest;
      forall c | c in times[1..] ensures times[0] <= c <= until {
        var i :| 0 <= i < |times| - 1 && times[1..][i] == c;
        assert times[0] <= times[i + 1] == c && c in times;
      }
      assert times[0] in times;
      CallsInTime(key, times[1..], rest, times[0], until);
    }
  }

  /** Drain a bucket, purge it before it has refilled, and exhaust what is left or what replaced it. */
  function Probe(key: string, drain: seq<real>, p: real, burst: seq<real>): seq<Op> {
    CallsAt(key, drain) + ([PurgeStale(p)] + (CallsAt(key, burst) + []))
  }

  lemma ProbeInTime(key: string, rule: Rule, p: real, n: nat)
    requires Sound(rule) && rule.capacity >= 1.0 && WholeAgain(rule) <= p
    ensures InTime(Probe(key, Drain(rule), p, Burst(n, p)), 0.0)
  {
    Drained(rule);
    CallsInTime(key, Burst(n, p), [], p, p);
    var tail := [PurgeStale(p)] + (CallsAt(key, Burst(n, p)) + []);
    assert tail[1..] == CallsAt(key, Burst(n, p)) + [];
    CallsInTime(key, Drain(rule), tail, 0.0, WholeAgain(rule));
  }

  /** With the purge the burst meets a new bucket. */
  lemma AnswersWithPurge(key: string, rules: string -> Rule, olderThan: real, drain: seq<real>, b: Bucket, p: real,
      burst: seq<real>)
    requires (forall k :: Sound(rules(k))) && After(None, rules(key), drain) == Some(b) && b.updatedAt < p - olderThan
    ensures Answers(map[], rules, olderThan, Probe(key, drain, p, burst)) ==
            Replies(None, rules(key), drain) + Replies(None, rules(key), burst)
  {
    var t, last := TableAfter(map[], rules, key, drain), CallsAt(key, burst) + [];
    AnswersOfCalls(map[], rules, olderThan, key, drain, [PurgeStale(p)] + last);
    TableAfterIs(map[], rules, key, drain);
    AnswersOfPurge(t, rules, olderThan, p, last);
    PurgedAway(t, key, b, p - olderThan);
    AnswersOfLast(Purge(t, p - olderThan), rules, olderThan, key, burst);
  }

  /** Without it the burst meets the drained one. */
  lemma AnswersWithout(key: string, rules: string -> Rule, olderThan: real, drain: seq<real>, b: Bucket, p: real,
      burst: seq<real>)
    requires (forall k :: Sound(rules(k))) && After(None, rules(key), drain) == Some(b)
    ensures Answers(map[], rules, olderThan, Calls(Probe(key, drain, p, burst))) ==
            Replies(None, rules(key), drain) + Replies(Some(b), rules(key), burst)
  {
    var t, last := TableAfter(map[], rules, key, drain), CallsAt(key, burst) + [];
    CallsOfProbe(key, drain, p, burst);
    AnswersOfCalls(map[], rules, olderThan, key, drain, last);
    TableAfterIs(map[], rules, key, drain);
    AnswersOfLast(t, rules, olderThan, key, burst);
  }

  lemma AnswersOfPurge(buckets: Buckets, rules: string -> Rule, olderThan: real, p: real, rest: seq<Op>)
    requires forall k :: Sound(rules(k))
    ensures Answers(buckets, rules, olderThan, [PurgeStale(p)] + rest) ==
            Answers(Purge(buckets, p - olderThan), rules, olderThan, rest)
  {
    assert ([PurgeStale(p)] + rest)[1..] == rest;
  }

  lemma PurgedAway(buckets: Buckets, key: string, b: Bucket, cutoff: real)
    requires At(buckets, key) == Some(b) && b.updatedAt < cutoff
    ensures At(Purge(buckets, cutoff), key) == None
  {
  }

  lemma AnswersOfLast(buckets: Buckets, rules: string -> Rule, olderThan: real, key: string, times: seq<real>)
    requires forall k :: Sound(rules(k))
    ensures Answers(buckets, rules, olderThan, CallsAt(key, times) + []) == Replies(At(buckets, key), rules(key), times)
  {
    AnswersOfCalls(buckets, rules, olderThan, key, times, []);
  }

  lemma CallsOfProbe(key: string, drain: seq<real>, p: real, burst: seq<real>)
    ensures Calls(Probe(key, drain, p, burst)) == CallsAt(key, drain) + (CallsAt(key, burst) + [])
  {
    var last := CallsAt(key, burst) + [];
    var tail := [PurgeStale(p)] + last;
    CallsOfCalls(key, drain, tail);
    assert tail[1..] == last && Calls(tail) == Calls(last);
    CallsOfCalls(key, burst, []);
  }

  /** How long to wait for a bucket that is stale and not yet full. */
  function Pause(rule: Rule, olderThan: real): real
    requires Sound(rule)
  {
    if olderThan < 0.0 then 0.0 else (olderThan + rule.capacity / rule.refillPerSec) / 2.0
  }

  lemma PauseFits(rule: Rule, olderThan: real)
    requires Sound(rule) && rule.capacity >= 1.0 && Accrued(olderThan, rule.refillPerSec) < rule.capacity
    ensures olderThan < Pause(rule, olderThan) && 0.0 <= Pause(rule, olderThan)
    ensures 0.0 <= Accrued(Pause(rule, olderThan), rule.refillPerSec) < rule.capacity
  {
    var r, refill, pause := rule.refillPerSec, rule.capacity / rule.refillPerSec, Pause(rule, olderThan);
    DivideBack(rule.capacity, r);
    if olderThan >= refill {
      ScaleMonotone(refill, olderThan, r);
    }
    if olderThan >= 0.0 {
      ScaleMonotone(0.0, pause, r);
      ScaleMonotone(pause, refill, r);
    }
  }

  lemma EarlyPurgeShows(key: string, rules: string -> Rule, olderThan: real)
    requires (forall k :: Sound(rules(k))) && !Refills(rules(key), olderThan)
    ensures !Invisible(rules, olderThan)
  {
    var rule := rules(key);
    var b, n := Bucket(0.0, WholeAgain(rule)), rule.capacity.Floor + 1;
    var p := b.updatedAt + Pause(rule, olderThan);
    PauseFits(rule, olderThan);
    Drained(rule);
    ProbeInTime(key, rule, p, n);
    AnswersWithPurge(key, rules, olderThan, Drain(rule), b, p, Burst(n, p));
    AnswersWithout(key, rules, olderThan, Drain(rule), b, p, Burst(n, p));
    BurstTellsApart(Some(b), None, rule, p, n);
    TailsDiffer(Replies(None, rule, Drain(rule)), Replies(None, rule, Burst(n, p)),
        Replies(Some(b), rule, Burst(n, p)));
  }

  lemma TailsDiffer<X>(a: seq<X>, b: seq<X>, c: seq<X>)
    requires b != c
    ensures a + b != a + c
  {
    assert (a + b)[|a|..] == b && (a + c)[|a|..] == c;
  }

  // ---- exactly when ---------------------------------------------------------------------

  /** Purging is invisible exactly when every bucket that ever admits a call refills within the purge age. */
  lemma PurgeIsInvisibleIff(rules: string -> Rule, olderThan: real)
    requires forall key :: Sound(rules(key))
    ensures Invisible(rules, olderThan) <==> forall key :: Refills(rules(key), olderThan)
  {
    if forall key :: Refills(rules(key), olderThan) {
      forall ops: seq<Op>, from: real | InTime(ops, from)
        ensures Answers(map[], rules, olderThan, ops) == Answers(map[], rules, olderThan, Calls(ops))
      {
        InvisibleFrom(map[], map[], rules, olderThan, ops, from);
      }
    } else {
      var key :| !Refills(rules(key), olderThan);
      EarlyPurgeShows(key, rules, olderThan);
    }
  }

  const LOGIN_IP_RULE := Rule(20.0, 20.0 / 60.0)
  const LOGIN_IDENTITY_RULE := Rule(5.0, 5.0 / 60.0)
  /** The maintenance loop purges after a day. */
  const PURGE_AGE: real := 86400.0

  /** Both login rules do. */
  lemma LoginRulesSurvivePurge(isIp: string -> bool)
    ensures var rules := (key: string) => if isIp(key) then LOGIN_IP_RULE else LOGIN_IDENTITY_RULE;
            (forall key :: Sound(rules(key))) && Invisible(rules, PURGE_AGE)
  {
    PurgeIsInvisibleIff((key: string) => if isIp(key) then LOGIN_IP_RULE else LOGIN_IDENTITY_RULE, PURGE_AGE);
  }
}
