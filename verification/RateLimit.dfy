/** Token buckets: lazily refilled and clamped at their capacity. Times are in seconds, and the calls of a run carry
    nondecreasing ones. */
module RateLimit {
  import opened Base

  datatype Rule = Rule(capacity: real, refillPerSec: real)

  datatype Bucket = Bucket(tokens: real, updatedAt: real)

  datatype Answer = Answer(allowed: bool, wait: real)

  predicate Sound(rule: Rule) {
    rule.capacity >= 0.0 && rule.refillPerSec > 0.0
  }

  function Least(a: real, b: real): real {
    if a <= b then a else b
  }

  function Accrued(elapsed: real, rate: real): real {
    elapsed * rate
  }

  /** The upsert: a new bucket starts full. */
  function Refill(b: Option<Bucket>, rule: Rule, now: real): real {
    if b.None? then rule.capacity
    else Least(rule.capacity, b.value.tokens + Accrued(now - b.value.updatedAt, rule.refillPerSec))
  }

  function Spend(b: Option<Bucket>, rule: Rule, now: real): Bucket {
    var tokens := Refill(b, rule, now);
    Bucket(if tokens >= 1.0 then tokens - 1.0 else tokens, now)
  }

  function Reply(b: Option<Bucket>, rule: Rule, now: real): Answer
    requires Sound(rule)
  {
    var tokens := Refill(b, rule, now);
    if tokens >= 1.0 then Answer(true, 0.0) else Answer(false, (1.0 - tokens) / rule.refillPerSec)
  }

  lemma ScaleMonotone(a: real, b: real, r: real)
    requires a <= b && r > 0.0
    ensures Accrued(a, r) <= Accrued(b, r)
    ensures a < b ==> Accrued(a, r) < Accrued(b, r)
  {
  }

  lemma ScaleAdds(a: real, b: real, r: real)
    ensures Accrued(a, r) + Accrued(b, r) == Accrued(a + b, r)
  {
  }

  lemma DivideBack(x: real, r: real)
    requires r > 0.0
    ensures Accrued(x / r, r) == x
  {
  }

  lemma DivideApart(x: real, y: real, r: real)
    requires x != y && r > 0.0
    ensures x / r != y / r
  {
    DivideBack(x, r);
    DivideBack(y, r);
  }

  /** What a bucket holds at `now`: what it held and gained since, but no more than its capacity; a new one is full. */
  predicate Holds(b: Option<Bucket>, rule: Rule, now: real, tokens: real) {
    if b.None? then tokens == rule.capacity
    else
      var grown := b.value.tokens + Accrued(now - b.value.updatedAt, rule.refillPerSec);
      tokens <= rule.capacity && tokens <= grown && (tokens == rule.capacity || tokens == grown)
  }

  /** A whole token is spent, or the wait is told in which the missing part comes in. */
  ghost predicate Takes(b: Option<Bucket>, rule: Rule, now: real, b': Bucket, answer: Answer) {
    exists tokens :: && Holds(b, rule, now, tokens) && (answer.allowed <==> tokens >= 1.0) && b'.updatedAt == now
                     && if answer.allowed then b'.tokens == tokens - 1.0 && answer.wait == 0.0
                        else b'.tokens == tokens && Accrued(answer.wait, rule.refillPerSec) == 1.0 - tokens
  }

  lemma SpendTakes(b: Option<Bucket>, rule: Rule, now: real)
    requires Sound(rule)
    ensures Takes(b, rule, now, Spend(b, rule, now), Reply(b, rule, now))
  {
    var tokens := Refill(b, rule, now);
    assert Holds(b, rule, now, tokens);
    DivideBack(1.0 - tokens, rule.refillPerSec);
  }

  // ---- one bucket -----------------------------------------------------------------------

  predicate Within(b: Option<Bucket>, rule: Rule, now: real) {
    b.Some? ==> 0.0 <= b.value.tokens <= rule.capacity && b.value.updatedAt <= now
  }

  predicate Ordered(calls: seq<real>) {
    forall i, j :: 0 <= i < j < |calls| ==> calls[i] <= calls[j]
  }

  function After(b: Option<Bucket>, rule: Rule, calls: seq<real>): Option<Bucket>
    decreases |calls|
  {
    if calls == [] then b else After(Some(Spend(b, rule, calls[0])), rule, calls[1..])
  }

  function Admitted(b: Option<Bucket>, rule: Rule, calls: seq<real>): nat
    requires Sound(rule)
    decreases |calls|
  {
    if calls == [] then 0
    else
      (if Reply(b, rule, calls[0]).allowed then 1 else 0)
      + Admitted(Some(Spend(b, rule, calls[0])), rule, calls[1..])
  }

  lemma RefillWithin(b: Option<Bucket>, rule: Rule, now: real)
    requires Sound(rule) && Within(b, rule, now)
    ensures 0.0 <= Refill(b, rule, now) <= rule.capacity
    ensures Within(Some(Spend(b, rule, now)), rule, now)
  {
    if b.Some? {
      ScaleMonotone(0.0, now - b.value.updatedAt, rule.refillPerSec);
    }
  }

  /** No sequence of calls takes a bucket out of [0, capacity]. */
  lemma {:induction false} TokensStayWithin(b: Option<Bucket>, rule: Rule, calls: seq<real>, now: real)
    requires Sound(rule) && Ordered(calls) && (calls != [] ==> Within(b, rule, calls[0]) && calls[|calls| - 1] <= now)
    requires calls == [] ==> Within(b, rule, now)
    ensures Within(After(b, rule, calls), rule, now)
    decreases |calls|
  {
    if calls != [] {
      RefillWithin(b, rule, calls[0]);
      TokensStayWithin(Some(Spend(b, rule, calls[0])), rule, calls[1..], now);
    }
  }

  /** Admissions are paid for by what the bucket held at the first call and by the refill since. */
  lemma {:induction false} AdmissionsArePaid(b: Option<Bucket>, rule: Rule, calls: seq<real>)
    requires Sound(rule) && Ordered(calls) && calls != [] && Within(b, rule, calls[0])
    ensures Admitted(b, rule, calls) as real <= Refill(b, rule, calls[0])
            + Accrued(calls[|calls| - 1] - calls[0], rule.refillPerSec)
    decreases |calls|
  {
    var b' := Some(Spend(b, rule, calls[0]));
    var rest := calls[1..];
    RefillWithin(b, rule, calls[0]);
    if rest != [] {
      AdmissionsArePaid(b', rule, rest);
      ScaleAdds(rest[0] - calls[0], rest[|rest| - 1] - rest[0], rule.refillPerSec);
    }
  }

  lemma OrderedParts(before: seq<real>, window: seq<real>)
    requires Ordered(before + window)
    ensures Ordered(before) && Ordered(window)
    ensures before != [] && window != [] ==> before[|before| - 1] <= window[0]
  {
    var all := before + window;
    forall i, j | 0 <= i < j < |before| ensures before[i] <= before[j] {
      assert all[i] <= all[j];
    }
    forall i, j | 0 <= i < j < |window| ensures window[i] <= window[j] {
      assert all[|before| + i] <= all[|before| + j];
    }
    if before != [] && window != [] {
      assert all[|before| - 1] <= all[|before|];
    }
  }

  /** In a window every admission was paid for by a full bucket or by the refill of the window. */
  lemma WindowIsPaid(b: Option<Bucket>, rule: Rule, window: seq<real>, s: real, t: real)
    requires Sound(rule) && Ordered(window) && window != [] && Within(b, rule, window[0])
    requires s <= window[0] && window[|window| - 1] <= t
    ensures Admitted(b, rule, window) as real <= rule.capacity + Accrued(t - s, rule.refillPerSec)
  {
    AdmissionsArePaid(b, rule, window);
    RefillWithin(b, rule, window[0]);
    ScaleMonotone(window[|window| - 1] - window[0], t - s, rule.refillPerSec);
  }

  /** In any window [s, t], after any earlier traffic, at most capacity + refill * (t - s) calls are admitted. */
  lemma WindowBound(rule: Rule, before: seq<real>, window: seq<real>, s: real, t: real)
    requires Sound(rule) && Ordered(before + window) && s <= t
    requires forall c :: c in window ==> s <= c <= t
    ensures Admitted(After(None, rule, before), rule, window) as real <= rule.capacity
            + Accrued(t - s, rule.refillPerSec)
  {
    if window == [] {
      ScaleMonotone(0.0, t - s, rule.refillPerSec);
    } else {
      OrderedParts(before, window);
      TokensStayWithin(None, rule, before, window[0]);
      assert window[0] in window && window[|window| - 1] in window;
      WindowIsPaid(After(None, rule, before), rule, window, s, t);
    }
  }

  function Burst(n: nat, at: real): (calls: seq<real>)
    ensures |calls| == n && Ordered(calls) && forall c :: c in calls ==> c == at
  {
    seq(n, i => at)
  }

  /** The bound is reached: of `n` simultaneous calls a bucket holding `tokens` admits exactly its whole tokens. */
  lemma {:induction false} BurstIsExact(b: Option<Bucket>, rule: Rule, n: nat, at: real)
    requires Sound(rule) && Within(b, rule, at)
    ensures Admitted(b, rule, Burst(n, at)) == Min(n, Refill(b, rule, at).Floor)
    decreases n
  {
    RefillWithin(b, rule, at);
    if n > 0 {
      var b' := Some(Spend(b, rule, at));
      assert Burst(n, at)[1..] == Burst(n - 1, at);
      BurstIsExact(b', rule, n - 1, at);
      assert Refill(b', rule, at) == b'.value.tokens;
      if Refill(b, rule, at) >= 1.0 {
        assert (Refill(b, rule, at) - 1.0).Floor == Refill(b, rule, at).Floor - 1;
      }
    }
  }

  /** A denied caller's wait is exact: a lone call after it succeeds if and only if it comes no sooner. */
  lemma WaitIsExact(b: Option<Bucket>, rule: Rule, now: real, d: real)
    requires Sound(rule) && rule.capacity >= 1.0 && Within(b, rule, now) && d >= 0.0
    requires !Reply(b, rule, now).allowed
    ensures Reply(Some(Spend(b, rule, now)), rule, now + d).allowed <==> d >= Reply(b, rule, now).wait
  {
    var r, missing := rule.refillPerSec, 1.0 - Refill(b, rule, now);
    DivideBack(missing, r);
    if d >= missing / r {
      ScaleMonotone(missing / r, d, r);
    } else {
      ScaleMonotone(d, missing / r, r);
    }
  }

  // ---- the table ------------------------------------------------------------------------

  type Buckets = map<string, Bucket>

  function At(buckets: Buckets, key: string): Option<Bucket> {
    if key in buckets then Some(buckets[key]) else None
  }

  function Purge(buckets: Buckets, cutoff: real): Buckets {
    map key | key in buckets && !(buckets[key].updatedAt < cutoff) :: buckets[key]
  }

  class Limiter {
    var buckets: Buckets

    constructor ()
      ensures buckets == map[]
    {
      buckets := map[];
    }

    /** Refill and spend in one transaction; the lemmas above say what the answer means. */
    method Allow(key: string, rule: Rule, now: real) returns (answer: Answer)
      requires Sound(rule)
      modifies this
      ensures answer == Reply(At(old(buckets), key), rule, now)
      ensures buckets == old(buckets)[key := Spend(At(old(buckets), key), rule, now)]
      ensures key in buckets && Takes(At(old(buckets), key), rule, now, buckets[key], answer)
    {
      SpendTakes(At(buckets, key), rule, now);
      var tokens := rule.capacity;
      if key in buckets {
        tokens := Least(rule.capacity, buckets[key].tokens + Accrued(now - buckets[key].updatedAt, rule.refillPerSec));
      }
      buckets := buckets[key := Bucket(tokens, now)];
      if tokens >= 1.0 {
        buckets := buckets[key := buckets[key].(tokens := buckets[key].tokens - 1.0)];
        return Answer(true, 0.0);
      }
      var needed := 1.0 - tokens;
      return Answer(false, needed / rule.refillPerSec);
    }

    method PurgeStaleBuckets(olderThan: real, now: real) returns (removed: int)
      modifies this
      ensures buckets == Purge(old(buckets), now - olderThan)
      ensures forall key :: key in buckets <==> key in old(buckets) && old(buckets)[key].updatedAt >= now - olderThan
      ensures forall key :: key in buckets ==> buckets[key] == old(buckets)[key]
      ensures removed == |old(buckets)| - |buckets|
    {
      var before := |buckets|;
      buckets := map key | key in buckets && !(buckets[key].updatedAt < now - olderThan) :: buckets[key];
      removed := before - |buckets|;
    }
  }
}
