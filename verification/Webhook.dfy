/** Signed webhooks: what a signature vouches for, and why a delivery is recorded once although the deduplication
    table forgets. */
module Webhook {
  import opened Base
  import opened Text

  const TOLERANCE: Duration := 5 * MINUTE

  datatype Error = MissingHeaders | MalformedSecret | OutsideTolerance | SignatureMismatch

  /** The primitives: the base64 decoders in the order they are tried, and the base64 of an HMAC. The MAC is ideal:
      it never takes one value for two contents or two keys. */
  datatype Primitives = Primitives(decoders: seq<string -> Option<string>>, mac: (string, string) -> string)

  ghost predicate Ideal(p: Primitives) {
    && (forall k, c :: NoSpace(p.mac(k, c)))
    && (forall k, c, k', c' :: p.mac(k, c) == p.mac(k', c') ==> k == k' && c == c')
  }

  // ---- signing --------------------------------------------------------------------------

  function FirstKey(decoders: seq<string -> Option<string>>, secret: string): Option<string> {
    if decoders == [] then None
    else
      var key := decoders[0](secret);
      if key.Some? && key.value != "" then key else FirstKey(decoders[1..], secret)
  }

  function TrimPrefix(s: string, prefix: string): string {
    if prefix <= s then s[|prefix|..] else s
  }

  function DecodeSecret(p: Primitives, secret: string): Option<string> {
    var s := TrimPrefix(TrimSpace(secret), "whsec_");
    if s == "" then None else FirstKey(p.decoders, s)
  }

  function SignedContent(id: string, timestamp: string, body: string): string {
    id + "." + timestamp + "." + body
  }

  function Want(p: Primitives, key: string, id: string, timestamp: string, body: string): string {
    p.mac(key, SignedContent(id, timestamp, body))
  }

  function SignSvix(p: Primitives, secret: string, id: string, secs: int, body: string): Option<string> {
    var key := DecodeSecret(p, secret);
    if key.None? then None else Some("v1," + Want(p, key.value, id, FormatInt(secs), body))
  }

  /** Ids without a dot: the signed content then determines what was signed. */
  lemma SignedContentInjective(id: string, ts: string, body: string, id': string, ts': string, body': string)
    requires '.' !in id && '.' !in ts && '.' !in id' && '.' !in ts'
    requires SignedContent(id, ts, body) == SignedContent(id', ts', body')
    ensures id == id' && ts == ts' && body == body'
  {
    Regroup(id, ts, body);
    Regroup(id', ts', body');
    FirstDot(id, ts + ['.'] + body, id', ts' + ['.'] + body');
    FirstDot(ts, body, ts', body');
  }

  lemma Regroup(id: string, ts: string, body: string)
    ensures SignedContent(id, ts, body) == id + ['.'] + (ts + ['.'] + body)
  {
  }

  lemma FirstDot(a: string, b: string, a': string, b': string)
    requires '.' !in a && '.' !in a' && a + ['.'] + b == a' + ['.'] + b'
    ensures a == a' && b == b'
  {
    CutJoins(a, '.', b);
    CutJoins(a', '.', b');
  }

  // ---- verification ---------------------------------------------------------------------

  predicate InTime(secs: int, now: Time, tolerance: Duration) {
    -tolerance <= now - secs * SECOND <= tolerance
  }

  /** The answer in terms of what the signature header lists. */
  function Verdict(p: Primitives, secret: string, id: string, timestamp: string, signatures: string, body: string,
                   now: Time, tolerance: Duration): Result<string, Error> {
    var i, t, s := TrimSpace(id), TrimSpace(timestamp), TrimSpace(signatures);
    var key, secs := DecodeSecret(p, secret), ParseInt(t);
    if i == "" || t == "" || s == "" then Err(MissingHeaders)
    else if key.None? then Err(MalformedSecret)
    else if secs.None? || !InTime(secs.value, now, tolerance) then Err(OutsideTolerance)
    else if "v1," + Want(p, key.value, i, t, body) in Fields(s) then Ok(i)
    else Err(SignatureMismatch)
  }

  /** The first alphabet that makes a nonempty key of the text. */
  ghost predicate FirstNonempty(decoders: seq<string -> Option<string>>, text: string, key: Option<string>) {
    if key.None? then forall k :: 0 <= k < |decoders| ==> decoders[k](text).None? || decoders[k](text) == Some("")
    else exists k :: && 0 <= k < |decoders| && decoders[k](text) == key && key.value != ""
                     && forall i :: 0 <= i < k ==> decoders[i](text).None? || decoders[i](text) == Some("")
  }

  /** The key of a configured secret: base64, with or without the prefix, in any space. */
  ghost predicate KeyOf(p: Primitives, secret: string, key: Option<string>) {
    exists trimmed, text :: && Padded(secret, trimmed)
                            && (trimmed == "whsec_" + text || (trimmed == text && !("whsec_" <= text)))
                            && if text == "" then key.None? else FirstNonempty(p.decoders, text, key)
  }

  lemma {:induction false} FirstKeyIs(decoders: seq<string -> Option<string>>, text: string, key: Option<string>)
    ensures FirstNonempty(decoders, text, key) <==> FirstKey(decoders, text) == key
  {
    if decoders != [] {
      FirstKeyIs(decoders[1..], text, key);
      assert forall k :: 1 <= k < |decoders| ==> decoders[k](text) == decoders[1..][k - 1](text);
      if FirstNonempty(decoders[1..], text, key) && key.Some? {
        var k :| && 0 <= k < |decoders| - 1 && decoders[1..][k](text) == key
                 && forall i :: 0 <= i < k ==> decoders[1..][i](text).None? || decoders[1..][i](text) == Some("");
        assert decoders[k + 1](text) == key;
        assert forall i :: 1 <= i < k + 1 ==> decoders[i](text) == decoders[1..][i - 1](text);
      }
      if FirstNonempty(decoders, text, key) && key.Some? {
        var k :| && 0 <= k < |decoders| && decoders[k](text) == key && key.value != ""
                 && forall i :: 0 <= i < k ==> decoders[i](text).None? || decoders[i](text) == Some("");
        if k > 0 {
          assert decoders[1..][k - 1](text) == key;
          assert forall i :: 0 <= i < k - 1 ==> decoders[1..][i](text) == decoders[i + 1](text);
        }
      }
    }
  }

  lemma SecretText(secret: string, trimmed: string, text: string)
    requires Padded(secret, trimmed) && (trimmed == "whsec_" + text || (trimmed == text && !("whsec_" <= text)))
    ensures text == TrimPrefix(TrimSpace(secret), "whsec_")
  {
    TrimSpaceIs(secret, trimmed);
    if trimmed == "whsec_" + text {
      assert trimmed[|"whsec_"|..] == text;
    }
  }

  lemma DecodeSecretIs(p: Primitives, secret: string, key: Option<string>)
    ensures KeyOf(p, secret, key) <==> DecodeSecret(p, secret) == key
  {
    var trimmed := TrimSpace(secret);
    var text := TrimPrefix(trimmed, "whsec_");
    FirstKeyIs(p.decoders, text, key);
    if KeyOf(p, secret, key) {
      var t, x :| && Padded(secret, t) && (t == "whsec_" + x || (t == x && !("whsec_" <= x)))
                  && if x == "" then key.None? else FirstNonempty(p.decoders, x, key);
      SecretText(secret, t, x);
    } else {
      TrimSpaceIs(secret, trimmed);
      assert "whsec_" <= trimmed ==> trimmed == "whsec_" + text;
    }
  }

  /** A delivery to accept as `id`: every header says something, the timestamp is within the tolerance on either side,
      and among the signatures is the v1 signature of what was received, under the key of the secret. */
  ghost predicate Genuine(p: Primitives, secret: string, svixId: string, svixTimestamp: string, signatures: string,
                          body: string, now: Time, tolerance: Duration, id: string)
  {
    exists key, t :: && Padded(svixId, id) && id != "" && Padded(svixTimestamp, t) && t != ""
                     && KeyOf(p, secret, Some(key))
                     && ParseInt(t).Some? && ParseInt(t).value * SECOND - tolerance <= now
                     && now <= ParseInt(t).value * SECOND + tolerance
                     && "v1," + p.mac(key, id + "." + t + "." + body) in Fields(TrimSpace(signatures))
  }

  lemma VerdictIsGenuine(p: Primitives, secret: string, svixId: string, svixTimestamp: string, signatures: string,
                         body: string, now: Time, tolerance: Duration, id: string)
    ensures Genuine(p, secret, svixId, svixTimestamp, signatures, body, now, tolerance, id)
            <==> Verdict(p, secret, svixId, svixTimestamp, signatures, body, now, tolerance) == Ok(id)
  {
    var t, key := TrimSpace(svixTimestamp), DecodeSecret(p, secret);
    TrimSpaceIs(svixId, id);
    TrimSpaceIs(svixTimestamp, t);
    DecodeSecretIs(p, secret, key);
    forall k, x | KeyOf(p, secret, Some(k)) && Padded(svixTimestamp, x) ensures key == Some(k) && x == t {
      DecodeSecretIs(p, secret, Some(k));
      TrimSpaceIs(svixTimestamp, x);
    }
  }

  lemma CutOfV1(entry: string, sig: string)
    ensures Cut(entry, ',') == Some(("v1", sig)) <==> entry == "v1," + sig
  {
    assert "v1" + [','] + sig == "v1," + sig;
    CutJoins("v1", ',', sig);
  }

  /** Every entry is compared, so that the time taken does not tell which one matched. */
  method AnyMatches(entries: seq<string>, want: string) returns (matched: bool)
    ensures matched <==> "v1," + want in entries
  {
    matched := false;
    var k := 0;
    while k < |entries|
      invariant 0 <= k <= |entries|
      invariant matched <==> "v1," + want in entries[..k]
    {
      var cut := Cut(entries[k], ',');
      CutOfV1(entries[k], want);
      assert entries[..k + 1] == entries[..k] + [entries[k]];
      k := k + 1;
      if cut.None? || cut.value.0 != "v1" {
        continue;
      }
      if cut.value.1 == want {
        matched := true;
      }
    }
    assert entries[..k] == entries;
  }

  method VerifySvix(p: Primitives, secret: string, id: string, timestamp: string, signatures: string, body: string,
                    now: Time, tolerance: Duration) returns (r: Result<string, Error>)
    ensures r == Verdict(p, secret, id, timestamp, signatures, body, now, tolerance)
    ensures forall i :: Genuine(p, secret, id, timestamp, signatures, body, now, tolerance, i) <==> r == Ok(i)
    ensures r == Err(MissingHeaders) <==> Padded(id, "") || Padded(timestamp, "") || Padded(signatures, "")
    ensures r == Err(MalformedSecret) ==> KeyOf(p, secret, None)
  {
    forall i ensures Genuine(p, secret, id, timestamp, signatures, body, now, tolerance, i)
                     <==> Verdict(p, secret, id, timestamp, signatures, body, now, tolerance) == Ok(i) {
      VerdictIsGenuine(p, secret, id, timestamp, signatures, body, now, tolerance, i);
    }
    TrimSpaceIs(id, "");
    TrimSpaceIs(timestamp, "");
    TrimSpaceIs(signatures, "");
    DecodeSecretIs(p, secret, None);
    var svixId, ts, sigs := TrimSpace(id), TrimSpace(timestamp), TrimSpace(signatures);
    if svixId == "" || ts == "" || sigs == "" {
      return Err(MissingHeaders);
    }
    var key := DecodeSecret(p, secret);
    if key.None? {
      return Err(MalformedSecret);
    }
    var secs := ParseInt(ts);
    if secs.None? {
      return Err(OutsideTolerance);
    }
    var drift := now - secs.value * SECOND;
    if drift > tolerance || drift < -tolerance {
      return Err(OutsideTolerance);
    }
    var want := p.mac(key.value, svixId + "." + ts + "." + body);
    var matched := AnyMatches(Fields(sigs), want);
    if !matched {
      return Err(SignatureMismatch);
    }
    return Ok(svixId);
  }

  /** What one signature, made for (id, secs, body), verifies: exactly the deliveries with the same signed content, in
      time. */
  lemma SignatureVouches(p: Primitives, secret: string, id: string, secs: int, body: string,
                         id': string, ts': string, body': string, now: Time, tolerance: Duration)
    requires Ideal(p) && SignSvix(p, secret, id, secs, body).Some?
    ensures var header, i, t := SignSvix(p, secret, id, secs, body).value, TrimSpace(id'), TrimSpace(ts');
            Verdict(p, secret, id', ts', header, body', now, tolerance).Ok?
            <==> i != "" && ParseInt(t).Some? && InTime(ParseInt(t).value, now, tolerance)
                 && SignedContent(i, t, body') == SignedContent(id, FormatInt(secs), body)
  {
    var key, header := DecodeSecret(p, secret).value, SignSvix(p, secret, id, secs, body).value;
    V1Word(p, key, SignedContent(id, FormatInt(secs), body));
    TrimmedStays(header);
    FieldsOfWord(header);
    var want := Want(p, key, TrimSpace(id'), TrimSpace(ts'), body');
    PrefixCancels("v1,", want, Want(p, key, id, FormatInt(secs), body));
  }

  lemma PrefixCancels(prefix: string, a: string, b: string)
    ensures prefix + a == prefix + b <==> a == b
  {
    if prefix + a == prefix + b {
      assert (prefix + a)[|prefix|..] == a && (prefix + b)[|prefix|..] == b;
    }
  }

  /** Ids as the provider mints them: nothing to trim and no dot. */
  predicate PlainId(id: string) {
    id != "" && Trimmed(id) && '.' !in id
  }

  /** A received id without a dot is accepted exactly with the timestamp and the bytes that were signed for it. So among
      accepted deliveries the guard "the id has no dot" holds for the one that was signed and for no other. */
  lemma DotlessIsIdentical(p: Primitives, secret: string, id: string, secs: int, body: string,
                           id': string, ts': string, body': string, now: Time, tolerance: Duration)
    requires Ideal(p) && SignSvix(p, secret, id, secs, body).Some? && PlainId(id) && MIN_INT64 <= secs <= MAX_INT64
    ensures var header, i, t := SignSvix(p, secret, id, secs, body).value, TrimSpace(id'), TrimSpace(ts');
            Verdict(p, secret, id', ts', header, body', now, tolerance).Ok? && '.' !in i
            <==> i == id && t == FormatInt(secs) && body' == body && InTime(secs, now, tolerance)
  {
    var i, t := TrimSpace(id'), TrimSpace(ts');
    SignatureVouches(p, secret, id, secs, body, id', ts', body', now, tolerance);
    ParseInverts(secs);
    if ParseInt(t).Some? && '.' !in i && SignedContent(i, t, body') == SignedContent(id, FormatInt(secs), body) {
      ParsedHasNoDot(t);
      SignedContentInjective(i, t, body', id, FormatInt(secs), body);
    }
  }

  /** The code has no such guard. A body that starts with a number and a dot reads as a timestamp once the signed one
      has moved into the id: the same header verifies for another id and shorter bytes. */
  lemma DottedIdVerifies(p: Primitives, secret: string, id: string, secs: int, secs': int, rest: string, now: Time,
      tolerance: Duration)
    requires Ideal(p) && SignSvix(p, secret, id, secs, FormatInt(secs') + "." + rest).Some? && PlainId(id)
    requires MIN_INT64 <= secs <= MAX_INT64 && MIN_INT64 <= secs' <= MAX_INT64 && InTime(secs', now, tolerance)
    ensures var id' := id + "." + FormatInt(secs);
            var header := SignSvix(p, secret, id, secs, FormatInt(secs') + "." + rest).value;
            Verdict(p, secret, id', FormatInt(secs'), header, rest, now, tolerance) == Ok(id')
  {
    var id', ts' := id + "." + FormatInt(secs), FormatInt(secs');
    ParseInverts(secs);
    ParseInverts(secs');
    TrimmedStays(id');
    TrimmedStays(ts');
    Regrouped(id, FormatInt(secs), ts', rest);
    SignatureVouches(p, secret, id, secs, ts' + "." + rest, id', ts', rest, now, tolerance);
  }

  lemma Regrouped(a: string, b: string, c: string, d: string)
    ensures SignedContent(a + "." + b, c, d) == SignedContent(a, b, c + "." + d)
  {
  }

  lemma V1Word(p: Primitives, key: string, content: string)
    requires Ideal(p)
    ensures var w := "v1," + p.mac(key, content);
            w != "" && NoSpace(w) && Trimmed(w)
  {
    var w := "v1," + p.mac(key, content);
    assert NoSpace(p.mac(key, content));
    forall i | 0 <= i < |w| ensures !Space(w[i]) {
      assert i >= 3 ==> w[i] == p.mac(key, content)[i - 3];
    }
  }

  /** During a secret rotation a delivery carries both signatures, and either secret accepts it. */
  lemma RotationAccepts(p: Primitives, old': string, new': string, id: string, secs: int, body: string, now: Time,
      tolerance: Duration)
    requires Ideal(p) && SignSvix(p, old', id, secs, body).Some? && SignSvix(p, new', id, secs, body).Some?
    requires id != "" && Trimmed(id) && MIN_INT64 <= secs <= MAX_INT64 && InTime(secs, now, tolerance)
    ensures var header := SignSvix(p, old', id, secs, body).value + " " + SignSvix(p, new', id, secs, body).value;
            && Verdict(p, old', id, FormatInt(secs), header, body, now, tolerance) == Ok(id)
            && Verdict(p, new', id, FormatInt(secs), header, body, now, tolerance) == Ok(id)
  {
    var a, b := SignSvix(p, old', id, secs, body).value, SignSvix(p, new', id, secs, body).value;
    V1Word(p, DecodeSecret(p, old').value, SignedContent(id, FormatInt(secs), body));
    V1Word(p, DecodeSecret(p, new').value, SignedContent(id, FormatInt(secs), body));
    ParseInverts(secs);
    TrimmedStays(id);
    TrimmedStays(FormatInt(secs));
    assert Trimmed(a + " " + b);
    TrimmedStays(a + " " + b);
    FieldsOfTwo(a, b);
    FieldsOfWord(b);
  }

  // ---- recorded once --------------------------------------------------------------------

  /** A delivery carries a signed id and timestamp; `at` is when its row was inserted. */
  datatype Recorded = Recorded(id: string, secs: int, at: Time)

  /** The deduplication table, by id, and everything ever inserted into it. */
  datatype State = State(clock: Time, events: map<string, Time>, log: seq<Recorded>)

  datatype Step =
    | Tick(d: Duration)
    | Deliver(id: string, secs: int, verifiedAt: Time)
    | Purge(olderThan: Duration)

  /** `delay` bounds the time from a handler's clock reading to its insert. */
  datatype Limits = Limits(tolerance: Duration, delay: Duration, retention: Duration)

  predicate Enabled(l: Limits, s: State, step: Step) {
    match step
    case Tick(d) => d >= 0
    case Deliver(id, secs, verifiedAt) =>
      id != "" && InTime(secs, verifiedAt, l.tolerance) && verifiedAt <= s.clock <= verifiedAt + l.delay
    case Purge(olderThan) => olderThan >= l.retention
  }

  function Apply(s: State, step: Step): State {
    match step
    case Tick(d) => s.(clock := s.clock + d)
    case Deliver(id, secs, _) =>
      if id in s.events then s
      else s.(events := s.events[id := s.clock], log := s.log + [Recorded(id, secs, s.clock)])
    case Purge(olderThan) => s.(events := map id | id in s.events
        && !(s.events[id] < s.clock - olderThan) :: s.events[id])
  }

  predicate Legal(l: Limits, s: State, steps: seq<Step>)
    decreases |steps|
  {
    steps == [] || (Enabled(l, s, steps[0]) && Legal(l, Apply(s, steps[0]), steps[1..]))
  }

  function Run(s: State, steps: seq<Step>): State
    decreases |steps|
  {
    if steps == [] then s else Run(Apply(s, steps[0]), steps[1..])
  }

  predicate Close(r: Recorded, l: Limits) {
    r.secs * SECOND - l.tolerance <= r.at <= r.secs * SECOND + l.tolerance + l.delay
  }

  /** A recorded delivery blocks its id for the retention; entries are in order of insertion. */
  predicate Inv(l: Limits, s: State) {
    && (forall i :: 0 <= i < |s.log| ==> Close(s.log[i], l) && s.log[i].at <= s.clock)
    && (forall i :: 0 <= i < |s.log| && s.clock <= s.log[i].at + l.retention ==> s.log[i].id in s.events)
    && (forall i :: 0 <= i < |s.log| && s.log[i].id in s.events ==> s.log[i].at <= s.events[s.log[i].id])
    && (forall i, j :: 0 <= i < j < |s.log| && s.log[i].id == s.log[j].id ==> s.log[i].at + l.retention < s.log[j].at)
  }

  lemma StepKeepsInv(l: Limits, s: State, step: Step)
    requires Inv(l, s) && Enabled(l, s, step) && l.retention >= 0
    ensures Inv(l, Apply(s, step))
  {
    if step.Deliver? && step.id !in s.events {
      var s' := Apply(s, step);
      forall i | 0 <= i < |s'.log| ensures Close(s'.log[i], l) && s'.log[i].at <= s'.clock {
      }
    }
  }

  lemma {:induction false} RunKeepsInv(l: Limits, s: State, steps: seq<Step>)
    requires Inv(l, s) && Legal(l, s, steps) && l.retention >= 0
    ensures Inv(l, Run(s, steps))
    decreases |steps|
  {
    if steps != [] {
      StepKeepsInv(l, s, steps[0]);
      RunKeepsInv(l, Apply(s, steps[0]), steps[1..]);
    }
  }

  lemma RunCons(l: Limits, s: State, step: Step, rest: seq<Step>)
    ensures Legal(l, s, [step] + rest) <==> Enabled(l, s, step) && Legal(l, Apply(s, step), rest)
    ensures Run(s, [step] + rest) == Run(Apply(s, step), rest)
  {
    assert ([step] + rest)[1..] == rest;
  }

  predicate NoRepeats(log: seq<Recorded>) {
    forall i, j :: 0 <= i < j < |log| ==> !(log[i].id == log[j].id && log[i].secs == log[j].secs)
  }

  ghost predicate RecordedOnce(l: Limits) {
    forall now: Time, steps :: Legal(l, State(now, map[], []), steps) ==>
        NoRepeats(Run(State(now, map[], []), steps).log)
  }

  /** The replay guard holds in every run, although purges forget, exactly when a dedup row outlives the span in which
      one signed delivery can be accepted: twice the tolerance plus the handler's delay. */
  lemma ReplayGuard(l: Limits)
    requires l.tolerance >= 0 && l.delay >= 0 && l.retention >= 0
    ensures RecordedOnce(l) <==> 2 * l.tolerance + l.delay <= l.retention
  {
    if 2 * l.tolerance + l.delay <= l.retention {
      forall now: Time, steps | Legal(l, State(now, map[], []), steps)
        ensures NoRepeats(Run(State(now, map[], []), steps).log)
      {
        RunKeepsInv(l, State(now, map[], []), steps);
      }
    } else {
      var now := -l.tolerance;
      var s0 := State(now, map[], []);
      var a, b, c, d := Deliver("m", 0, now), Tick(2 * l.tolerance + l.delay), Purge(l.retention),
          Deliver("m", 0, l.tolerance);
      var s1 := Apply(s0, a);
      var s2 := Apply(s1, b);
      var s3 := Apply(s2, c);
      var s4 := Apply(s3, d);
      assert "m" !in s3.events;
      assert s4.log == [Recorded("m", 0, now), Recorded("m", 0, l.tolerance + l.delay)];
      RunCons(l, s3, d, []);
      RunCons(l, s2, c, [d] + []);
      RunCons(l, s1, b, [c] + ([d] + []));
      RunCons(l, s0, a, [b] + ([c] + ([d] + [])));
      assert Run(s4, []) == s4;
      assert s4.log[0].id == s4.log[1].id && s4.log[0].secs == s4.log[1].secs;
      assert !NoRepeats(s4.log);
    }
  }

  /** The deployed limits leave a handler almost seven days. */
  lemma DeployedGuard(delay: Duration)
    requires 0 <= delay <= OUTBOX_RETENTION - 10 * MINUTE
    ensures RecordedOnce(Limits(TOLERANCE, delay, OUTBOX_RETENTION))
  {
    ReplayGuard(Limits(TOLERANCE, delay, OUTBOX_RETENTION));
  }
}
