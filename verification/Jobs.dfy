/** What a claim hands to its worker: the jobs of the leased rows, split by whether their payload opens. */
module Jobs {
  import opened Base
  import opened OutboxTable
  import K = Keyring
  import T = TokenTable

  datatype Message = Message(to: string, subject: string, body: string)

  datatype Job = Job(
    id: Id, userId: string, provider: string, purpose: string, attempt: nat,
    leaseToken: Lease, leaseUntil: Time, sendBefore: Time, message: Message)

  function IdempotencyKey(id: Id): string {
    "auth-email/" + id
  }

  /** The body a keyring reads out of a row. */
  function OpenBody(id: Id, r: Row, kr: K.Keyring): Result<string, K.KeyringError>
    requires r.nonce.Some? && r.ciphertext.Some?
  {
    K.Decrypt(kr, r.keyId, r.nonce.value, r.ciphertext.value, PayloadAad(id, r.provider, r.purpose))
  }

  /** The job of a row as leased at `now`, with the body that was read out of it. */
  function JobOf(id: Id, r: Row, lease: Lease, now: Time, body: string): Job {
    Job(id, r.userId, r.provider, r.purpose, r.attempts + 1, lease, now + LEASE_DURATION, r.sendBefore,
        Message(r.recipient, r.subject, body))
  }

  /** The candidates that survive classification, in candidate order. */
  function LeasedIds(rows: Rows, cands: seq<Id>, tokens: T.Tokens, dbNow: Time, appNow: Time): seq<Id>
    requires forall id :: id in cands ==> id in rows
  {
    if cands == [] then []
    else
      (if Judge(rows[cands[0]], tokens, dbNow, appNow).Leasable? then [cands[0]] else [])
      + LeasedIds(rows, cands[1..], tokens, dbNow, appNow)
  }

  ghost predicate Openable(rows: Rows, ids: seq<Id>, leases: map<Id, Lease>) {
    forall id :: id in ids ==> id in leases && id in rows && rows[id].nonce.Some? && rows[id].ciphertext.Some?
  }

  /** The jobs whose payload opens (`opens`), or those whose payload never will, in order. */
  function Sift(rows: Rows, ids: seq<Id>, leases: map<Id, Lease>, kr: K.Keyring, now: Time, opens: bool): seq<Job>
    requires Openable(rows, ids, leases)
  {
    if ids == [] then []
    else
      (if OpenBody(ids[0], rows[ids[0]], kr).Ok? == opens then [Opened(ids[0], rows[ids[0]], leases[ids[0]], kr, now)]
          else [])
      + Sift(rows, ids[1..], leases, kr, now, opens)
  }

  function Opened(id: Id, r: Row, lease: Lease, kr: K.Keyring, now: Time): Job
    requires r.nonce.Some? && r.ciphertext.Some?
  {
    var body := OpenBody(id, r, kr);
    JobOf(id, r, lease, now, if body.Ok? then body.value else "")
  }

  ghost predicate Distinct(ids: seq<Id>) {
    forall i, j :: 0 <= i < j < |ids| ==> ids[i] != ids[j]
  }

  ghost predicate DistinctJobs(js: seq<Job>) {
    forall i, j :: 0 <= i < j < |js| ==> js[i].id != js[j].id
  }

  ghost predicate Disjoint(a: seq<Job>, b: seq<Job>) {
    forall j, k :: j in a && k in b ==> j.id != k.id
  }

  ghost predicate Before(ids: seq<Id>, a: Id, b: Id) {
    exists m, n :: 0 <= m < n < |ids| && ids[m] == a && ids[n] == b
  }

  /** Distinct places in `ids`, in its order. */
  ghost predicate Ordered(ids: seq<Id>, sub: seq<Id>) {
    forall i, k :: 0 <= i < k < |sub| ==> Before(ids, sub[i], sub[k])
  }

  ghost predicate InOrderOf(ids: seq<Id>, js: seq<Job>) {
    Ordered(ids, seq(|js|, i requires 0 <= i < |js| => js[i].id))
  }

  lemma BeforeHead(ids: seq<Id>, b: Id)
    requires ids != [] && b in ids[1..]
    ensures Before(ids, ids[0], b)
  {
    var n :| 0 <= n < |ids| - 1 && ids[1..][n] == b;
    assert ids[n + 1] == b;
  }

  lemma BeforeInTail(ids: seq<Id>, a: Id, b: Id)
    requires ids != [] && Before(ids[1..], a, b)
    ensures Before(ids, a, b)
  {
    var m, n :| 0 <= m < n < |ids| - 1 && ids[1..][m] == a && ids[1..][n] == b;
    assert ids[m + 1] == a && ids[n + 1] == b;
  }

  lemma BeforeThrough(ids: seq<Id>, sub: seq<Id>, a: Id, b: Id)
    requires Ordered(ids, sub) && Before(sub, a, b)
    ensures Before(ids, a, b)
  {
    var m, n :| 0 <= m < n < |sub| && sub[m] == a && sub[n] == b;
    assert Before(ids, sub[m], sub[n]);
  }

  lemma OrderedOneMore(ids: seq<Id>, rest: seq<Id>, keep: bool)
    requires ids != [] && Ordered(ids[1..], rest) && forall x :: x in rest ==> x in ids[1..]
    ensures Ordered(ids, (if keep then [ids[0]] else []) + rest)
  {
    var all, d := (if keep then [ids[0]] else []) + rest, if keep then 1 else 0;
    forall i, k | 0 <= i < k < |all| ensures Before(ids, all[i], all[k]) {
      assert all[k] == rest[k - d];
      if i < d {
        BeforeHead(ids, rest[k - d]);
      } else {
        assert all[i] == rest[i - d];
        BeforeInTail(ids, rest[i - d], rest[k - d]);
      }
    }
  }

  /** Leased ids keep the order of the candidates. */
  lemma {:induction false} LeasedInOrder(rows: Rows, cands: seq<Id>, tokens: T.Tokens, dbNow: Time, appNow: Time)
    requires forall id :: id in cands ==> id in rows
    ensures var ids := LeasedIds(rows, cands, tokens, dbNow, appNow);
            (forall id :: id in ids ==> id in cands) && Ordered(cands, ids)
  {
    if cands != [] {
      LeasedInOrder(rows, cands[1..], tokens, dbNow, appNow);
      OrderedOneMore(cands, LeasedIds(rows, cands[1..], tokens, dbNow, appNow),
                     Judge(rows[cands[0]], tokens, dbNow, appNow).Leasable?);
    }
  }

  /** Jobs keep the order of their rows. */
  lemma {:induction false} SiftInOrder(rows: Rows, ids: seq<Id>, leases: map<Id, Lease>, kr: K.Keyring, now: Time,
      opens: bool)
    requires Openable(rows, ids, leases)
    ensures var js := Sift(rows, ids, leases, kr, now, opens);
            (forall j :: j in js ==> j.id in ids) && InOrderOf(ids, js)
  {
    if ids != [] {
      var js, rest := Sift(rows, ids, leases, kr, now, opens), Sift(rows, ids[1..], leases, kr, now, opens);
      SiftInOrder(rows, ids[1..], leases, kr, now, opens);
      var keep := OpenBody(ids[0], rows[ids[0]], kr).Ok? == opens;
      var tail := seq(|rest|, i requires 0 <= i < |rest| => rest[i].id);
      assert forall x :: x in tail ==> x in ids[1..];
      OrderedOneMore(ids, tail, keep);
      assert seq(|js|, i requires 0 <= i < |js| => js[i].id) == (if keep then [ids[0]] else []) + tail;
    }
  }

  lemma JobsInOrder(rows: Rows, cands: seq<Id>, tokens: T.Tokens, leases: map<Id, Lease>, kr: K.Keyring, dbNow: Time,
      appNow: Time)
    requires forall id :: id in cands ==> id in rows
    requires Openable(rows, LeasedIds(rows, cands, tokens, dbNow, appNow), leases)
    ensures InOrderOf(cands, Sift(rows, LeasedIds(rows, cands, tokens, dbNow, appNow), leases, kr, dbNow, true))
  {
    var ids := LeasedIds(rows, cands, tokens, dbNow, appNow);
    var js := Sift(rows, ids, leases, kr, dbNow, true);
    LeasedInOrder(rows, cands, tokens, dbNow, appNow);
    SiftInOrder(rows, ids, leases, kr, dbNow, true);
    var order := seq(|js|, i requires 0 <= i < |js| => js[i].id);
    forall i, k | 0 <= i < k < |order| ensures Before(cands, order[i], order[k]) {
      BeforeThrough(cands, ids, order[i], order[k]);
    }
  }

  lemma {:induction false} LeasedAreLeasable(rows: Rows, cands: seq<Id>, tokens: T.Tokens, dbNow: Time, appNow: Time)
    requires forall id :: id in cands ==> id in rows
    requires Distinct(cands)
    ensures var ids := LeasedIds(rows, cands, tokens, dbNow, appNow);
            && |ids| <= |cands| && Distinct(ids)
            && forall id :: id in ids <==> id in cands && Judge(rows[id], tokens, dbNow, appNow).Leasable?
  {
    if cands != [] {
      LeasedAreLeasable(rows, cands[1..], tokens, dbNow, appNow);
      var rest := LeasedIds(rows, cands[1..], tokens, dbNow, appNow);
      assert forall id :: id in cands <==> id == cands[0] || id in cands[1..];
      assert cands[0] !in rest;
    }
  }

  /** Every leased row becomes exactly one job, on the side its payload decides. */
  lemma {:induction false} SiftIs(rows: Rows, ids: seq<Id>, leases: map<Id, Lease>, kr: K.Keyring, now: Time,
      opens: bool)
    requires Openable(rows, ids, leases) && Distinct(ids)
    ensures var js := Sift(rows, ids, leases, kr, now, opens);
            && |js| <= |ids| && DistinctJobs(js)
            && (forall j :: j in js ==> IsSifted(rows, ids, leases, kr, now, opens, j))
  {
    if ids != [] {
      SiftIs(rows, ids[1..], leases, kr, now, opens);
      var js := Sift(rows, ids[1..], leases, kr, now, opens);
      forall j | j in js ensures IsSifted(rows, ids, leases, kr, now, opens, j) && j.id != ids[0] {
        assert IsSifted(rows, ids[1..], leases, kr, now, opens, j);
      }
      assert IsSifted(rows, ids, leases, kr, now, OpenBody(ids[0], rows[ids[0]], kr).Ok?,
                      Opened(ids[0], rows[ids[0]], leases[ids[0]], kr, now));
    }
  }

  ghost predicate IsSifted(rows: Rows, ids: seq<Id>, leases: map<Id, Lease>, kr: K.Keyring, now: Time, opens: bool,
      j: Job)
    requires Openable(rows, ids, leases)
  {
    && j.id in ids
    && OpenBody(j.id, rows[j.id], kr).Ok? == opens
    && j == Opened(j.id, rows[j.id], leases[j.id], kr, now)
  }

  lemma SidesDisjoint(rows: Rows, ids: seq<Id>, leases: map<Id, Lease>, kr: K.Keyring, now: Time)
    requires Openable(rows, ids, leases) && Distinct(ids)
    ensures Disjoint(Sift(rows, ids, leases, kr, now, false), Sift(rows, ids, leases, kr, now, true))
  {
    SiftIs(rows, ids, leases, kr, now, false);
    SiftIs(rows, ids, leases, kr, now, true);
    forall j, k | j in Sift(rows, ids, leases, kr, now, false) && k in Sift(rows, ids, leases, kr, now, true)
      ensures j.id != k.id
    {
      assert IsSifted(rows, ids, leases, kr, now, false, j) && IsSifted(rows, ids, leases, kr, now, true, k);
    }
  }

  /** Every leased row is on one of the two sides. */
  lemma {:induction false} EverySide(rows: Rows, ids: seq<Id>, leases: map<Id, Lease>, kr: K.Keyring, now: Time, id: Id)
    requires Openable(rows, ids, leases) && id in ids
    ensures exists j :: (j in Sift(rows, ids, leases, kr, now, true) || j in Sift(rows, ids, leases, kr, now, false))
                        && j.id == id && j.leaseToken == leases[id]
    decreases |ids|
  {
    if id == ids[0] {
      var j := Opened(id, rows[id], leases[id], kr, now);
      assert j in Sift(rows, ids, leases, kr, now, OpenBody(id, rows[id], kr).Ok?);
    } else {
      EverySide(rows, ids[1..], leases, kr, now, id);
    }
  }

  lemma {:induction false} SiftCounts(rows: Rows, ids: seq<Id>, leases: map<Id, Lease>, kr: K.Keyring, now: Time)
    requires Openable(rows, ids, leases)
    ensures |Sift(rows, ids, leases, kr, now, true)| + |Sift(rows, ids, leases, kr, now, false)| == |ids|
  {
    if ids != [] {
      SiftCounts(rows, ids[1..], leases, kr, now);
    }
  }
}
