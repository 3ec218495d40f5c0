/** Bulk import: records are inserted in batches, and a batch that fails is replayed row by row. The reference is the
    plain import, one record after the other in file order. */
module Import {
  import opened Base

  /** A line of the export, as the JSON decoder leaves it. */
  datatype Line = Blank | Malformed | Parsed(email: string, emailVerified: bool, passwordHash: string,
      passwordHash2: string, name: Option<string>)

  datatype Record = Record(email: string, emailVerified: bool, passwordHash: string, name: Option<string>)

  /** Users by canonical email: the column compares case-insensitively. */
  type Users = map<string, Record>

  /** What the database does with text: how it canonicalizes an email, and which records it refuses to store. */
  datatype Column = Column(canon: string -> string, bad: Record -> bool)

  datatype Outcome = Created | Skipped | Failed

  datatype Tally = Tally(users: Users, created: nat, skipped: nat, failed: nat)

  function ToRecord(l: Line): Record
    requires l.Parsed?
  {
    Record(l.email, l.emailVerified, if l.passwordHash != "" then l.passwordHash else l.passwordHash2, l.name)
  }

  predicate Importable(l: Line) {
    l.Parsed? && l.email != ""
  }

  // ---- the plain import -----------------------------------------------------------------

  function OutcomeOf(users: Users, rec: Record, col: Column): Outcome {
    if col.bad(rec) then Failed else if col.canon(rec.email) in users then Skipped else Created
  }

  function Count(t: Tally, rec: Record, col: Column): Tally {
    match OutcomeOf(t.users, rec, col)
    case Failed => t.(failed := t.failed + 1)
    case Skipped => t.(skipped := t.skipped + 1)
    case Created => t.(users := t.users[col.canon(rec.email) := rec], created := t.created + 1)
  }

  /** The records one after the other. */
  function Fold(t: Tally, recs: seq<Record>, col: Column): Tally
    decreases |recs|
  {
    if recs == [] then t else Fold(Count(t, recs[0], col), recs[1..], col)
  }

  function CountLine(t: Tally, l: Line, col: Column): Tally {
    if l.Blank? then t
    else if !Importable(l) then t.(failed := t.failed + 1)
    else Count(t, ToRecord(l), col)
  }

  /** The lines one after the other: the reference for the whole run. */
  function Plain(t: Tally, lines: seq<Line>, col: Column): Tally
    decreases |lines|
  {
    if lines == [] then t else Plain(CountLine(t, lines[0], col), lines[1..], col)
  }

  function Records(lines: seq<Line>): seq<Record> {
    if lines == [] then [] else (if Importable(lines[0]) then [ToRecord(lines[0])] else []) + Records(lines[1..])
  }

  function NonBlank(lines: seq<Line>): nat {
    if lines == [] then 0 else (if lines[0].Blank? then 0 else 1) + NonBlank(lines[1..])
  }

  function Start(users: Users): Tally {
    Tally(users, 0, 0, 0)
  }

  /** Counters only add up: where they start does not matter to the table or to what is added. */
  function Plus(t: Tally, created: nat, skipped: nat, failed: nat): Tally {
    Tally(t.users, t.created + created, t.skipped + skipped, t.failed + failed)
  }

  lemma {:induction false} FoldPlus(t: Tally, recs: seq<Record>, col: Column, c: nat, s: nat, f: nat)
    ensures Fold(Plus(t, c, s, f), recs, col) == Plus(Fold(t, recs, col), c, s, f)
    decreases |recs|
  {
    if recs != [] {
      assert Count(Plus(t, c, s, f), recs[0], col) == Plus(Count(t, recs[0], col), c, s, f);
      FoldPlus(Count(t, recs[0], col), recs[1..], col, c, s, f);
    }
  }

  lemma {:induction false} FoldAppend(t: Tally, a: seq<Record>, b: seq<Record>, col: Column)
    ensures Fold(t, a + b, col) == Fold(Fold(t, a, col), b, col)
    decreases |a|
  {
    if a == [] {
      assert a + b == b;
    } else {
      assert (a + b)[0] == a[0] && (a + b)[1..] == a[1..] + b;
      FoldAppend(Count(t, a[0], col), a[1..], b, col);
    }
  }

  lemma FoldOne(t: Tally, recs: seq<Record>, rec: Record, col: Column)
    ensures Fold(t, recs + [rec], col) == Count(Fold(t, recs, col), rec, col)
  {
    FoldAppend(t, recs, [rec], col);
    assert [rec][1..] == [];
    assert Fold(Count(Fold(t, recs, col), rec, col), [], col) == Count(Fold(t, recs, col), rec, col);
  }

  lemma {:induction false} PlainAppend(t: Tally, a: seq<Line>, l: Line, col: Column)
    ensures Plain(t, a + [l], col) == CountLine(Plain(t, a, col), l, col)
    ensures Records(a + [l]) == Records(a) + (if Importable(l) then [ToRecord(l)] else [])
    decreases |a|
  {
    if a == [] {
      assert a + [l] == [l] && [l][1..] == [];
      assert Plain(CountLine(t, l, col), [], col) == CountLine(t, l, col);
    } else {
      assert (a + [l])[0] == a[0] && (a + [l])[1..] == a[1..] + [l];
      PlainAppend(CountLine(t, a[0], col), a[1..], l, col);
    }
  }

  /** Every nonblank line is accounted for once, and the table is that of the importable records in file order. */
  lemma {:induction false} PlainAccounts(t: Tally, lines: seq<Line>, col: Column)
    ensures var r := Plain(t, lines, col);
            && r.created + r.skipped + r.failed == t.created + t.skipped + t.failed + NonBlank(lines)
            && r.users == Fold(t, Records(lines), col).users
            && r.created == Fold(t, Records(lines), col).created && r.skipped == Fold(t, Records(lines), col).skipped
    decreases |lines|
  {
    if lines != [] {
      var l := lines[0];
      PlainAccounts(CountLine(t, l, col), lines[1..], col);
      if Importable(l) {
        assert ([ToRecord(l)] + Records(lines[1..]))[1..] == Records(lines[1..]);
      } else {
        assert Records(lines) == Records(lines[1..]);
        if !l.Blank? {
          assert t.(failed := t.failed + 1) == Plus(t, 0, 0, 1);
          FoldPlus(t, Records(lines[1..]), col, 0, 0, 1);
        }
      }
    }
  }

  predicate AllGood(recs: seq<Record>, col: Column) {
    forall i :: 0 <= i < |recs| ==> !col.bad(recs[i])
  }

  predicate Settled(users: Users, recs: seq<Record>, col: Column) {
    forall i :: 0 <= i < |recs| && !col.bad(recs[i]) ==> col.canon(recs[i].email) in users
  }

  lemma {:induction false} FoldGrows(t: Tally, recs: seq<Record>, col: Column)
    ensures var r := Fold(t, recs, col);
            && (forall k :: k in t.users ==> k in r.users && r.users[k] == t.users[k])
            && Settled(r.users, recs, col)
            && r.created + r.skipped + r.failed == t.created + t.skipped + t.failed + |recs|
            && (AllGood(recs, col) ==> r.failed == t.failed)
    decreases |recs|
  {
    if recs != [] {
      FoldGrows(Count(t, recs[0], col), recs[1..], col);
    }
  }

  lemma {:induction false} FoldSettled(t: Tally, recs: seq<Record>, col: Column)
    requires Settled(t.users, recs, col)
    ensures var r := Fold(t, recs, col);
            && r.users == t.users && r.created == t.created
            && r.failed - t.failed == Fold(Start(map[]), recs, col).failed
    decreases |recs|
  {
    FailuresAreTheBad(t, recs, col, Start(map[]));
    if recs != [] {
      FoldSettled(Count(t, recs[0], col), recs[1..], col);
    }
  }

  /** Failures depend on the records alone. */
  lemma {:induction false} FailuresAreTheBad(t: Tally, recs: seq<Record>, col: Column, u: Tally)
    ensures Fold(t, recs, col).failed - t.failed == Fold(u, recs, col).failed - u.failed
    decreases |recs|
  {
    if recs != [] {
      FailuresAreTheBad(Count(t, recs[0], col), recs[1..], col, Count(u, recs[0], col));
    }
  }

  /** A second run of the same records changes nothing, creates nobody, and fails on the same ones. */
  lemma ReRunIsIdle(users: Users, recs: seq<Record>, col: Column)
    ensures var first := Fold(Start(users), recs, col);
            var second := Fold(Start(first.users), recs, col);
            && second.users == first.users && second.created == 0 && second.failed == first.failed
            && second.skipped == first.created + first.skipped
  {
    FoldGrows(Start(users), recs, col);
    var first := Fold(Start(users), recs, col);
    FoldSettled(Start(first.users), recs, col);
    FoldGrows(Start(first.users), recs, col);
    FailuresAreTheBad(Start(users), recs, col, Start(first.users));
  }

  // ---- what the file says ---------------------------------------------------------------

  /** The user a line describes; the second field for the hash is looked at when the first is empty. */
  predicate Describes(l: Line, user: Record) {
    && l.Parsed? && user.email == l.email && user.emailVerified == l.emailVerified && user.name == l.name
    && (l.passwordHash == "" ==> user.passwordHash == l.passwordHash2)
    && (l.passwordHash != "" ==> user.passwordHash == l.passwordHash)
  }

  /** A line the column can store, as the user `user` under the canonical email `key`. */
  predicate Stores(l: Line, col: Column, key: string, user: Record) {
    Describes(l, user) && l.email != "" && !col.bad(user) && col.canon(l.email) == key
  }

  predicate Usable(l: Line, col: Column) {
    && l.Parsed? && l.email != ""
    && var hash := if l.passwordHash == "" then l.passwordHash2 else l.passwordHash;
       !col.bad(Record(l.email, l.emailVerified, hash, l.name))
  }

  /** The first line for `key` that can be stored is the one that describes `user`. */
  ghost predicate FirstFor(lines: seq<Line>, col: Column, key: string, user: Record) {
    exists i :: && 0 <= i < |lines| && Stores(lines[i], col, key, user)
                && forall j :: 0 <= j < i && Usable(lines[j], col) ==> col.canon(lines[j].email) != key
  }

  /** Who was there stays as they were; everybody new is as the first storable line for them says; and there is
      somebody for every storable line. */
  ghost predicate Imported(start: Users, lines: seq<Line>, col: Column, users: Users) {
    && (forall k :: k in start ==> k in users && users[k] == start[k])
    && (forall k :: k in users && k !in start ==> FirstFor(lines, col, k, users[k]))
    && (forall i :: 0 <= i < |lines| && Usable(lines[i], col) ==> col.canon(lines[i].email) in users)
  }

  /** Lines that say something, but nothing that can be stored. */
  function Unusable(lines: seq<Line>, col: Column): nat {
    if lines == [] then 0
    else (if lines[0].Blank? || Usable(lines[0], col) then 0 else 1) + Unusable(lines[1..], col)
  }

  lemma {:induction false} UnusableAppend(lines: seq<Line>, l: Line, col: Column)
    ensures Unusable(lines + [l], col) == Unusable(lines, col) + (if l.Blank? || Usable(l, col) then 0 else 1)
  {
    if lines == [] {
      assert lines + [l] == [l] && [l][1..] == [];
    } else {
      assert (lines + [l])[0] == lines[0] && (lines + [l])[1..] == lines[1..] + [l];
      UnusableAppend(lines[1..], l, col);
    }
  }

  lemma StillFirst(lines: seq<Line>, l: Line, col: Column, key: string, user: Record)
    requires FirstFor(lines, col, key, user)
    ensures FirstFor(lines + [l], col, key, user)
  {
    var i :| && 0 <= i < |lines| && Stores(lines[i], col, key, user)
             && forall j :: 0 <= j < i && Usable(lines[j], col) ==> col.canon(lines[j].email) != key;
    assert (lines + [l])[i] == lines[i];
    assert forall j :: 0 <= j < i ==> (lines + [l])[j] == lines[j];
  }

  lemma ImportedOneMore(start: Users, lines: seq<Line>, l: Line, col: Column, t: Tally)
    requires Imported(start, lines, col, t.users)
    ensures Imported(start, lines + [l], col, CountLine(t, l, col).users)
  {
    var users, more := CountLine(t, l, col).users, lines + [l];
    assert more[|lines|] == l && forall j :: 0 <= j < |lines| ==> more[j] == lines[j];
    forall k | k in users && k !in start ensures FirstFor(more, col, k, users[k]) {
      if k in t.users {
        StillFirst(lines, l, col, k, users[k]);
      } else {
        assert Stores(more[|lines|], col, k, users[k]);
      }
    }
  }

  /** The plain import stores what the file says, and its counters say what happened to the lines. */
  lemma {:induction false} PlainImports(start: Users, lines: seq<Line>, col: Column)
    ensures var r := Plain(Start(start), lines, col);
            && Imported(start, lines, col, r.users)
            && r.created == |r.users| - |start| && r.failed == Unusable(lines, col)
    decreases |lines|
  {
    if lines != [] {
      var front, l := lines[..|lines| - 1], lines[|lines| - 1];
      PlainImports(start, front, col);
      assert lines == front + [l];
      PlainAppend(Start(start), front, l, col);
      ImportedOneMore(start, front, l, col, Plain(Start(start), front, col));
      UnusableAppend(front, l, col);
    }
  }

  /** How many lines make a record. */
  function Importables(lines: seq<Line>): nat {
    if lines == [] then 0 else (if Importable(lines[0]) then 1 else 0) + Importables(lines[1..])
  }

  /** The records of a prefix of the lines, for every number of records. */
  lemma {:induction false} RecordsPrefix(lines: seq<Line>, m: nat) returns (n: nat)
    requires m <= |Records(lines)|
    ensures n <= |lines| && Records(lines[..n]) == Records(lines)[..m]
    ensures Importables(lines[..n]) == m && Importables(lines) == |Records(lines)|
    decreases |lines|
  {
    n := 0;
    if lines != [] {
      var first := if Importable(lines[0]) then 1 else 0;
      if m < first {
        var _ := RecordsPrefix(lines[1..], 0);
      } else {
        var n' := RecordsPrefix(lines[1..], m - first);
        n := n' + 1;
        assert lines[..n][1..] == lines[1..][..n'];
      }
    }
  }

  /** What a read error leaves: the lines up to the last that filled a chunk. */
  ghost predicate ImportedChunks(start: Users, lines: seq<Line>, chunk: nat, col: Column, users: Users)
    requires chunk > 0
  {
    exists n :: 0 <= n <= |lines| && FillsChunks(lines, n, chunk) && Imported(start, lines[..n], col, users)
  }

  /** The records of the first `n` lines fill chunks, and those of the rest do not fill another. */
  predicate FillsChunks(lines: seq<Line>, n: nat, chunk: nat)
    requires chunk > 0 && n <= |lines|
  {
    var filled := Importables(lines[..n]);
    filled / chunk * chunk == filled && filled <= Importables(lines) < filled + chunk
  }

  lemma ChunksFill(lines: seq<Line>, n: nat, chunk: nat, chunks: nat)
    requires chunk > 0 && n <= |lines| && Importables(lines[..n]) == chunks * chunk
    requires chunks * chunk <= Importables(lines) < chunks * chunk + chunk
    ensures FillsChunks(lines, n, chunk)
  {
    WholeChunks(chunks, chunk, 0);
  }

  lemma PrefixIsImported(start: Users, lines: seq<Line>, col: Column)
    ensures Imported(start, lines, col, Fold(Start(start), Records(lines), col).users)
  {
    PlainAccounts(Start(start), lines, col);
    PlainImports(start, lines, col);
  }

  lemma ChunksAreImported(start: Users, lines: seq<Line>, chunk: nat, col: Column)
    requires chunk > 0
    ensures ImportedChunks(start, lines, chunk, col, Fold(Start(start), FullChunks(lines, chunk), col).users)
  {
    var n := ChunkedPrefix(lines, chunk);
    PrefixIsImported(start, lines[..n], col);
  }

  lemma ChunkedPrefix(lines: seq<Line>, chunk: nat) returns (n: nat)
    requires chunk > 0
    ensures n <= |lines| && Records(lines[..n]) == FullChunks(lines, chunk) && FillsChunks(lines, n, chunk)
  {
    var chunks := FullChunksAre(lines, chunk);
    n := RecordsPrefix(lines, |FullChunks(lines, chunk)|);
    ChunksFill(lines, n, chunk, chunks);
  }

  lemma FullChunksAre(lines: seq<Line>, chunk: nat) returns (chunks: nat)
    requires chunk > 0
    ensures var recs, full := Records(lines), FullChunks(lines, chunk);
            |full| == chunks * chunk && |full| <= |recs| < |full| + chunk && full == recs[..|full|]
  {
    var total := |Records(lines)|;
    chunks := total / chunk;
    assert total == chunks * chunk + total % chunk;
  }

  /** What a run that read the whole file leaves. */
  ghost predicate ImportedAll(start: Users, lines: seq<Line>, col: Column, users: Users, created: nat, failed: nat,
      answered: bool) {
    Imported(start, lines, col, users) && failed == Unusable(lines, col) && (answered ==> created == |users| - |start|)
  }

  // ---- the importer ---------------------------------------------------------------------

  /** The environment's share in a batch of storable records: it commits, it fails with nothing kept, or it commits
      and the connection dies before the answer arrives. */
  datatype Fate = Committed | Aborted | AnswerLost

  class Importer {
    const col: Column
    /** Rows per batch: 500 as deployed, any positive number here. */
    const chunk: nat
    const fates: nat -> Fate
    var users: Users
    var pending: seq<Record>
    var created: nat
    var skipped: nat
    var failed: nat
    /** Batches sent so far, and how many of them lost their answer. */
    var batches: nat
    ghost var lost: nat

    constructor (users: Users, col: Column, chunk: nat, fates: nat -> Fate)
      requires chunk > 0
      ensures this.users == users && this.col == col && this.chunk == chunk && this.fates == fates
      ensures pending == [] && created == 0 && skipped == 0 && failed == 0 && lost == 0
    {
      this.users, this.col, this.chunk, this.fates := users, col, chunk, fates;
      pending, created, skipped, failed, batches, lost := [], 0, 0, 0, 0, 0;
    }

    method ImportRow(rec: Record) returns (outcome: Outcome)
      modifies this`users
      ensures outcome == OutcomeOf(old(users), rec, col)
      ensures outcome.Failed? <==> col.bad(rec)
      ensures outcome.Created? <==> !col.bad(rec) && col.canon(rec.email) !in old(users)
      ensures users == if outcome.Created? then old(users)[col.canon(rec.email) := rec] else old(users)
      ensures users == Count(Start(old(users)), rec, col).users
    {
      if col.bad(rec) {
        return Failed;
      }
      if col.canon(rec.email) in users {
        return Skipped;
      }
      users := users[col.canon(rec.email) := rec];
      return Created;
    }

    /** All or nothing. */
    method ImportBatch(recs: seq<Record>) returns (n: Option<nat>)
      modifies this`users, this`batches
      ensures batches == old(batches) + 1
      ensures n.Some? ==> AllGood(recs, col)
      ensures n.Some? || (AllGood(recs, col) && fates(old(batches)).AnswerLost?) ==>
              users == Fold(Start(old(users)), recs, col).users
      ensures n.Some? ==> n.value == Fold(Start(old(users)), recs, col).created && fates(old(batches)).Committed?
      ensures n.None? && !(AllGood(recs, col) && fates(old(batches)).AnswerLost?) ==> users == old(users)
    {
      var fate := fates(batches);
      batches := batches + 1;
      var tx := Start(users);
      var i := 0;
      while i < |recs|
        invariant 0 <= i <= |recs| && users == old(users) && batches == old(batches) + 1
        invariant AllGood(recs[..i], col)
        invariant tx == Fold(Start(users), recs[..i], col)
      {
        if col.bad(recs[i]) {
          assert !AllGood(recs, col);
          return None;
        }
        assert recs[..i + 1] == recs[..i] + [recs[i]];
        FoldOne(Start(users), recs[..i], recs[i], col);
        tx := Count(tx, recs[i], col);
        i := i + 1;
      }
      assert recs[..i] == recs;
      if fate.Aborted? {
        return None;
      }
      users := tx.users;
      return if fate.AnswerLost? then None else Some(tx.created);
    }

    /** The pending chunk as one batch, or row by row when the batch reports an error. Either way the table ends as the
        plain import leaves it; the split between created and skipped is exact unless an answer was lost. */
    method Flush()
      modifies this`users, this`batches, this`pending, this`created, this`skipped, this`failed, this`lost
      ensures pending == [] && lost >= old(lost)
      ensures FlushedInto(old(users), old(pending), col, users, created - old(created), skipped - old(skipped),
              failed - old(failed), lost == old(lost))
      ensures lost > old(lost) ==> fates(old(batches)).AnswerLost? && batches == old(batches) + 1
    {
      ghost var start, p := users, pending;
      ghost var r := Fold(Start(start), p, col);
      FoldGrows(Start(start), p, col);
      if |pending| == 0 {
        return;
      }
      var n := ImportBatch(pending);
      if n.Some? {
        created := created + n.value;
        skipped := skipped + (|pending| - n.value);
        pending := [];
        return;
      }
      ghost var resumed := users;
      if AllGood(p, col) && fates(old(batches)).AnswerLost? {
        ReRunIsIdle(start, p, col);
        lost := lost + 1;
      }
      Replay();
    }

    /** Row by row. */
    method Replay()
      modifies this`users, this`pending, this`created, this`skipped, this`failed
      ensures pending == []
      ensures Tally(users, created, skipped, failed) ==
              Plus(Fold(Start(old(users)), old(pending), col), old(created), old(skipped), old(failed))
    {
      ghost var start, p := users, pending;
      var i := 0;
      while i < |pending|
        invariant 0 <= i <= |pending| && pending == p
        invariant Tally(users, created, skipped, failed) ==
                  Plus(Fold(Start(start), p[..i], col), old(created), old(skipped), old(failed))
      {
        assert p[..i + 1] == p[..i] + [p[i]];
        FoldOne(Start(start), p[..i], p[i], col);
        var outcome := ImportRow(pending[i]);
        match outcome {
          case Failed => failed := failed + 1;
          case Created => created := created + 1;
          case Skipped => skipped := skipped + 1;
        }
        i := i + 1;
      }
      assert p[..i] == p;
      pending := [];
    }

    /** The whole run. `readError` is a scanner error after the last line: the run then stops with the pending chunk
        unflushed, so exactly the records of the full chunks are in. */
    method RunImport(lines: seq<Line>, readError: bool) returns (exit: int)
      requires pending == [] && created == 0 && skipped == 0 && failed == 0 && lost == 0 && chunk > 0
      modifies this
      ensures readError ==> exit == 1 && users == Fold(Start(old(users)), FullChunks(lines, chunk), col).users
      ensures !readError ==> Complete(old(users), lines, col, users, created, skipped, failed, lost == 0)
      ensures !readError ==> (exit == 0 <==> failed == 0)
      ensures if readError then ImportedChunks(old(users), lines, chunk, col, users)
              else ImportedAll(old(users), lines, col, users, created, failed, lost == 0)
    {
      ghost var u0, flushed, chunks := users, [], 0;
      var line := 0;
      while line < |lines|
        invariant 0 <= line <= |lines| && |pending| < chunk && |flushed| == chunks * chunk
        invariant Progress(u0, lines[..line], flushed, col, users, pending, created, skipped, failed, lost == 0)
      {
        assert lines[..line + 1] == lines[..line] + [lines[line]];
        flushed, chunks := TakeLine(lines[line], u0, lines[..line], flushed, chunks);
        line := line + 1;
      }
      assert lines[..line] == lines;
      if readError {
        OnlyFullChunks(u0, lines, flushed, col, users, pending, created, skipped, failed, lost == 0, chunk, chunks);
        ChunksAreImported(u0, lines, chunk, col);
        return 1;
      }
      ghost var rest := pending;
      FlushOnto(u0, lines, flushed);
      AllFlushed(u0, lines, flushed + rest, col, users, created, skipped, failed, lost == 0);
      CompleteIsAll(u0, lines, col, users, created, skipped, failed, lost == 0);
      return if failed > 0 then 1 else 0;
    }

    /** One turn of the scan loop. */
    method TakeLine(l: Line, ghost start: Users, ghost done: seq<Line>, ghost flushed: seq<Record>, ghost chunks: nat)
      returns (ghost flushed': seq<Record>, ghost chunks': nat)
      requires Progress(start, done, flushed, col, users, pending, created, skipped, failed, lost == 0)
      requires |pending| < chunk && |flushed| == chunks * chunk
      modifies this`users, this`batches, this`pending, this`created, this`skipped, this`failed, this`lost
      ensures Progress(start, done + [l], flushed', col, users, pending, created, skipped, failed, lost == 0)
      ensures |pending| < chunk && |flushed'| == chunks' * chunk
    {
      flushed', chunks' := flushed, chunks;
      NextLine(start, done, l, flushed, col, users, pending, created, skipped, failed, lost == 0);
      if l.Blank? {
        return;
      }
      if l.Malformed? {
        failed := failed + 1;
        return;
      }
      if l.email == "" {
        failed := failed + 1;
        return;
      }
      pending := pending + [ToRecord(l)];
      if |pending| >= chunk {
        flushed', chunks' := flushed + pending, chunks + 1;
        FlushOnto(start, done + [l], flushed);
      }
    }

    /** A flush in the middle of a run. */
    method FlushOnto(ghost start: Users, ghost done: seq<Line>, ghost flushed: seq<Record>)
      requires Progress(start, done, flushed, col, users, pending, created, skipped, failed, lost == 0)
      modifies this`users, this`batches, this`pending, this`created, this`skipped, this`failed, this`lost
      ensures pending == []
      ensures Progress(start, done, flushed + old(pending), col, users, pending, created, skipped, failed, lost == 0)
    {
      Flush();
      NextChunk(start, done, flushed, col, old(users), old(pending), old(created), old(skipped), old(failed),
                old(lost) == 0, users, created, skipped, failed, lost == 0);
    }
  }

  /** The outcome of a run that read the whole file. */
  predicate Complete(start: Users, lines: seq<Line>, col: Column, users: Users, created: nat, skipped: nat,
      failed: nat, answered: bool) {
    var r := Plain(Start(start), lines, col);
    && users == r.users && failed == r.failed
    && created + skipped + failed == NonBlank(lines)
    && created <= r.created && (answered ==> created == r.created && skipped == r.skipped)
  }

  lemma CompleteIsAll(start: Users, lines: seq<Line>, col: Column, users: Users, created: nat, skipped: nat,
      failed: nat, answered: bool)
    requires Complete(start, lines, col, users, created, skipped, failed, answered)
    ensures ImportedAll(start, lines, col, users, created, failed, answered)
  {
    PlainImports(start, lines, col);
  }

  function FullChunks(lines: seq<Line>, chunk: nat): seq<Record>
    requires chunk > 0
  {
    var recs := Records(lines);
    WholeChunks(|recs| / chunk, chunk, |recs| % chunk);
    recs[..|recs| / chunk * chunk]
  }

  function Failures(recs: seq<Record>, col: Column): nat {
    Fold(Start(map[]), recs, col).failed
  }

  /** What a flush adds: the table is exact, and so are the counters but for the split between created and skipped
      when an answer was lost. */
  predicate FlushedInto(start: Users, recs: seq<Record>, col: Column, users: Users, created: int, skipped: int,
      failed: int, answered: bool) {
    var r := Fold(Start(start), recs, col);
    && users == r.users && failed == r.failed
    && created + skipped == r.created + r.skipped
    && 0 <= created <= r.created && (answered ==> created == r.created)
  }

  /** The lines done are the flushed records, which are in the table and in the counters, and the pending ones. */
  predicate Progress(start: Users, done: seq<Line>, flushed: seq<Record>, col: Column,
                     users: Users, pending: seq<Record>, created: nat, skipped: nat, failed: nat, answered: bool) {
    var r := Fold(Start(start), flushed, col);
    && Records(done) == flushed + pending
    && users == r.users && created + skipped == r.created + r.skipped
    && created <= r.created && (answered ==> created == r.created)
    && failed + Failures(pending, col) == Plain(Start(start), done, col).failed
  }

  lemma NextLine(start: Users, done: seq<Line>, l: Line, flushed: seq<Record>, col: Column,
                 users: Users, pending: seq<Record>, created: nat, skipped: nat, failed: nat, answered: bool)
    requires Progress(start, done, flushed, col, users, pending, created, skipped, failed, answered)
    ensures if l.Blank? then
              Progress(start, done + [l], flushed, col, users, pending, created, skipped, failed, answered)
            else if !Importable(l) then
              Progress(start, done + [l], flushed, col, users, pending, created, skipped, failed + 1, answered)
            else
              Progress(start, done + [l], flushed, col,
                       users, pending + [ToRecord(l)], created, skipped, failed, answered)
  {
    PlainAppend(Start(start), done, l, col);
    if Importable(l) {
      FailAppend(pending, ToRecord(l), col, Plain(Start(start), done, col));
      assert flushed + (pending + [ToRecord(l)]) == (flushed + pending) + [ToRecord(l)];
    } else {
      assert Records(done) + [] == Records(done);
    }
  }

  lemma NextChunk(start: Users, done: seq<Line>, flushed: seq<Record>, col: Column,
                  users: Users, pending: seq<Record>, created: nat, skipped: nat, failed: nat, answered: bool,
                  users': Users, created': nat, skipped': nat, failed': nat, answered': bool)
    requires Progress(start, done, flushed, col, users, pending, created, skipped, failed, answered)
             && (answered' ==> answered)
    requires FlushedInto(users, pending, col, users', created' - created, skipped' - skipped, failed' - failed,
             answered')
    ensures Progress(start, done, flushed + pending, col, users', [], created', skipped', failed', answered')
  {
    FlushAdds(start, flushed, pending, col);
    assert (flushed + pending) + [] == flushed + pending;
  }

  lemma AllFlushed(start: Users, lines: seq<Line>, flushed: seq<Record>, col: Column,
                   users: Users, created: nat, skipped: nat, failed: nat, answered: bool)
    requires Progress(start, lines, flushed, col, users, [], created, skipped, failed, answered)
    ensures Complete(start, lines, col, users, created, skipped, failed, answered)
  {
    assert flushed + [] == flushed;
    PlainAccounts(Start(start), lines, col);
  }

  lemma OnlyFullChunks(start: Users, lines: seq<Line>, flushed: seq<Record>, col: Column,
                       users: Users, pending: seq<Record>, created: nat, skipped: nat, failed: nat, answered: bool,
                           chunk: nat, chunks: nat)
    requires Progress(start, lines, flushed, col, users, pending, created, skipped, failed, answered)
    requires |pending| < chunk && |flushed| == chunks * chunk
    ensures users == Fold(Start(start), FullChunks(lines, chunk), col).users
  {
    WholeChunks(chunks, chunk, |pending|);
    assert FullChunks(lines, chunk) == flushed;
  }

  lemma WholeChunks(chunks: nat, chunk: nat, rest: nat)
    requires rest < chunk
    ensures (chunks * chunk + rest) / chunk * chunk == chunks * chunk
  {
    var n := chunks * chunk + rest;
    var q := n / chunk;
    TimesMonotone(q + 1, chunks, chunk);
    TimesMonotone(chunks + 1, q, chunk);
    assert (chunks + 1) * chunk == chunks * chunk + chunk && (q + 1) * chunk == q * chunk + chunk;
  }

  lemma TimesMonotone(a: int, b: int, c: nat)
    ensures a <= b ==> a * c <= b * c
  {
  }

  lemma FailAppend(recs: seq<Record>, rec: Record, col: Column, t: Tally)
    ensures Failures(recs + [rec], col) - Failures(recs, col) == Count(t, rec, col).failed - t.failed
  {
    FoldOne(Start(map[]), recs, rec, col);
  }

  lemma FlushAdds(start: Users, flushed: seq<Record>, chunk: seq<Record>, col: Column)
    ensures var r := Fold(Start(start), flushed, col);
            && Fold(Start(start), flushed + chunk, col) ==
                Plus(Fold(Start(r.users), chunk, col), r.created, r.skipped, r.failed)
            && Fold(Start(r.users), chunk, col).failed == Failures(chunk, col)
  {
    var r := Fold(Start(start), flushed, col);
    FoldAppend(Start(start), flushed, chunk, col);
    assert r == Plus(Start(r.users), r.created, r.skipped, r.failed);
    FoldPlus(Start(r.users), chunk, col, r.created, r.skipped, r.failed);
    FailuresAreTheBad(Start(r.users), chunk, col, Start(map[]));
  }
}
