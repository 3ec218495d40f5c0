/** One-time links: the tokens, and the jobs that carry them to their users. Handlers issue and spend tokens, the worker
    claims and finalizes jobs, maintenance purges both tables; each step is one committed transaction. */
module Links {
  import opened Base
  import opened OutboxTable
  import K = Keyring
  import T = TokenTable

  const SEND_BEFORE_MARGIN: Duration := MINUTE

  datatype Issued = Issued(userId: string, purpose: string, hash: string, expiresAt: Time)

  type Ledger = map<T.TokenId, Issued>

  /** The two tables, and what the run has done: every token issued, the token behind each job, the tokens spent in
      order, and the tokens a newer link replaced. */
  datatype State = State(
    clock: Time, tokens: T.Tokens, rows: Rows,
    issued: Ledger, links: map<Id, T.TokenId>, spent: seq<T.TokenId>, superseded: set<T.TokenId>)

  datatype Step =
    | Tick(d: Duration)
    | RequestLink(id: Id, tokenId: T.TokenId, hash: string, userId: string, purpose: string, to: string, from: string,
                  subject: string, body: string, provider: string, payload: K.Payload, ttl: Duration, issueAt: Time,
                      queueAt: Time)
    | Spend(hash: string, purpose: string)
    | PurgeTokens
    | ClaimJobs(provider: string, limit: nat, locked: set<Id>, cands: seq<Id>, leases: map<Id, Lease>, dbNow: Time,
        appNow: Time)
    | FinalizeJob(id: Id, lease: Lease, out: Outcome)
    | ProviderEvent(m: string, typ: EventType, at: Time)
    | PurgeFinished(olderThan: Duration)

  function Init(now: Time): State {
    State(now, map[], map[], map[], map[], [], {})
  }

  /** The enqueue of queueOneTimeLinkTx: the window closes a margin before the link does. */
  function LinkMail(c: Step): QueueInput
    requires c.RequestLink?
  {
    QueueInput(c.userId, c.tokenId, c.to, c.from, c.subject, c.body, c.purpose, c.provider,
        c.queueAt + (c.ttl - SEND_BEFORE_MARGIN))
  }

  ghost predicate Enabled(s: State, step: Step) {
    match step
    case Tick(d) => d >= 0
    case RequestLink(id, tokenId, hash, _, _, _, _, _, _, _, _, _, issueAt, queueAt) =>
      && id !in s.links && tokenId !in s.issued && tokenId != ""
      && (forall t :: t in s.issued ==> s.issued[t].hash != hash)
      && issueAt <= queueAt
    case ClaimJobs(provider, limit, locked, cands, leases, dbNow, appNow) =>
      && dbNow <= s.clock <= appNow && Selected(s.rows, provider, limit, locked, dbNow, cands)
      && (forall id :: id in cands ==> id in leases)
    case _ => true
  }

  /** The tokens the single-use UPDATE hits. */
  function Hits(tokens: T.Tokens, hash: string, purpose: string, now: Time): set<T.TokenId> {
    set t | t in tokens && T.Spendable(tokens[t], hash, purpose, now)
  }

  function Replaced(tokens: T.Tokens, userId: string, purpose: string): set<T.TokenId> {
    set t | t in tokens && tokens[t].userId == userId && tokens[t].purpose == purpose && tokens[t].consumedAt.None?
  }

  ghost function Apply(s: State, step: Step): State {
    if !Enabled(s, step) then s else
    match step
    case Tick(d) => s.(clock := s.clock + d)
    case RequestLink(id, tokenId, hash, userId, purpose, _, _, _, _, _, payload, ttl, issueAt, _) =>
      s.(tokens := T.Issue(s.tokens, tokenId, userId, hash, purpose, ttl, issueAt),
         rows := Queue(s.rows, id, LinkMail(step), payload, s.clock),
         issued := s.issued[tokenId := Issued(userId, purpose, hash, issueAt + ttl)],
         links := s.links[id := tokenId],
         superseded := s.superseded + Replaced(s.tokens, userId, purpose))
    case Spend(hash, purpose) =>
      var hit := Hits(s.tokens, hash, purpose, s.clock);
      if hit == {} then s
      else
        var t :| t in hit;
        s.(tokens := T.Consume(s.tokens, hash, purpose, s.clock), spent := s.spent + [t])
    case PurgeTokens =>
      var kept := T.Purge(s.tokens, s.clock);
      s.(tokens := kept, rows := ForgetTokens(s.rows, kept))
    case ClaimJobs(_, _, _, cands, leases, dbNow, appNow) =>
      if forall id :: id in cands ==>
          id in leases then s.(rows := Claim(s.rows, cands, s.tokens, leases, dbNow, appNow)) else s
    case FinalizeJob(id, lease, out) => s.(rows := Finalize(s.rows, id, lease, out, s.clock))
    case ProviderEvent(m, typ, at) => s.(rows := Reduce(s.rows, m, typ, at, s.clock))
    case PurgeFinished(olderThan) => s.(rows := Purge(s.rows, s.clock - olderThan))
  }

  ghost function Run(s: State, steps: seq<Step>): State
    decreases |steps|
  {
    if steps == [] then s else Run(Apply(s, steps[0]), steps[1..])
  }

  /** Minting the token and queueing its mail take less than the margin. */
  predicate Prompt(step: Step) {
    step.RequestLink? ==> step.queueAt - step.issueAt <= SEND_BEFORE_MARGIN
  }

  // ---- the invariant --------------------------------------------------------------------

  /** A stored token is the one that was issued; it is marked exactly when it was spent or replaced. */
  ghost predicate TokenOk(t: T.TokenId, tok: T.Token, issued: Ledger, spent: seq<T.TokenId>,
      superseded: set<T.TokenId>) {
    && t in issued && issued[t] == Issued(tok.userId, tok.purpose, tok.hash, tok.expiresAt)
    && (tok.consumedAt.Some? <==> t in spent || t in superseded)
  }

  /** Two unused tokens for one user and purpose. */
  predicate Rivals(a: T.Token, b: T.Token) {
    a.consumedAt.None? && b.consumedAt.None? && a.userId == b.userId && a.purpose == b.purpose
  }

  ghost predicate InvTokens(tokens: T.Tokens, issued: Ledger, spent: seq<T.TokenId>, superseded: set<T.TokenId>) {
    && (forall t :: t in tokens ==> TokenOk(t, tokens[t], issued, spent, superseded))
    && (forall t, u :: t in tokens && u in tokens && Rivals(tokens[t], tokens[u]) ==> t == u)
  }

  ghost predicate InvLedger(issued: Ledger, spent: seq<T.TokenId>, superseded: set<T.TokenId>) {
    && (forall t, u :: t in issued && u in issued && issued[t].hash == issued[u].hash ==> t == u)
    && (forall t :: t in spent ==> t in issued && t !in superseded)
    && (forall t :: t in superseded ==> t in issued)
    && (forall i, j :: 0 <= i < j < |spent| ==> spent[i] != spent[j])
  }

  /** A deleted token was dead. */
  ghost predicate InvDeleted(clock: Time, tokens: T.Tokens, issued: Ledger, spent: seq<T.TokenId>,
      superseded: set<T.TokenId>) {
    forall t :: t in issued && t !in tokens ==> issued[t].expiresAt <= clock || t in spent || t in superseded
  }

  /** A row refers to the token its mail carries until that token is deleted, and to none after. */
  ghost predicate RowLinked(id: Id, r: Row, tokens: T.Tokens, issued: Ledger, links: map<Id, T.TokenId>,
      superseded: set<T.TokenId>) {
    && id in links && links[id] in issued
    && r.userId == issued[links[id]].userId && r.purpose == issued[links[id]].purpose
    && r.tokenId == (if links[id] in tokens then Some(links[id]) else None)
    && (r.status.Pending? ==> links[id] !in superseded)
  }

  ghost predicate InvLinked(rows: Rows, tokens: T.Tokens, issued: Ledger, links: map<Id, T.TokenId>,
      superseded: set<T.TokenId>) {
    && TableInv(rows)
    && (forall id :: id in rows ==> RowLinked(id, rows[id], tokens, issued, links, superseded))
  }

  predicate BothPending(a: Row, b: Row) {
    a.status.Pending? && b.status.Pending? && a.userId == b.userId && a.purpose == b.purpose
  }

  ghost predicate InvOnePending(rows: Rows) {
    forall a, b :: a in rows && b in rows && BothPending(rows[a], rows[b]) ==> a == b
  }

  ghost predicate Inv(s: State) {
    && InvTokens(s.tokens, s.issued, s.spent, s.superseded)
    && InvLedger(s.issued, s.spent, s.superseded)
    && InvDeleted(s.clock, s.tokens, s.issued, s.spent, s.superseded)
    && InvLinked(s.rows, s.tokens, s.issued, s.links, s.superseded)
    && InvOnePending(s.rows)
  }

  /** No mail's send window outlasts its link. */
  ghost predicate InvWindow(rows: Rows, issued: Ledger, links: map<Id, T.TokenId>) {
    forall id :: id in rows && id in links && links[id] in issued ==> rows[id].sendBefore <= issued[links[id]].expiresAt
  }

  // ---- statements on rows alone ---------------------------------------------------------

  /** A statement that deletes nothing it should keep and leaves references alone. */
  ghost predicate RowsMove(rows: Rows, rows': Rows) {
    forall id :: id in rows' ==> id in rows && Steps(rows[id], rows'[id]) && rows'[id].tokenId == rows[id].tokenId
  }

  lemma MoveKeeps(s: State, rows': Rows)
    requires Inv(s) && RowsMove(s.rows, rows')
    ensures Inv(s.(rows := rows'))
    ensures InvWindow(s.rows, s.issued, s.links) ==> InvWindow(rows', s.issued, s.links)
  {
    forall id | id in rows' ensures RowInv(rows'[id])
        && RowLinked(id, rows'[id], s.tokens, s.issued, s.links, s.superseded) {
      assert Steps(s.rows[id], rows'[id]) && RowLinked(id, s.rows[id], s.tokens, s.issued, s.links, s.superseded);
    }
    assert forall id :: id in rows' ==> id in s.rows && Steps(s.rows[id], rows'[id]);
  }

  lemma RowStepKeeps(s: State, step: Step)
    requires Inv(s) && Enabled(s, step)
             && (step.ClaimJobs? || step.FinalizeJob? || step.ProviderEvent? || step.PurgeFinished?)
    ensures Inv(Apply(s, step))
    ensures InvWindow(s.rows, s.issued, s.links) ==> InvWindow(Apply(s, step).rows, s.issued, s.links)
  {
    match step {
      case ClaimJobs(_, _, _, cands, leases, dbNow, appNow) => ClaimMoves(s.rows, cands, s.tokens, leases, dbNow,
          appNow);
      case FinalizeJob(id, lease, out) => FinalizeMoves(s.rows, id, lease, out, s.clock);
      case ProviderEvent(m, typ, at) => ReduceMoves(s.rows, m, typ, at, s.clock);
      case PurgeFinished(olderThan) => PurgeMoves(s.rows, s.clock - olderThan);
    }
    MoveKeeps(s, Apply(s, step).rows);
  }

  lemma ClaimMoves(rows: Rows, cands: seq<Id>, tokens: T.Tokens, leases: map<Id, Lease>, dbNow: Time, appNow: Time)
    requires TableInv(rows) && forall id :: id in cands ==> id in leases && id in rows && rows[id].status.Pending?
    ensures RowsMove(rows, Claim(rows, cands, tokens, leases, dbNow, appNow))
  {
    forall id | id in rows
      ensures Steps(rows[id], Claim(rows, cands, tokens, leases, dbNow, appNow)[id])
      ensures Claim(rows, cands, tokens, leases, dbNow, appNow)[id].tokenId == rows[id].tokenId
    {
      SameSteps(rows[id]);
      if id in cands {
        ClaimRowKeeps(rows[id], tokens, leases[id], dbNow, appNow);
      }
    }
  }

  lemma FinalizeMoves(rows: Rows, id: Id, lease: Lease, out: Outcome, now: Time)
    requires TableInv(rows)
    ensures RowsMove(rows, Finalize(rows, id, lease, out, now))
  {
    assert id in rows ==> RowInv(rows[id]);
    forall k | k in rows ensures Steps(rows[k], Finalize(rows, id, lease, out, now)[k]) {
      SameSteps(rows[k]);
      if k == id && Matches(rows, id, lease, out) {
        FinalizeSteps(rows[id], out, now);
      }
    }
  }

  lemma ReduceMoves(rows: Rows, m: string, typ: EventType, at: Time, now: Time)
    requires TableInv(rows)
    ensures RowsMove(rows, Reduce(rows, m, typ, at, now))
  {
    forall k | k in rows ensures Steps(rows[k], Reduce(rows, m, typ, at, now)[k]) {
      SameSteps(rows[k]);
      if rows[k].providerMessageId == Some(m) {
        ReduceSteps(rows[k], typ, at, now);
      }
    }
  }

  lemma PurgeMoves(rows: Rows, cutoff: Time)
    requires TableInv(rows)
    ensures RowsMove(rows, Purge(rows, cutoff))
  {
    forall k | k in rows ensures Steps(rows[k], rows[k]) {
      SameSteps(rows[k]);
    }
  }

  lemma CancelMoves(rows: Rows, userId: string, purpose: string, now: Time)
    requires TableInv(rows)
    ensures RowsMove(rows, CancelPending(rows, userId, purpose, now))
  {
    CancelKeeps(rows, userId, purpose, now);
  }

  // ---- spending -------------------------------------------------------------------------

  /** The hash names one token, so the UPDATE spends at most one. */
  lemma SpendHitsOne(s: State, hash: string, purpose: string, now: Time, t: T.TokenId, u: T.TokenId)
    requires InvTokens(s.tokens, s.issued, s.spent, s.superseded) && InvLedger(s.issued, s.spent, s.superseded)
    requires t in Hits(s.tokens, hash, purpose, now) && u in Hits(s.tokens, hash, purpose, now)
    ensures t == u
  {
    assert TokenOk(t, s.tokens[t], s.issued, s.spent, s.superseded)
        && TokenOk(u, s.tokens[u], s.issued, s.spent, s.superseded);
  }

  lemma SpendKeeps(s: State, step: Step)
    requires Inv(s) && step.Spend?
    ensures Inv(Apply(s, step))
  {
    var hit := Hits(s.tokens, step.hash, step.purpose, s.clock);
    if hit != {} {
      var s' := Apply(s, step);
      var t := s'.spent[|s.spent|];
      assert t in hit;
      forall u | u in s.tokens ensures TokenOk(u, s'.tokens[u], s.issued, s'.spent, s.superseded) {
        assert TokenOk(u, s.tokens[u], s.issued, s.spent, s.superseded);
        if u in hit {
          SpendHitsOne(s, step.hash, step.purpose, s.clock, t, u);
        }
      }
      assert TokenOk(t, s.tokens[t], s.issued, s.spent, s.superseded);
      SpentLinked(s.rows, s.tokens, s'.tokens, s.issued, s.links, s.superseded);
    }
  }

  lemma SpentLinked(rows: Rows, tokens: T.Tokens, tokens': T.Tokens, issued: Ledger, links: map<Id, T.TokenId>,
      superseded: set<T.TokenId>)
    requires InvLinked(rows, tokens, issued, links, superseded) && tokens'.Keys == tokens.Keys
    ensures InvLinked(rows, tokens', issued, links, superseded)
  {
    forall id | id in rows ensures RowLinked(id, rows[id], tokens', issued, links, superseded) {
      assert RowLinked(id, rows[id], tokens, issued, links, superseded);
    }
  }

  lemma PurgedWereDead(s: State)
    requires InvTokens(s.tokens, s.issued, s.spent, s.superseded)
             && InvDeleted(s.clock, s.tokens, s.issued, s.spent, s.superseded)
    ensures InvTokens(T.Purge(s.tokens, s.clock), s.issued, s.spent, s.superseded)
    ensures InvDeleted(s.clock, T.Purge(s.tokens, s.clock), s.issued, s.spent, s.superseded)
  {
    forall t | t in s.tokens ensures TokenOk(t, s.tokens[t], s.issued, s.spent, s.superseded) {
    }
  }

  lemma ForgetLinked(rows: Rows, tokens: T.Tokens, kept: T.Tokens, issued: Ledger, links: map<Id, T.TokenId>,
      superseded: set<T.TokenId>)
    requires InvLinked(rows, tokens, issued, links, superseded) && kept.Keys <= tokens.Keys
    ensures InvLinked(ForgetTokens(rows, kept), kept, issued, links, superseded)
  {
    forall id | id in rows
      ensures RowInv(ForgetRow(rows[id], kept))
              && RowLinked(id, ForgetRow(rows[id], kept), kept, issued, links, superseded)
    {
      assert RowLinked(id, rows[id], tokens, issued, links, superseded);
      ForgetSteps(rows[id], kept);
    }
  }

  lemma PurgeTokensKeeps(s: State, step: Step)
    requires Inv(s) && step.PurgeTokens?
    ensures Inv(Apply(s, step))
    ensures InvWindow(s.rows, s.issued, s.links) ==> InvWindow(Apply(s, step).rows, s.issued, s.links)
  {
    PurgedWereDead(s);
    ForgetLinked(s.rows, s.tokens, T.Purge(s.tokens, s.clock), s.issued, s.links, s.superseded);
  }

  // ---- requesting -----------------------------------------------------------------------

  lemma SupersededTokens(s: State, c: Step)
    requires InvTokens(s.tokens, s.issued, s.spent, s.superseded) && InvLedger(s.issued, s.spent, s.superseded)
    requires InvDeleted(s.clock, s.tokens, s.issued, s.spent, s.superseded) && c.RequestLink? && Enabled(s, c)
    ensures var s' := Apply(s, c);
            && InvTokens(s'.tokens, s'.issued, s'.spent, s'.superseded)
            && InvLedger(s'.issued, s'.spent, s'.superseded)
            && InvDeleted(s'.clock, s'.tokens, s'.issued, s'.spent, s'.superseded)
  {
    var s' := Apply(s, c);
    var replaced := Replaced(s.tokens, c.userId, c.purpose);
    forall t | t in s.tokens ensures TokenOk(t, s.tokens[t], s.issued, s.spent, s.superseded) {
    }
    forall t | t in s'.tokens ensures TokenOk(t, s'.tokens[t], s'.issued, s'.spent, s'.superseded) {
      if t != c.tokenId {
        assert TokenOk(t, s.tokens[t], s.issued, s.spent, s.superseded);
        assert t in replaced <==> s'.tokens[t] != s.tokens[t];
      }
    }
  }

  lemma CancelledLinked(s: State, c: Step)
    requires InvTokens(s.tokens, s.issued, s.spent, s.superseded)
    requires InvLinked(s.rows, s.tokens, s.issued, s.links, s.superseded) && c.RequestLink? && Enabled(s, c)
    ensures var rows1 := CancelPending(s.rows, c.userId, c.purpose, s.clock);
            InvLinked(rows1, Apply(s, c).tokens, Apply(s, c).issued, Apply(s, c).links, Apply(s, c).superseded)
  {
    var rows1, s' := CancelPending(s.rows, c.userId, c.purpose, s.clock), Apply(s, c);
    CancelMoves(s.rows, c.userId, c.purpose, s.clock);
    forall id | id in rows1 ensures RowInv(rows1[id])
        && RowLinked(id, rows1[id], s'.tokens, s'.issued, s'.links, s'.superseded) {
      assert Steps(s.rows[id], rows1[id]) && RowLinked(id, s.rows[id], s.tokens, s.issued, s.links, s.superseded);
      assert s.links[id] in s.tokens ==> TokenOk(s.links[id], s.tokens[s.links[id]], s.issued, s.spent, s.superseded);
    }
  }

  lemma QueuedLinked(s: State, c: Step)
    requires InvTokens(s.tokens, s.issued, s.spent, s.superseded) && InvLedger(s.issued, s.spent, s.superseded)
    requires InvLinked(s.rows, s.tokens, s.issued, s.links, s.superseded) && c.RequestLink? && Enabled(s, c)
    ensures var s' := Apply(s, c); InvLinked(s'.rows, s'.tokens, s'.issued, s'.links, s'.superseded)
  {
    var s' := Apply(s, c);
    CancelledLinked(s, c);
    assert RowLinked(c.id, s'.rows[c.id], s'.tokens, s'.issued, s'.links, s'.superseded);
  }

  lemma RequestKeeps(s: State, c: Step)
    requires Inv(s) && c.RequestLink? && Enabled(s, c)
    ensures Inv(Apply(s, c))
  {
    SupersededTokens(s, c);
    QueuedLinked(s, c);
    OnePendingAfter(s.rows, c.id, LinkMail(c), c.payload, s.clock);
  }

  lemma OnePendingAfter(rows: Rows, id: Id, input: QueueInput, p: K.Payload, now: Time)
    requires InvOnePending(rows)
    ensures InvOnePending(Queue(rows, id, input, p, now))
  {
  }

  lemma RequestInWindow(s: State, c: Step)
    requires InvLinked(s.rows, s.tokens, s.issued, s.links, s.superseded) && InvWindow(s.rows, s.issued, s.links)
    requires c.RequestLink? && Enabled(s, c) && Prompt(c)
    ensures InvWindow(Apply(s, c).rows, Apply(s, c).issued, Apply(s, c).links)
  {
    var s' := Apply(s, c);
    forall id | id in s'.rows && id in s'.links && s'.links[id] in s'.issued
      ensures s'.rows[id].sendBefore <= s'.issued[s'.links[id]].expiresAt
    {
      if id != c.id {
        assert RowLinked(id, s.rows[id], s.tokens, s.issued, s.links, s.superseded);
      }
    }
  }

  // ---- every step, every run ------------------------------------------------------------

  lemma StepKeeps(s: State, step: Step)
    requires Inv(s)
    ensures Inv(Apply(s, step))
    ensures InvWindow(s.rows, s.issued, s.links) && Prompt(step) ==>
            InvWindow(Apply(s, step).rows, Apply(s, step).issued, Apply(s, step).links)
  {
    if Enabled(s, step) {
      match step
      case Tick(_) =>
      case RequestLink(_, _, _, _, _, _, _, _, _, _, _, _, _, _) =>
        RequestKeeps(s, step);
        if InvWindow(s.rows, s.issued, s.links) && Prompt(step) {
          RequestInWindow(s, step);
        }
      case Spend(_, _) => SpendKeeps(s, step);
      case PurgeTokens => PurgeTokensKeeps(s, step);
      case _ => RowStepKeeps(s, step);
    }
  }

  lemma {:induction false} RunKeeps(s: State, steps: seq<Step>)
    requires Inv(s)
    ensures Inv(Run(s, steps))
    ensures InvWindow(s.rows, s.issued, s.links) && (forall i :: 0 <= i < |steps| ==> Prompt(steps[i])) ==>
              InvWindow(Run(s, steps).rows, Run(s, steps).issued, Run(s, steps).links)
    decreases |steps|
  {
    if steps != [] {
      StepKeeps(s, steps[0]);
      RunKeeps(Apply(s, steps[0]), steps[1..]);
    }
  }

  lemma InitKeeps(now: Time)
    ensures Inv(Init(now)) && InvWindow(map[], map[], map[])
  {
  }

  // ---- theorems -------------------------------------------------------------------------

  /** In every run: one usable link and one pending mail per user and purpose; a replaced link is never spent and every
      link at most once; and a consume spends one token exactly when some token matches it. */
  lemma OneLinkSpentOnce(now: Time, steps: seq<Step>)
    ensures var s := Run(Init(now), steps);
            && (forall t, u :: t in s.tokens && u in s.tokens && Rivals(s.tokens[t], s.tokens[u]) ==> t == u)
            && (forall a, b :: a in s.rows && b in s.rows && BothPending(s.rows[a], s.rows[b]) ==> a == b)
            && (forall t :: t in s.superseded ==> t !in s.spent)
            && (forall i, j :: 0 <= i < j < |s.spent| ==> s.spent[i] != s.spent[j])
  {
    InitKeeps(now);
    RunKeeps(Init(now), steps);
  }

  /** Spending: with a live token of that hash and purpose exactly that one is spent, otherwise nothing changes. */
  lemma SpendIsExact(now: Time, steps: seq<Step>, hash: string, purpose: string)
    ensures var s := Run(Init(now), steps);
            var s' := Apply(s, Spend(hash, purpose));
            if exists t :: t in s.tokens && T.Spendable(s.tokens[t], hash, purpose, s.clock)
            then exists t :: t in s.tokens && T.Spendable(s.tokens[t], hash, purpose, s.clock)
                   && s'.spent == s.spent + [t] && s'.tokens == s.tokens[t := s.tokens[t].(consumedAt := Some(s.clock))]
            else s' == s
  {
    InitKeeps(now);
    RunKeeps(Init(now), steps);
    var s := Run(Init(now), steps);
    var s' := Apply(s, Spend(hash, purpose));
    var hit := Hits(s.tokens, hash, purpose, s.clock);
    assert forall t :: t in s.tokens && T.Spendable(s.tokens[t], hash, purpose, s.clock) ==> t in hit;
    if hit != {} {
      var t := s'.spent[|s.spent|];
      assert t in hit;
      forall u | u in hit ensures u == t {
        SpendHitsOne(s, hash, purpose, s.clock, t, u);
      }
      assert s'.tokens == s.tokens[t := s.tokens[t].(consumedAt := Some(s.clock))];
    }
  }

  /** Whether the link in a mail still works. */
  ghost predicate LinkWorks(s: State, t: T.TokenId, now: Time) {
    t in s.issued && t !in s.spent && t !in s.superseded && s.issued[t].expiresAt > now
  }

  /** What a claim hands out: never an expired or a replaced link, and a working one exactly when the row still
      refers to its token. Purging the token of a link that was already spent switches the check off, and then the mail
      goes out with a dead link. */
  lemma ClaimedLinkWorksIffReferenced(now: Time, steps: seq<Step>, c: Step, id: Id)
    requires forall i :: 0 <= i < |steps| ==> Prompt(steps[i])
    requires var s := Run(Init(now), steps);
             && c.ClaimJobs? && Enabled(s, c) && id in c.cands && id in s.rows
             && Judge(s.rows[id], s.tokens, c.dbNow, c.appNow).Leasable?
    ensures var s := Run(Init(now), steps);
            && id in s.links && s.links[id] in s.issued
            && s.issued[s.links[id]].expiresAt > c.appNow && s.links[id] !in s.superseded
            && (LinkWorks(s, s.links[id], c.appNow) <==> s.rows[id].tokenId.Some?)
            && (s.rows[id].tokenId.None? <==> s.links[id] in s.spent)
  {
    InitKeeps(now);
    RunKeeps(Init(now), steps);
    var s := Run(Init(now), steps);
    assert RowLinked(id, s.rows[id], s.tokens, s.issued, s.links, s.superseded);
    var t := s.links[id];
    assert t in s.tokens ==> TokenOk(t, s.tokens[t], s.issued, s.spent, s.superseded);
  }

  /** Such mails exist: any link that is requested, spent and purged while its mail is still pending is handed out. */
  lemma DeadLinkIsHandedOut(c: Step, lease: Lease)
    requires c.RequestLink? && Enabled(Init(c.issueAt), c) && c.queueAt == c.issueAt && c.ttl > SEND_BEFORE_MARGIN
    ensures var s := Run(Init(c.issueAt), [c, Spend(c.hash, c.purpose), PurgeTokens]);
            var claim := ClaimJobs(c.provider, 4, {}, [c.id], map[c.id := lease], c.issueAt, c.issueAt);
            && Enabled(s, claim) && c.id in s.rows && Judge(s.rows[c.id], s.tokens, c.issueAt, c.issueAt).Leasable?
            && c.id in s.links && !LinkWorks(s, s.links[c.id], c.issueAt)
  {
    AfterRequest(c);
    var s1 := Apply(Init(c.issueAt), c);
    AfterSpend(s1, c);
    AfterPurge(Apply(s1, Spend(c.hash, c.purpose)), c);
    RunThree(Init(c.issueAt), c, Spend(c.hash, c.purpose), PurgeTokens);
  }

  lemma AfterSpend(s: State, c: Step)
    requires c.RequestLink? && c.ttl > 0 && s.clock == c.issueAt && s.spent == []
    requires s.tokens == map[c.tokenId := T.Token(c.userId, c.hash, c.purpose, c.issueAt + c.ttl, None)]
    ensures Apply(s, Spend(c.hash, c.purpose)) ==
            s.(tokens := map[c.tokenId := T.Token(c.userId, c.hash, c.purpose, c.issueAt + c.ttl, Some(c.issueAt))],
                spent := [c.tokenId])
  {
    assert Hits(s.tokens, c.hash, c.purpose, c.issueAt) == {c.tokenId};
  }

  lemma AfterPurge(s: State, c: Step)
    requires c.RequestLink? && s.rows == map[c.id := NewRow(LinkMail(c), c.payload, c.issueAt)]
    requires s.tokens == map[c.tokenId := T.Token(c.userId, c.hash, c.purpose, c.issueAt + c.ttl, Some(c.issueAt))]
    ensures Apply(s, PurgeTokens) ==
            s.(tokens := map[], rows := map[c.id := NewRow(LinkMail(c), c.payload, c.issueAt).(tokenId := None)])
  {
    assert T.Purge(s.tokens, s.clock) == map[];
  }

  lemma AfterRequest(c: Step)
    requires c.RequestLink? && Enabled(Init(c.issueAt), c)
    ensures var s1 := Apply(Init(c.issueAt), c);
            && s1.clock == c.issueAt && s1.links == map[c.id := c.tokenId] && s1.spent == []
            && s1.tokens == map[c.tokenId := T.Token(c.userId, c.hash, c.purpose, c.issueAt + c.ttl, None)]
            && s1.rows == map[c.id := NewRow(LinkMail(c), c.payload, c.issueAt)]
  {
  }

  lemma RunThree(s: State, a: Step, b: Step, c: Step)
    ensures Run(s, [a, b, c]) == Apply(Apply(Apply(s, a), b), c)
  {
    assert [a, b, c][1..] == [b, c] && [b, c][1..] == [c] && [c][1..] == [];
    assert Run(Apply(Apply(s, a), b), [c]) == Apply(Apply(Apply(s, a), b), c);
    assert Run(Apply(s, a), [b, c]) == Run(Apply(Apply(s, a), b), [c]);
  }
}
