# Sésamo, verified

A Dafny model of the parts of Sésamo whose correctness spans several statements, processes or years of maintenance:
the transactional email outbox and its workers, one-time links, provider webhooks, action-and-evidence transactions,
sessions, rate limiting and the bulk import.

`dafny verify dfyconfig.toml` checks everything.

## How it is organized

Every SQL statement is one function on a table (`OutboxTable`, `TokenTable`, `Session`, `RateLimit`). The classes
(`Outbox`, `Worker`, `TokenStore`, `Store`, `Server`, `Limiter`, `Importer`) hold the tables in mutable fields, follow the
source's control flow and are proved against those functions, and against what the operation is for, said without them:
field by field in `OutboxEffects`, table by table in `Accounts`, and in predicates of that kind beside each other class.
`Outbox`, `Worker`, `Server` and `Importer` also take the failures of their statements as parameters. The state machines (`Delivery`, `Timing`, `Links`, `Reconcile`, `SessionRaces`,
`Webhook`, the runs of `Audited`) interleave the same functions in any order and prove what holds in every run.

- `Keyring`, `Jobs`, `OutboxTable`, `OutboxEffects`, `Outbox`: the encrypted queue. `Delivery` is the protocol (workers that claim, send,
  finalize, skip what they cannot finalize, crash and stall; handlers that enqueue and supersede; webhooks; purges),
  `DeliveryInv` its inductive invariant, `DeliveryTheorems` what follows. `Timing` adds the timeouts, `LinkExpiry` sets them
  against the life of a link.
- `RetryPolicy`, `Worker`: classification, backoff, one worker cycle.
- `EventFold`, `EventTable`, `Reconcile`, `Webhook`: the event reducer, the stored events, its two-statement recording
  raced against the accepting finalize with callers failing anywhere, signatures and the replay guard.
- `TokenTable`, `Links`, `Accounts`, `Audited`: single use and supersession, links against the mails that carry them, the
  actions on accounts, and every failure point of the transactions that perform them.
- `Session`, `SessionRaces`: the store, serial and raced. `RateLimit`: buckets; `BucketPurge`: when purging them shows.
  `Import`: chunks against the plain import. `Text`: the string operations that headers and specs are parsed with.

## Assumptions

- A transaction is atomic, and `FOR UPDATE SKIP LOCKED` yields an arbitrary set of unlocked rows. Random ids, lease tokens,
  nonces and token hashes are new. Transactions of one kind on the same user serialize.
- The AEAD and the MAC are ideal: a ciphertext opens under exactly what it was sealed with, and no two contents share a MAC.
- Database and application clocks run as one monotone clock in `Delivery`, `Timing`, `Links`, `Reconcile` and `Webhook`;
  `Claim` may read an earlier database time and a later application time. `SessionRaces` needs no clock at all.
- In `Timing` a provider call takes at most 20 s, a finalize at most 5 s, and everything else of a batch together at most the
  20 s left of the lease. A process that stalls longer counts as crashed and does not wake up.
- `Reconcile.QuiescentRowIsJoin` is about runs without failures in which an acceptance comes within the 7-day retention of the
  first event of its message; `Reconcile.QuiescentRowIsRightIff` assumes neither.
- In `RateLimit` the calls on one bucket carry nondecreasing times. In `Import` a single-row insert fails exactly on the
  records the database refuses.
- In `Links.ClaimedLinkWorksIffReferenced` minting a token and queueing its mail take at most the one-minute margin.

## Where the code differs from what it says

- `internal/http/webhook.go:80-83` says that a failed recording is retried by the provider and the event is not lost.
  If the insert committed, the retry is swallowed as a duplicate (`Reconcile.RetryDoesNotRepair`, `Reconcile.LostBounce`).
  Nor does anything repeat a replay that broke off after its acceptance (`Reconcile.LostReplayIsNotRepaired`,
  `Reconcile.LostReplay`).
- `internal/email/webhook.go:40-43` lets a signature vouch for id, timestamp and body. It vouches for the three joined by dots,
  and a received id is not checked for dots: a body that starts with a number and a dot verifies, shortened, under a longer
  id and that number as its timestamp (`Webhook.DottedIdVerifies`). For ids without a dot it vouches for each
  (`Webhook.DotlessIsIdentical`).
- `internal/http/enduser.go:749-752` keeps the worker from delivering a link about to expire. The window is checked once per
  batch, and the margin also pays for the time between minting and queueing. So a mail goes out in time for certain exactly
  when that time, 25 s for each delivery before it in its batch and 20 s of overhead fit into the minute
  (`LinkExpiry.NeverLateIff`): with a prompt enqueue the first two mails of a batch. The fourth can start up to 35 s after
  its link has expired, and does in a run shown (`LinkExpiry.SendsStartNearExpiry`, `LinkExpiry.LateRunIsLate`).
- `internal/email/worker.go:175-176` retries only what fits the window. It counts from the provider's answer and allows the last
  instant, which the claim does not, so some retries are only ever retired (`RetryPolicy.RetryIsSentIff`,
  `RetryPolicy.RetryCanBePointless`).
- `internal/http/enduser.go:821-825` says that an error describes a state that is safe to retry. After a commit whose
  acknowledgement was lost a reset has happened and its repetition is refused (`Audited.FailedResetCanBeRepeated`).
- `README.md:176` describes strict mode without exception. Email verification spends, marks and records in three
  transactions (`Audited.VerifyHalfApplies`), the administrator's and the service's revocations delete and record in two
  (`Audited.RevokeHalfApplies`), and a session's lost evidence cannot be made up
  (`Audited.RepeatedRevocationRecordsNothing`).
- `internal/email/outbox.go:190-192` says that an already-spent link is canceled in the claim. Once its token is purged
  the row no longer refers to it and the mail goes out (`Links.ClaimedLinkWorksIffReferenced`, `Links.DeadLinkIsHandedOut`).
- `internal/email/outbox.go:489` says that an email.sent rescues a row whose accept was lost. Such a row has no
  message id to be found by, so the branch never matches (`DeliveryTheorems.OmittedGuardsAreImplied`).
- `internal/ratelimit/ratelimit.go:83-85` says that a purged bucket has refilled. That is so exactly when the rule refills
  within the purge age or never admits a call (`BucketPurge.PurgeIsInvisibleIff`); both login rules refill in time.
- `cmd/sesamo/import.go:159-162`: a read error drops the records of the unfinished chunk (`Import.Importer.RunImport`).

## Model

| member | source | states |
|---|---|---|
| OutboxTable.AadInjective | internal/email/outbox.go:627-632 | the associated data of a payload determines id, provider and purpose, with no bar in ids and purposes |
| OutboxTable.QueueKeeps | internal/email/outbox.go:118-140 | enqueueing keeps the row invariant and leaves other rows as superseded or untouched |
| OutboxTable.ClaimKeeps | internal/email/outbox.go:244-279 | a claim keeps the row invariant; rows only retire or gain an attempt and a lease |
| OutboxTable.FinalizeKeeps | internal/email/outbox.go:397-421 | no finalize breaks the row invariant or returns a row to pending |
| OutboxTable.ReduceKeeps | internal/email/outbox.go:491-533 | no event breaks the row invariant, walks a row back to pending or drops evidence |
| OutboxTable.PurgeKeeps | internal/email/outbox.go:606-614 | purging only deletes rows, and keeps the invariant of the rest |
| OutboxTable.ForgetKeeps | migrations/0003_email_outbox.sql:21-24 | deleting tokens only clears references |
| Keyring.ParseKeyring | internal/email/keyring.go:56-90 | a spec is accepted iff every entry parses and no id repeats; the first entry is active, the table holds exactly the listed keys, and a refusal names the first fault |
| Keyring.EntryIs | internal/email/keyring.go:62-76 | an entry lists, under the trimmed text before its first colon, what the first alphabet that accepts the trimmed rest decodes, if that has 32 bytes; the error otherwise |
| Keyring.ColonlessIsBad | internal/email/keyring.go:67-71 | an entry without a colon lists nothing and is refused |
| Keyring.RotatedSpecOverlaps | internal/email/keyring.go:20-23 | a key added in front of the spec seals, every older payload still opens, and instances on the old spec cannot open new payloads |
| Keyring.SpecPrepends | internal/email/keyring.go:62-68 | prepending an entry to a spec prepends it to the parsed entries |
| Jobs.LeasedAreLeasable | internal/email/outbox.go:244-256 | the leased ids are the distinct candidates judged leasable, both ways |
| Jobs.SiftIs | internal/email/outbox.go:302-341 | every job handed out is a leased row opened under its own lease, once |
| Jobs.JobsInOrder | internal/email/outbox.go:302-341 | jobs are handed out in the order of the candidates |
| Jobs.SiftCounts | internal/email/outbox.go:324-341 | opened and undecryptable jobs together are all the leased ones |
| Outbox.Outbox.QueueTx | internal/email/outbox.go:111-141 | fails and changes nothing without the active key; else every row pending for the user and purpose is canceled as superseded, at that time and with its payload gone, no other row moves, and the new row carries its input, ready at once, with a payload that opens to the body |
| Outbox.Outbox.Classify | internal/email/outbox.go:241-256 | the loop puts every candidate on the list of its verdict |
| Outbox.Outbox.RetireIds | internal/email/outbox.go:344-359 | each given job gets the status, its own stamp and the reason, and loses payload and lease; no other row moves |
| Outbox.ClaimInStatements | internal/email/outbox.go:258-280 | the three retirements and the lease update give every candidate what its own case says, all at once |
| OutboxEffects.ClaimClaimsAll | internal/email/outbox.go:241-280 | a candidate past its window expires, else one with twelve attempts fails, else one with a dead link is canceled, each with its stamp and reason, else it gains an attempt and a two-minute lease; no other row moves |
| Outbox.Outbox.ClaimTx | internal/email/outbox.go:193-309 | the table after the transaction, case by case; leasable are exactly the candidates in their window, with attempts left and no dead link |
| Outbox.Outbox.ClaimJobs | internal/email/outbox.go:193-342 | one job per candidate that can be sent and read, in candidate order, with the fields of its row; those that cannot be read are failed, unless that update fails too; every other candidate by its case, every other row as it was |
| Outbox.Outbox.Finalize | internal/email/outbox.go:394-437 | the row after each outcome (status, stamp, last error, availability), recorded iff the lease is held; after any failure of the update or of the replay; a recorded acceptance leaves its row right for the events stored for it; other rows move only by events of the same message |
| Outbox.Outbox.ReconcileEvents | internal/email/outbox.go:537-567 | folds the stored events of a message, in order, into the table, up to the statement that fails |
| Outbox.InOrderIs | internal/email/outbox.go:538-540 | the replay order is a permutation of the stored events by time of occurrence, and keeps table order within an instant |
| Outbox.ReduceAllIsFold | internal/email/outbox.go:561-565 | replaying events over the table folds them into exactly the rows of their message |
| Outbox.AcceptedThenReplayed | internal/email/outbox.go:433-435 | a row just accepted and replayed shows the join of the stored events, and a delivery stamp iff one says so |
| Outbox.Outbox.ReduceEvent | internal/email/outbox.go:491-533 | each row of the message takes the join with the event, in rank and in delivery stamp; no other row changes |
| OutboxEffects.ReduceHears | internal/email/outbox.go:491-533 | status, stamps and last error of each row of the message after each kind of event; no other row changes |
| Outbox.Outbox.RecordProviderEvent | internal/email/outbox.go:458-473 | stores an event iff its svix id is new, and reduces it unless a statement fails in between; what it then reports |
| Outbox.Outbox.PurgeFinished | internal/email/outbox.go:606-625 | what survives: unfinished jobs whose window ends at the cutoff or later, finished ones changed since, events received since; whichever of its deletes succeed; the count is what is gone |
| EventFold.FoldIsJoin | internal/email/outbox.go:475-533 | any event sequence folded into an accepted row gives failed if it holds a bad event, else delivered if it holds a delivery, else accepted, with evidence stamped iff it occurred |
| EventFold.FoldOrderFree | internal/email/outbox.go:475-490 | status and evidence depend on the kinds of events only: not on order or repetition |
| EventFold.ReplayIsIdle | internal/email/outbox.go:535-537 | replaying events already absorbed moves nothing, from any row |
| EventFold.LastErrorDependsOnOrder | internal/email/outbox.go:505-511 | last_error is order-dependent: a concrete pair of events |
| RetryPolicy.CeilingIsClippedDoubling | internal/email/worker.go:221-226 | the shift never leaves 64 bits and the ceiling is the exact doubling clipped at the cap |
| RetryPolicy.ClassifyIsTheReading | internal/email/worker.go:150-229 | the outcome recorded is the only one that reads: accepted under the receipt's id; retry iff the fault may pass, is not the clash, attempts are left and the delay (as asked up to 5 min, else drawn and at least 1 s) ends in the window; else failed with its own code, or the elapsed window |
| RetryPolicy.RetryIsSentIff | internal/email/worker.go:173-187 | a scheduled retry is sent by some later claim iff its delay, counted from the recording, ends strictly inside the window with the link alive |
| RetryPolicy.RetryCanBePointless | internal/email/worker.go:177-187 | any pending row: an error so late that the delay ends with the window schedules a retry that is never sent |
| Worker.Worker.Deliver | internal/email/worker.go:121-144 | one provider call under the job's key; if the lease is held and the update commits the row is accepted, requeued or failed as the answer reads, else as it was; other rows move only by events of the same message |
| Worker.Worker.RunOnce | internal/email/worker.go:106-118 | one call per openable job in claim order; every claimed row ends as its case, its payload, its provider's answer and the failures of its updates say; only rows whose update was rejected stay leased |
| DeliveryInv.RunKeepsInv | internal/email/outbox.go:193-437 | the inductive invariant of the protocol holds in every run |
| DeliveryTheorems.FinalizeLandsIffLatestClaim | internal/email/outbox.go:394-432 | in every run a finalize lands iff its row is still leased and its claim is the latest; then the row is pending; otherwise nothing changes |
| DeliveryTheorems.OmittedGuardsAreImplied | internal/email/outbox.go:397-421 | in every run pending iff payload stored, lease implies pending, known to the provider implies not pending; so the unguarded updates equal the guarded ones and email.sent changes nothing |
| DeliveryTheorems.LeavesPendingOnce | internal/email/outbox.go:118-127 | in every run each job leaves pending at most once and never returns |
| DeliveryTheorems.SameKeySameMessage | internal/email/outbox.go:156-159 | every provider call carries what was queued, and two calls share a key iff they are for the same job, through retries, recovery, key rotation and key ids that change their key |
| DeliveryTheorems.PayloadOpensIffKeyHeld | internal/email/keyring.go:92-146 | in every run a pending payload opens under a keyring iff it holds the sealing key under the stored id, and then to the queued body |
| DeliveryTheorems.SentAtMostTwelveTimes | internal/email/outbox.go:248-249 | each job is sent at most once per claim and at most twelve times |
| DeliveryTheorems.JobLifeIsFinite | internal/email/outbox.go:244-279 | at most 25 claims, retirements and finalizes ever touch a job, in any schedule |
| Timing.SendsNeverOverlap | internal/email/worker.go:18-33 | within the timeouts, while one worker sends a job no other sends it, holds it or can claim it |
| Timing.SendsStartNearWindow | internal/email/outbox.go:246 | a send starts less than 75 s plus the 20 s margin after the window its claim checked |
| LinkExpiry.SendsStartNearExpiry | internal/http/enduser.go:749-781 | in every timed run a mail starts less than its overrun after its link expires: 25 s per delivery before it, the overhead and the queueing gap, less the margin |
| LinkExpiry.LateRunIsLate | internal/http/enduser.go:749-781 | a run from empty tables that keeps every timeout and reaches that bound to the nanosecond, for every place in the batch and gap |
| LinkExpiry.NeverLateIff | internal/http/enduser.go:749-752 | in every timed run such a mail starts before its link expires iff gap, deliveries before it and overhead fit into the margin |
| Links.OneLinkSpentOnce | internal/email/token.go:61-82 | in every run one unconsumed token and one pending mail per user and purpose; replaced links are never spent, and no link twice |
| Links.SpendIsExact | internal/email/token.go:109-130 | in every run a consume spends exactly the one live token that matches, if any |
| Links.ClaimedLinkWorksIffReferenced | internal/email/outbox.go:200-256 | a link handed out is never expired or replaced, and works iff its row still refers to its token, that is, iff it was not spent |
| Links.DeadLinkIsHandedOut | migrations/0003_email_outbox.sql:21-24 | a link requested, spent and purged while its mail is pending is handed out |
| Reconcile.QuiescentRowIsRightIff | internal/email/outbox.go:426-473 | under any interleaving, callers failing anywhere and purges at any time, once nobody is between two statements a known row is right iff it absorbed the events that were dropped |
| Reconcile.QuiescentRowIsJoin | internal/email/outbox.go:426-473 | without failures and with replays inside the retention every known row ends up right |
| Reconcile.RetryDoesNotRepair | internal/email/outbox.go:459-472 | after a failure between insert and reduce the provider's retry changes nothing; status and delivery stamp are right iff the row already showed the event |
| Reconcile.LostReplayIsNotRepaired | internal/email/outbox.go:426-436 | after a failure between the accepting update and its replay the row is right iff no stored event said more than accepted |
| Reconcile.LostReplay | internal/email/outbox.go:426-436 | a run from empty tables after which a bounce recorded before the acceptance is invisible |
| Reconcile.LostBounce | internal/http/webhook.go:79-86 | a run from empty tables after which a recorded and retried bounce is invisible |
| Reconcile.QueueLeavesKnown | internal/email/outbox.go:118-140 | enqueueing leaves the rows the provider knows alone |
| Reconcile.ClaimLeavesKnown | internal/email/outbox.go:258-280 | so does a claim |
| Reconcile.FinalizeLeavesKnown | internal/email/outbox.go:406-421 | so do retries and failures |
| Reconcile.PurgesLeaveKnown | internal/email/outbox.go:606-614 | so do purges, but for deletions |
| Webhook.VerifySvix | internal/email/webhook.go:50-95 | accepts exactly the deliveries with all headers, a timestamp within the tolerance on either side, and the v1 signature of the received content under the secret's key among those listed; which error comes when |
| Webhook.DecodeSecretIs | internal/email/webhook.go:99-114 | the key of a secret: the first alphabet that makes a nonempty key of it, prefixed or not, trimmed |
| Webhook.SignatureVouches | internal/email/webhook.go:50-95 | whatever id, timestamp and bytes arrive, a signature verifies them iff they join to the content it was made for and are in time |
| Webhook.DotlessIsIdentical | internal/email/webhook.go:116-132 | a received id without a dot verifies iff id, timestamp and bytes are the ones signed, in time |
| Webhook.DottedIdVerifies | internal/email/webhook.go:71-77 | an id with a dot can verify for other bytes: a whole family of deliveries |
| Webhook.SignedContentInjective | internal/email/webhook.go:71-77 | the signed content determines what was signed, for ids without a dot |
| Webhook.RotationAccepts | internal/email/webhook.go:46-49 | a delivery signed with two secrets verifies under either |
| Webhook.ReplayGuard | internal/email/webhook.go:63-69 | in every run a signed id and timestamp is recorded at most once, iff twice the tolerance plus the handler's delay fits the retention |
| Webhook.DeployedGuard | cmd/sesamo/serve.go:103-107 | it does with the deployed limits |
| TokenTable.ConsumeIsExact | internal/email/token.go:109-130 | a consume changes the one matching row and makes it unspendable |
| TokenTable.PurgeIsInvisible | internal/email/token.go:132-143 | no later consume misses a purged token |
| TokenTable.TokenStore.IssueTx | internal/email/token.go:61-82 | exactly the open tokens of the user and purpose are spent, the new one ends one lifetime from now and is the only live one of them |
| TokenTable.TokenStore.ConsumeToken | internal/email/token.go:109-130 | returns the owner iff an unspent, unexpired token of that hash and purpose is there, and spends that one; else changes nothing |
| TokenTable.TokenStore.PurgeExpired | internal/email/token.go:136-143 | deletes exactly the expired and the spent tokens, which changes the answer of no later consume |
| Accounts.EffectFulfils | internal/http/enduser.go:525-717 | what each action does to tokens, mails, users and sessions and which evidence it owes, or why it is refused: a reset spends its link, sets its owner's password and closes exactly that user's sessions; likewise magic link, login, logout, disable and enable, and both requests |
| Accounts.ResetFulfils | internal/http/enduser.go:525-539 | a confirmed reset spends the one working link of that hash, sets its owner's password and nothing else of any user, closes that user's sessions and no other, and owes the evidence; without a working link it is refused |
| Accounts.MagicLinkFulfils | internal/http/enduser.go:652-673 | a confirmed magic link spends its link, marks the address proven and opens one session for its owner; refused without a working link, for a disabled account, or where no session can be inserted |
| Audited.Server.AuditedTx | internal/http/enduser.go:830-856 | state and error after any combination of failures, in both modes: no error means the action did all it promises with its evidence, an error that it did nothing unless the acknowledgement was lost |
| Audited.Server.Act | internal/http/enduser.go:525-539 | each action, statement by statement, does all it promises, or is refused for its reason, or stops at the failing statement |
| Audited.EvidenceMatchesActions | internal/http/enduser.go:813-829 | over any run with failures the tables are those of a faultless run of the actions that landed; in strict mode the evidence is theirs one by one in order, in best-effort mode a subsequence |
| Audited.FailedCallsLeaveNoTrace | internal/http/enduser.go:837-849 | any run equals the same run without the calls that reported an error, those with a lost acknowledgement excepted |
| Audited.FailedResetCanBeRepeated | internal/http/enduser.go:549-551 | a failed reset un-spends its link: repeating it works iff the acknowledgement was not lost |
| Audited.DisabledLinkRevives | internal/http/enduser.go:652-673 | a magic link refused for a disabled account opens a session after the account is enabled |
| Audited.LinkTakesEffectOnce | internal/email/token.go:100-107 | at most one confirmation of a link takes effect, whatever fails and is repeated |
| Audited.VerifyHalfApplies | internal/http/enduser.go:565-587 | email verification is all or nothing iff its consume did not happen or nothing but the acknowledgement of the evidence failed |
| Audited.Server.HandleVerify | internal/http/enduser.go:565-587 | its three transactions, each failing or losing its acknowledgement: whether the link is spent, the account marked and the evidence written |
| Audited.RevokeHalfApplies | internal/http/admin.go:31-41 | a revocation outside the scheme is all or nothing iff it did not happen, had nothing to revoke, or was acknowledged with its evidence written |
| Audited.RepeatedRevocationRecordsNothing | internal/http/service.go:69-86 | repeating a service revocation that took effect changes and records nothing |
| Audited.Server.HandleRevoke | internal/http/service.go:69-86 | the two transactions of either revocation, each failing or losing its acknowledgement: exactly which sessions go, and the evidence |
| Session.Store.Create | internal/session/session.go:100-115 | inserts a row with one lifetime iff the id is free and the user exists; else changes nothing |
| Session.Store.Validate | internal/session/session.go:122-191 | Valid iff the session and its owner are there, not disabled, and it has not run out; one idle for the threshold is then touched and extended as far as a lifetime and the cap allow; Expired deletes it; other sessions stay |
| Session.Store.Revoke | internal/session/session.go:214-223 | deletes the one session and names its owner |
| Session.Store.RevokeAllForUser | internal/session/session.go:235-238 | deletes exactly the user's sessions |
| Session.Store.Rotate | internal/session/session.go:196-201 | the old id is gone, the new one is in with one lifetime, other sessions stay |
| Session.Store.PurgeExpired | internal/session/session.go:242-248 | deletes exactly the expired sessions |
| Session.SerialRunSpacesWrites | internal/session/session.go:162-188 | in any serial run k writes take at least k thresholds, expiry never goes back, and stays within a lifetime of the last use and the cap |
| SessionRaces.CapSurvivesRaces | internal/config/config.go:296-302 | no interleaving passes created plus MaxLifetime, iff the cap is off or not below the lifetime |
| SessionRaces.RemovalIsFinal | internal/session/session.go:214-238 | a session removed by logout, reset or disable never returns, and later validations answer NotFound |
| SessionRaces.SurvivorsAreNew | internal/http/admin.go:69-81 | every session a user has after a disable was created after it |
| SessionRaces.DisabledIsNeverValid | internal/session/session.go:153-160 | while an account is disabled no validation that starts answers Valid |
| SessionRaces.ExpiredIsNeverValid | internal/session/session.go:157-160 | in every interleaving a call answers Valid iff what it saw was enabled and had not run out when it settled, its own failed update excepted |
| SessionRaces.LateLoginOutlivesDisable | internal/http/enduser.go:237-278 | a login that checked the switch too early inserts a session that is good after re-enabling |
| SessionRaces.RacingRenewalsCanGoBack | internal/session/session.go:170-176 | of two racing renewals the older decision landing last lowers the expiry, iff it was not pinned at the cap |
| RateLimit.Limiter.Allow | internal/ratelimit/ratelimit.go:35-81 | what the bucket holds after its clamped refill; a whole token is spent, or else the wait in which the missing part comes in is told |
| RateLimit.TokensStayWithin | internal/ratelimit/ratelimit.go:47-57 | no call sequence takes a bucket out of zero to capacity |
| RateLimit.WindowBound | internal/ratelimit/ratelimit.go:30-34 | after any earlier traffic a window admits at most capacity plus its refill |
| RateLimit.BurstIsExact | internal/ratelimit/ratelimit.go:62-71 | of simultaneous calls exactly the bucket's whole tokens are admitted |
| RateLimit.WaitIsExact | internal/ratelimit/ratelimit.go:73-80 | after a denial a lone call succeeds iff it waits as long as reported |
| RateLimit.Limiter.PurgeStaleBuckets | internal/ratelimit/ratelimit.go:88-96 | deletes exactly the stale buckets |
| BucketPurge.PurgeIsInvisibleIff | internal/ratelimit/ratelimit.go:83-96 | for any rules and purge age: callers get the same answers with purges at any times as with none iff every rule refills within the age or never admits a call |
| BucketPurge.LoginRulesSurvivePurge | internal/http/ratelimit.go:15-18 | with both login rules purging after a day is invisible |
| Import.Importer.ImportRow | internal/user/import.go:33-46 | created, skipped or failed, and the table |
| Import.Importer.ImportBatch | internal/user/import.go:56-80 | all or nothing, with the number created |
| Import.Importer.Flush | cmd/sesamo/import.go:93-124 | the table and counters are those of importing the chunk row by row, whether the batch commits, fails or loses its answer |
| Import.Importer.RunImport | cmd/sesamo/import.go:127-170 | whatever the chunk size and failing batches: existing users stay, every new user is as the first storable line for its email says, every storable line has its user, and failed counts the lines that cannot be stored; a read error keeps exactly the lines of the full chunks |
| Import.PlainImports | cmd/sesamo/import.go:128-158 | the plain import does that, with address, verified flag, name and hash (the second field where the first is empty) copied |
| Import.PlainAccounts | cmd/sesamo/import.go:128-158 | every nonblank line is counted once, and the table is that of the importable records |
| Import.ReRunIsIdle | cmd/sesamo/import.go:42-44 | a second run changes nothing and creates nobody |

## Left out

- HTTP routing, cookies, CSRF, templates, OAuth, configuration parsing, metrics and logging: no state the properties speak of.
- AES-GCM, HMAC, base64, Argon2 and the provider adapters: assumed through round-trip and injectivity facts.
- Row locks and isolation levels: two concurrent requests for one user's link are taken in some order.
- Deleting users, and the cascades that follow.
- The non-transactional `Issue` of the token store, `QueueStats`, and the bounded label of unknown event types: no caller or no effect on the tables.
- The stored sender: the claim does not read it back, so what a call carries is recipient, subject and body.
- Signup and OAuth login: the same transaction scheme with other statements. The details and address in an evidence row.
- The truncation of the wait to whole seconds in the Retry-After header.
- Rounding of the bucket's floating-point tokens: real numbers are used.
- Trimming treats ASCII white space only.
- Audited.Server.AuditedTx: a BEGIN and the statements inside the transaction either fail or succeed; only the commit can lose its acknowledgement.
- Worker.Worker.RunOnce: describes a cycle that nobody interferes with; interference is the subject of `Delivery`.
