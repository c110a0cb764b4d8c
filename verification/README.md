# The closed-alpha approval and signup-grant protocol

This project models the marketing API's approval protocol and proves what it promises. Three
stores take part: the PostgreSQL tables of submissions, review capabilities and signup grants; the
protected-token store that keeps plaintext tokens under references; and the mailer. Calls of
`Submit`, `Approve`, `Decline`, `ClaimGrant`, `ConsumeGrant` and `ReleaseGrant` run at the same
time, fail at any step, and crash between steps.

`dafny verify dfyconfig.toml` checks everything. Nothing is run.

## How the modules fit together

| layer | modules | content |
|---|---|---|
| tables | `Schema` | rows, CHECK and UNIQUE constraints of migrations 1 and 3, the backfill, and the stronger invariant `Valid` |
| atomic specification | `Transactions`, `Lifecycle`, `Answers` | each transaction executed alone: the branches it takes and the SQL statements it issues; `Exec`; and what it answers and writes, column by column, in every case |
| whole runs | `Runs`, `Leases`, `Decisions`, `Window` | safety over every sequence of requests, for arbitrary clock readings |
| statements and locks | `Interleaving`, `Serializability`, `Progress`, `Workers` | any number of clients, statement by statement, under row locks, unique-index waits and the advisory lock; their log is a serial run of `Exec`, every serial run is such a log, and a client whose keys are free finishes |
| two stores | `Tokens`, `Publishing`, `Protocol`, `Messages`, `Coherence`, `Quiescence`, `Leaks`, `Aftermath`, `LostCommits` | calls with program counters over the token store, the database and the mailer |
| all together | `Composition`, `Realisation`, `Crashes`, `Clocks` | the calls over the statement-level database, refining `Protocol` and realising its runs |
| pure parts | `Text`, `Json`, `Fingerprint`, `Normalization` | normalisation, the payload encoding, the fingerprint |
| the code itself | `Store`, `Services` | the store and the services as classes with methods, statement by statement |
| counters | `PageViews` | `RecordVisit` and `GetCounts`, interleaved and as a class |

Two machines carry the concurrency. In `Interleaving` one step is one SQL statement, a commit, an
abort or a rollback, and `Serialisable` shows that the committed state and every answer are those
of running the logged transactions alone, in log order. So each theorem of `Runs`, `Leases`,
`Decisions` and `Window` about a sequence of requests is a theorem about concurrent clients;
`Workers` and `Window.WindowInterleaved` spell some of them out. The machine does not merely fail
safely: `Progress.Completes` shows that a client whose keys nobody holds finishes by its own steps
with the specified effect and answer, and `Progress.EverySerialRun` that every sequence of requests
is the log of some run. `Answers` says what those effects and answers are, without speaking of plans
or statements. In `Protocol` one step is one
action of one call: a put, a transaction, a delete, a read, the digest comparison, a delivery, or a
crash. `Composition.Refines` replaces the transaction step by the statement-level machine and shows that
nothing new becomes visible; `Realisation.Realises` shows the converse, that nothing gets lost; a
call that crashes while its transaction runs is covered by `Crashes.CrashIsCovered`. The classes in
`Store` and `Services` are proved to be executions of `Exec` and of `Protocol`, so that the theorems
speak of that code; and the services' contracts also say in rows, tokens and messages, without
reference to either machine, what a call comes to when the database does not fail.

Environment steps that the service has no function for, but the schema allows and the integration
tests perform, are included: an operator may revoke or expire a review or a grant
(`CloseReview`, `CloseGrant`), and every invariant survives them.

## Assumptions

- SHA-256 is any function from texts to 32-byte digests. Collisions are excluded only where a
  contract says so, and then only between the two texts concerned.
- A commit may take effect although its client sees an error. Theorems that such a loss can break
  exclude the harmful losses only (`Coherence.Harmful`: an approval that inserted its grant or a
  submission that inserted its review), by requiring that `orphaned` is false; it records exactly
  whether one has happened (`Leaks.FlagsIff`).
- `unicode.ToLower` is idempotent, keeps spaces and non-spaces apart, and is ASCII lower-casing on
  ASCII. `mail.ParseAddress` is any partial function.
- A clock reading is an integer. No reading is related to another unless a contract relates them.
- Clients see committed rows and their own; a locking read, an UPDATE and a unique-index insert
  wait for the holder; a commit is atomic.

## What turned out to need a condition

- Leases are disjoint in release-free stretches, for clock readings in any order
  (`Leases.LeasesDisjoint`). Over a whole run they are disjoint and increasing if and only if every
  claim after a release reads its clock no earlier than the end of the lease given up
  (`Leases.ExclusiveIff`). The branch of `ClaimGrant` for active grants, which such claims take
  (`Leases.FoundActive`), has no such guard, since the release has cleared the column: claim,
  release, claim succeeds at all readings before the expiry
  (`Leases.LeasesMayOverlapAfterRelease`).
- A grant has one holder at a time, a lease counting up to its release, if every claim finds all
  earlier ones over. If no worker's clock goes back between its claim and its release, that is so
  if and only if each claim after a release reads its clock no earlier than that release or that
  lease's end (`Leases.HandsOverIff`, `Leases.OneHolder`); one non-decreasing clock is enough.
- The duplicate window holds if a transaction starts no earlier than the clock reading its cut-off
  was computed from. A well-formed submission of either kind keeps every separated database
  separated if and only if it starts at least the window after its cut-off
  (`Window.ClockConditionExact`).
- A commit that takes effect while its client sees an error can break store coherence, in two
  places: `Approve` and `Submit` both delete their own token on any repository error
  (internal/approvals/service.go:169-172, internal/submissions/submission.go:195-199), although the
  row that names it may be there (`LostCommits.LostCommitDangles`,
  `LostCommits.LostSubmitDangles`; of the code itself, `Services.Service.Approve` and
  `Services.Service.Submit`). A transaction and its call's cleanup leave the stores coherent if and
  only if its commit was not lost, or it had found no review to decide with an insertable grant and
  no empty window with a storable submission (`LostCommits.LossIsExact`). Over a whole run every
  cleanup spares every live token if and only if no such loss has happened
  (`LostCommits.CoherentIff`). Both losses are reachable. A lost consumption, a lost waitlist
  submission and a lost replay, rejection or duplicate are harmless to coherence; the lost
  consumption leaves a token behind.
- After a lost approval the application gets no message, and every call through its review ends in
  an error or reports the token unavailable (`Aftermath.LostIsUnavailable`): the latter exactly
  while the review is decided and not expired (`Aftermath.RetryReportsUnavailable`). The same holds
  once a consumed grant's token has been cleaned up. After a lost submission the review team is
  never told of the application (`LostCommits.LostSubmitIsNeverAnnounced`).
- The stored references are exactly those of live rows once no call is in flight, unless a call
  crashed, a delete failed or a consumption was lost (`Quiescence.NothingLeaks`). These exceptions
  are needed: a token whose call crashes before a row owns it, or fails to delete it, stays in the
  store through every continuation of the run (`Leaks.LeakedForGood`).
- `FileStore.Put` looks its destination up and renames onto it later. However calls interleave and
  fail, the store behaves as if each were one step if and only if no two of them put one digest on
  a free path (`Publishing.AtomicIff`); a single run does if and only if no rename replaces a file
  (`Publishing.SerialIff`). Otherwise both can succeed and the second token replaces the first.
- `FileStore.Put` accepts tokens with line breaks, which `Read` then rejects as malformed
  (`Tokens.PutThenRead` gives the exact condition). Generated tokens never have any.
- `validateToken` measures the trimmed token but its callers digest the untrimmed one. The two are
  the same if and only if the text has no outer space (`Tokens.MeasuredIsDigested`); what passes is
  exactly a core of the right length in surrounding space (`Tokens.ValidTokenIff`), so every padding
  of a generated token passes and only the token itself has its digest (`Tokens.PaddedTokenPasses`).
- `Approve` reports a revoked review as invalid. `Decline` has no such branch and reports a
  decision conflict (`Decisions.ClosedReviewRefuses`).
- docs/closed-alpha-approval.md:75 says that repeating an approval is an idempotent delivery retry
  and that the opposite decision returns a conflict. In the code both hold while the review is
  neither expired nor revoked. Once it has expired both calls report the expiry. If it was revoked
  before, `Approve` reports an invalid review whatever was decided, and `Decline` a conflict
  (`Decisions.ApprovedReplays`, `Decisions.DeclinedReplays`, which give every answer exactly).

## Model

| member | source | states |
|---|---|---|
| Schema.ApprovedIffOneGrant | migrations/000003_add_early_access_approvals.up.sql:11-33 | in every state satisfying the invariant an application is approved iff it has a grant, has at most one, and the grant's address is the applicant's |
| Schema.MigrateValid | migrations/000003_add_early_access_approvals.up.sql:1-9 | the backfill takes any legal legacy table to a state satisfying the invariant, with no review and no grant, the same rows, forms and creation times, and exactly the early-access rows pending |
| Transactions.NewestExists | internal/postgres/store.go:47-55 | the window query's ORDER BY created_at DESC LIMIT 1 has a result whenever a row qualifies |
| Lifecycle.ApproveCases | internal/postgres/approvals.go:32-104 | an approval leaves the database alone, or makes exactly three changes: the application approved, its review decided, one grant inserted on the candidate's terms |
| Lifecycle.DeclineCases | internal/postgres/approvals.go:106-144 | a decline leaves the database alone or changes exactly the application and its one review |
| Lifecycle.CreateCases | internal/postgres/store.go:24-141 | a submission is stored, as exactly these new rows, if its kind fits its capability, no row lies in the window and no constraint objects; in every other case nothing changes and nothing is reported as created |
| Lifecycle.GrantCases | internal/postgres/approvals.go:188-306 | claim, consume, release and the operator's closing change at most the one grant row they select and no other table, and only by the transitions the lifecycle allows, under conditions that are necessary here and exact in ClaimDecides, ConsumeDecides, ReleaseDecides and ConsumedIsTerminal |
| Lifecycle.ExecValid | migrations/000003_add_early_access_approvals.up.sql:39-102 | every transaction, with any arguments and clock readings, keeps all CHECK, UNIQUE and REFERENCES constraints and the stronger invariant: claim columns set together or not at all, consumed rows without lease but with digest, decisions and reviews in agreement |
| Lifecycle.ExecMoves | internal/postgres/approvals.go:70-98 | no row ever disappears, and each changes only from pending to one decision, from open to decided, or along the grant lifecycle; identifying columns never change |
| Answers.ClaimAnswers | internal/postgres/approvals.go:188-231 | every case of a claim: the error, the lease repeated, or the row as the claim leaves it, and the record answered, with the lease end and status of that row |
| Answers.ConsumeAnswers | internal/postgres/approvals.go:233-272 | every case of a consume: the error, the replay of a lost response, or the consumed row with its time, digest and cleared lease, and the record answered |
| Answers.ReleaseAnswers | internal/postgres/approvals.go:274-306 | every case of a release: the error, or the row without its claim columns, and the record answered |
| Answers.ApproveAnswers | internal/postgres/approvals.go:32-104 | every case of an approval through a known review: each error, the replay of the standing grant, or all columns of the three rows written and of the record answered |
| Answers.DeclineAnswers | internal/postgres/approvals.go:106-144 | every case of a decline through a known review: each error, the repeat, or all columns of the two rows written |
| Answers.UnknownReview | internal/postgres/approvals.go:38-44 | both decisions through an unknown digest report an invalid review and change nothing |
| Answers.CreateAnswers | internal/postgres/store.go:24-141 | every case of a submission: the capability that does not fit its kind, a newest duplicate reported, all columns of the rows inserted, or a storage error |
| Answers.ApprovalInserts | migrations/000003_add_early_access_approvals.up.sql:70-102 | the INSERT of a grant through an open review succeeds iff digest and reference are free, the digest has 32 bytes, the reference is not blank and the expiry lies after the transaction start |
| Answers.SubmissionInserts | migrations/000003_add_early_access_approvals.up.sql:39-59 | a submission and its review are inserted iff no key is taken, no required text is blank, the digest has 32 bytes and the expiry lies after the transaction start |
| Answers.CloseGrantAnswers | migrations/000003_add_early_access_approvals.up.sql:91-101 | what an operator's expiry or revocation of a grant neither consumed nor revoked writes, column by column |
| Answers.CloseReviewAnswers | migrations/000003_add_early_access_approvals.up.sql:53-58 | and of an open review |
| Runs.RunValid | internal/postgres/approvals.go:32-306 | the invariant holds in every state of every run |
| Runs.ConsumedOnce | internal/postgres/approvals.go:258-266 | over any run and any number of workers a grant makes at most one transition to consumed |
| Runs.ConsumersAgree | internal/postgres/approvals.go:246-254 | all successful consumes of a grant carry one claim digest, and from the first on the whole row, consumed_at and digest included, never changes |
| Runs.ConsumedIsTerminal | internal/postgres/approvals.go:246-254 | on a consumed grant claim and release always fail, consume succeeds exactly for the consuming claim whatever the clock says, and writes nothing |
| Runs.Fencing | internal/postgres/approvals.go:255-262 | whoever consumes or releases made the last claim, nobody has touched the row since, and a consumer is inside that lease and the grant's lifetime |
| Runs.OnlyConsumeConsumes | internal/postgres/approvals.go:258-262 | every transition to consumed is a consume of that grant by the holder of its unexpired lease |
| Runs.TakenOverIsFenced | internal/postgres/approvals.go:287-292 | after another digest's claim every consume and release fails until the worker claims again |
| Runs.ClaimOrigin | internal/postgres/approvals.go:218-226 | a claimed row is exactly what one earlier claim wrote |
| Leases.LeasesDisjoint | internal/postgres/approvals.go:201-217 | in a release-free stretch the leases granted on a grant are pairwise disjoint and increasing, for clock readings in any order |
| Leases.LeasesMayOverlapAfterRelease | internal/postgres/approvals.go:293-297 | claim, release, claim succeeds on an active grant for any two digests at all clock readings before the expiry; the two leases exclude each other iff the second claim reads no earlier than the first lease ends, and the first is over by the second iff it reads no earlier than that or the release |
| Leases.ExclusiveIff | internal/postgres/approvals.go:201-226 | over any run, releases included: all leases on a grant are pairwise disjoint and increasing iff each claim after a release reads no earlier than the end of the lease before it |
| Leases.FoundActive | internal/postgres/approvals.go:201-226 | of two consecutive claims the later takes the branch for active grants iff a release lies between them |
| Leases.HandsOverIff | internal/postgres/approvals.go:287-303 | if no worker's clock goes back between claim and release: every claim of the run finds all earlier ones over iff each claim after a release does |
| Leases.OneHolder | internal/postgres/approvals.go:188-306 | then two claims that hold a grant at one time, up to lease end and release, are the same claim |
| Leases.MonotoneHandsOver | internal/approvals/service.go:228-257 | one non-decreasing clock for all workers makes every claim find all earlier ones over |
| Leases.ConsumerHolds | internal/postgres/approvals.go:255-262 | on a clock that never goes back, whoever consumes holds the grant at that moment, and nobody else does |
| Runs.ClaimDecides | internal/postgres/approvals.go:201-226 | before expiry a claim writes exactly when the grant is active or its lease has ended; inside a lease the same digest gets the record unchanged and any other is refused |
| Runs.ConsumeDecides | internal/postgres/approvals.go:255-271 | a consume of a grant not yet consumed succeeds, and then writes exactly the consumption, iff the grant is claimed with this digest and now is inside the lease and the lifetime; otherwise invalid claim and nothing changes |
| Runs.ReleaseDecides | internal/postgres/approvals.go:287-305 | a release writes exactly for the holder of the claim before the grant's expiry, also after the lease has ended |
| Runs.BoundedUnavailability | internal/approvals/service.go:228-235 | in every reachable state a claim's lease spans exactly claimLifetime from its own clock reading, a repeat does not extend it, and from its end until the grant expires any digest can claim |
| Decisions.FirstDecisionWins | internal/postgres/approvals.go:46-65 | over any run the successful calls on one review are all approvals or all declines |
| Decisions.ApprovalsAgree | internal/postgres/approvals.go:53-62 | every later successful approval through a review replays the first one's approval field for field and writes nothing |
| Decisions.ApproveSucceeds | internal/postgres/approvals.go:85-103 | a reported approval is the one on record, and the candidate was used exactly when the call inserted it |
| Decisions.ApprovedReplays | internal/postgres/approvals.go:46-65 | the exact answers on an approved application, neither of which writes: a repeated approval replays the record, or reports expiry, or an invalid review once revoked; a decline reports expiry or else a conflict |
| Decisions.DeclinedReplays | internal/postgres/approvals.go:120-128 | the exact answers on a declined application, neither of which writes: a repeated decline succeeds while the review is decided and not expired, and else reports expiry or a conflict; an approval reports expiry, an invalid review once revoked, or a conflict |
| Decisions.DeclinedNeverGranted | internal/postgres/approvals.go:126-143 | a declined application has no grant, then or ever after |
| Decisions.ClosedReviewRefuses | internal/postgres/approvals.go:46-51 | the exact errors both decisions give on a revoked or expired review |
| Decisions.NoUpdateRejected | internal/postgres/approvals.go:129-142 | from a state satisfying the invariant no UPDATE the code issues is ever rejected by a constraint |
| Decisions.ApproveNotRejected | internal/postgres/approvals.go:53-61 | an approval fails with a storage error iff the INSERT of its grant breaks a key or CHECK constraint; in particular the lookup on the already-approved path always finds its row |
| Window.InsertApart | internal/postgres/store.go:47-64 | a row inserted after an empty window query is more than the gap away from every stored row with its fingerprint |
| Window.DuplicateWindow | internal/submissions/submission.go:194-206 | in every state of a run rows with one fingerprint are more than window minus clock skew apart |
| Window.ClockAheadBreaksWindow | internal/submissions/submission.go:194-194 | any well-formed submission of either kind that starts less than the gap after its cut-off is stored and breaks the separation of some database that had it |
| Window.ClockConditionExact | internal/submissions/submission.go:194-194 | a well-formed submission of either kind keeps every separated database separated iff it starts at least the gap after its cut-off |
| Window.SpanBound | internal/postgres/store.go:47-55 | a span of length L holds at most floor(L / gap) + 1 rows with one fingerprint |
| Window.WindowInterleaved | internal/postgres/store.go:37-64 | both bounds under every statement-level interleaving of concurrent submissions with anything else |
| Interleaving.PlanStable | internal/postgres/approvals.go:39-39 | what a locking read or the window query returned stays what is committed until the transaction ends |
| Interleaving.ApprovalStable | internal/postgres/approvals.go:53-54 | the one unlocked read inside Approve returns the same record at any later commit |
| Interleaving.RowsStable | internal/postgres/approvals.go:70-97 | a statement already executed would write the same rows after other clients' commits |
| Interleaving.CoveredStep | internal/postgres/store.go:43-135 | whatever a transaction has written is protected by a row lock, index entry or advisory lock it holds |
| Serializability.CommitIsExec | internal/postgres/approvals.go:100-103 | committing publishes exactly what the atomic transaction leaves, with its answer |
| Serializability.RejectedIsExec | internal/postgres/approvals.go:92-99 | a statement rejected by a constraint makes the transaction end as the atomic one does |
| Serializability.StepKeeps | internal/postgres/approvals.go:33-37 | every step of every client is invisible to the others or takes effect all at once as the atomic transaction |
| Serializability.Serialisable | internal/postgres/store.go:37-141 | any interleaving, with waits, aborts and crashes, leaves what the logged transactions leave when run alone in order; every answer is that run's; locks are exclusive; Progress.EverySerialRun is the converse |
| Serializability.EveryAnswerIsSerial | internal/postgres/approvals.go:188-306 | each client's answer is the specification's answer at some point of the serial run, or a storage error after which nothing of it remains; Progress.Completes says when the former must come |
| Progress.Completes | internal/postgres/approvals.go:32-306 | whoever else is at work: a new client whose rows, index entries and advisory lock nobody holds finishes by steps of its own, with the effect and answer of the atomic transaction, logged once, and holds nothing afterwards |
| Progress.EverySerialRun | internal/postgres/store.go:37-141 | every sequence of requests is the log of some run, with the state and the answers of executing them one after another |
| Workers.ConsumersCarryOneClaim | internal/postgres/approvals.go:233-272 | workers consuming one grant at the same time: all successes carry one claim, the one on the committed row |
| Workers.DecisionsDoNotCross | internal/postgres/approvals.go:32-144 | simultaneous decisions through one review: successes are one decision, and two approvals report one grant that only one of them inserted |
| Tokens.DecodeEncode | internal/securetokens/store.go:32-32 | base64url without padding (section 5 of RFC 4648) loses nothing |
| Tokens.Letters | internal/securetokens/store.go:32-32 | the alphabet of section 5 of RFC 4648 |
| Tokens.WritesThree | internal/securetokens/store.go:32-32 | each three bytes are written as four letters, six bits each, high bits first |
| Tokens.WritesTwo | internal/securetokens/store.go:32-32 | two bytes at the end as three letters |
| Tokens.WritesOne | internal/securetokens/store.go:32-32 | one byte at the end as two letters |
| Tokens.GeneratedTokens | internal/approvals/service.go:280-286 | every generated token passes validation, and different random bytes give different tokens |
| Tokens.PaddedTokenPasses | internal/approvals/service.go:280-286 | the texts that pass as a generated token are exactly its paddings, and only the token itself has its digest unless two collide |
| Tokens.ValidTokenIff | internal/approvals/service.go:280-286 | exactly the texts that pass: a trimmed core of 43 bytes without line break or blank, in any surrounding space |
| Tokens.MeasuredIsDigested | internal/approvals/service.go:280-286 | for every text: the measured text is the digested one, and has its digest unless the two collide, iff there is no outer space |
| Tokens.HexInjective | internal/securetokens/store.go:77-78 | the hexadecimal name of a digest determines it |
| Tokens.HexDigits | internal/securetokens/store.go:77-78 | two lower-case hexadecimal digits for each byte, the high one first |
| Tokens.RefInjective | internal/securetokens/store.go:77-78 | references are injective in scope and digest |
| Tokens.ResolveRef | internal/securetokens/store.go:181-190 | resolve takes a reference to the path Put wrote |
| Tokens.ResolveIff | internal/securetokens/store.go:181-190 | a reference resolves iff it is a scope, a slash and 64 hexadecimal digits of either case, and to what |
| Tokens.ResolveInjective | internal/securetokens/store.go:181-190 | distinct well-formed references resolve to distinct paths |
| Tokens.PutThenRead | internal/securetokens/store.go:128-155 | after Put, Read returns the token iff it has no line break, and other references read as before |
| Tokens.ParsesIff | internal/securetokens/store.go:145-155 | a file holds a token iff it is that token with or without one newline after it, and the token is neither empty nor broken over lines |
| Publishing.SerialIff | internal/securetokens/store.go:90-124 | any run of interleaved and failing puts gives the files and answers of some order of atomic puts iff no rename of the run replaces a file |
| Publishing.SamePath | internal/securetokens/store.go:77-90 | two puts are on one path iff scope and digest are the same |
| Publishing.AtomicIff | internal/securetokens/store.go:70-126 | all interleavings of a set of puts are serial iff no two of them are on one free path |
| Publishing.GapReplaces | internal/securetokens/store.go:90-124 | two calls on a free path that both look before either renames both succeed, and the second body replaces the first |
| Publishing.AloneAgrees | internal/securetokens/store.go:70-126 | a put that nobody interrupts publishes one file, token and newline, where its reference resolves to, or reports the path taken; one that fails leaves no file |
| Tokens.GeneratedRoundTrip | internal/securetokens/store.go:112-155 | a generated token survives the file store |
| Tokens.MemoryStore.Put | internal/securetokens/store.go:205-217 | insert-if-absent: the whole new state and the exact error |
| Tokens.MemoryStore.Read | internal/securetokens/store.go:219-227 | the stored token or not found |
| Tokens.MemoryStore.Delete | internal/securetokens/store.go:229-234 | exactly the named token goes |
| Tokens.FileStore.Put | internal/securetokens/store.go:70-126 | one file appears below the root at the resolved path, or nothing changes; the exact error for refused arguments, a taken path and file system failures before and after the lookup |
| Tokens.FileStore.Read | internal/securetokens/store.go:128-155 | what the files hold, with the exact error for malformed references, missing and malformed files and file system failures |
| Tokens.FileStore.Delete | internal/securetokens/store.go:157-179 | exactly the named file goes, a missing one counting as deleted; malformed references and file system failures are refused and change nothing |
| Protocol.DirectRuns | internal/approvals/service.go:191-235 | whatever calls are in flight, a decline, claim, release or operator's step runs beside them, moves the rows as specified and touches nothing else |
| Messages.StepAgrees | internal/approvals/service.go:155-189 | every step of every call keeps rows, stored tokens, calls in flight and messages in agreement on digests and terms |
| Messages.RunAgrees | internal/approvals/service.go:155-249 | and so does every run, crashes, failed deletes and lost commits included |
| Messages.MessagesAgree | internal/approvals/service.go:180-188 | all approval messages for one application carry the digest of its stored grant, the same recipient and expiry, and the same token unless the hash collides |
| Messages.OneNotice | internal/submissions/submission.go:201-217 | the review team is notified of an application at most once, with the token of its review |
| Coherence.TokenRemoved | internal/approvals/service.go:169-174 | deleting a token that no live row and no other call owns leaves every live row's token in place |
| Coherence.StepSound | internal/submissions/submission.go:174-206 | every step except a harmful lost commit keeps coherence, exclusive holding and the kept token, without assuming that tokens are fresh |
| Quiescence.StoresCohere | internal/approvals/service.go:159-182 | in every world reachable without a harmful lost commit, whatever else is lost or fails, each review row and each grant row not consumed has its reference in the store, with a token of the row's digest |
| Quiescence.CleanupSparesLiveTokens | internal/approvals/service.go:169-174 | after any run without a harmful lost commit, no cleanup delete by a losing, failed, duplicate or consuming call removes the token of a live row |
| Quiescence.SecretsKept | internal/approvals/service.go:242-247 | only a consumption takes a reference out of those of live rows |
| Quiescence.NothingLeaks | internal/submissions/submission.go:195-206 | with no crash, failed delete, harmful lost commit or lost consumption, once nothing is in flight the stored references are exactly those of reviews and of grants not consumed |
| Leaks.FlagsIff | internal/approvals/service.go:168-182 | a run is orphaned iff some step inserts a grant or review without its client learning of it, and leaky iff some step crashes a call, fails to delete, or consumes a grant without its client learning of it |
| Leaks.LeakedForGood | internal/approvals/service.go:163-174 | a token whose call crashes before a row owns it, or whose delete fails, stays stored unchanged through every continuation of the run, and no live row ever names it |
| Quiescence.SameTokenSent | internal/approvals/service.go:173-188 | without any assumption on the hash, after any run without a harmful lost commit: while a grant is not consumed all its messages carry one token |
| LostCommits.LostCommitDangles | internal/approvals/service.go:168-172 | whenever an approval commits with its own candidate but reports an error and its delete succeeds, the active grant's token is gone |
| LostCommits.LostSubmitDangles | internal/submissions/submission.go:194-199 | whenever a submission that stores its review commits but reports an error and its delete succeeds, an open review stands whose token is gone, and no notice was sent or is on its way |
| LostCommits.LostSubmitIsNeverAnnounced | internal/submissions/submission.go:195-217 | after such a loss no notice names the application, however the run goes on |
| LostCommits.LossIsExact | internal/submissions/submission.go:194-206 | a transaction of any call with any fate, followed by its successful cleanup, leaves the stores coherent iff its commit was not lost or it had found nothing to insert: no decidable review with an insertable grant, no empty window with a storable submission |
| LostCommits.HarmIsGuarded | internal/postgres/approvals.go:46-99 | a lost commit is harmful iff its transaction met the guards of the branch that inserts |
| LostCommits.CoherentIff | internal/approvals/service.go:168-182 | over any run: at every moment every cleanup leaves the stores coherent iff no step harmfully loses a commit |
| LostCommits.LostCommitReachable | internal/approvals/service.go:159-172 | such a loss is reachable from an empty database in five steps of two calls, for any application and any two tokens |
| LostCommits.LostSubmitReachable | internal/submissions/submission.go:166-199 | and that loss is reachable from an empty database in three steps of one call |
| Aftermath.LostIsUnavailable | internal/approvals/service.go:173-178 | once a standing grant's token is gone, by whatever cause: as long as no call draws a token with its digest, no message is sent for the application, and a call started through its review ends, if it ends, in an error or reports the token unavailable |
| Aftermath.RetryReportsUnavailable | internal/approvals/service.go:155-178 | a retry after the loss run to its end: unavailable exactly while the review is decided and not expired, and otherwise the exact rejection; nothing is written or sent |
| Aftermath.NeverAnnounced | internal/submissions/submission.go:195-217 | an application stored with no notice on its way is never announced, along any run |
| Composition.DoRefines | internal/approvals/service.go:168-168 | one step of calls over the statement-level database is one atomic step, or none |
| Composition.Refines | internal/approvals/service.go:155-189 | every run of calls and statements interleaved is seen atomically a run of the call machine |
| Composition.RefinesFrom | internal/approvals/service.go:155-189 | the same from any state a run has reached, by steps of the calls that take part |
| Realisation.Realises | internal/approvals/service.go:155-249 | the converse of Refines: every run of the call machine that does not use a call number again after a crash, with rollbacks and lost commits as it has them, is a run of calls and statements interleaved |
| Crashes.CrashIsCovered | internal/postgres/approvals.go:33-37 | a call that crashes while its transaction runs: whatever follows, the state is that of the run in which it crashes after the end, and until then differs only in that the call is gone |
| Composition.StoresCohereInterleaved | internal/approvals/service.go:159-182 | store coherence for committed rows at the statement level, after every interleaved run without a harmful lost acknowledgement |
| Composition.MessagesAgreeInterleaved | internal/approvals/service.go:180-188 | at the statement level: all approval messages for one application carry the digest, address and expiry of its one committed grant, and the same token unless the hash collides |
| Composition.OneNoticeInterleaved | internal/submissions/submission.go:201-217 | at the statement level: no application is announced twice, and each notice carries the token of its committed review |
| Composition.NothingLeaksInterleaved | internal/submissions/submission.go:195-206 | at the statement level: once no call is in flight, whatever else still runs, the stored references are exactly those of committed reviews and grants not consumed |
| Composition.LostIsUnavailableInterleaved | internal/approvals/service.go:173-178 | the aftermath of a lost token at the statement level |
| Clocks.DuplicatesApart | internal/submissions/submission.go:187-194 | if each call reads the clock for its cut-off at any time before its transaction begins, on a clock that never goes back, the duplicate window and the span bound hold for the running services under all interleavings, crashes and lost acknowledgements |
| Text.Lengths | internal/submissions/submission.go:380-385 | lengths count the bytes of UTF-8, one to four for each character |
| Json.ReadBack | internal/submissions/submission.go:436-436 | an encoded string is read back exactly, whatever follows it (section 7 of RFC 8259) |
| Json.WrittenSplits | internal/submissions/submission.go:436-436 | an encoded value is delimited by its own text |
| Json.ObjectInjective | internal/submissions/submission.go:410-436 | marshalling a struct with omitted fields is injective |
| Json.ShortEscapes | internal/submissions/submission.go:436-436 | quote, backslash and five control characters are escaped by one letter |
| Json.LongEscapes | internal/submissions/submission.go:436-436 | the three HTML characters and the two line separators by their code points |
| Json.OtherEscapes | internal/submissions/submission.go:436-436 | the other control characters by their code points; every other character stands for itself |
| Json.ItemsText | internal/submissions/submission.go:436-436 | an array is its quoted items between brackets, separated by commas |
| Fingerprint.OneOrder | internal/submissions/submission.go:408-408 | a multiset of strings has one sorted arrangement |
| Fingerprint.AtMostIs | internal/submissions/submission.go:408-408 | the order is lexicographic: a prefix, or a smaller character at the first difference |
| Fingerprint.SortStrings | internal/submissions/submission.go:408-408 | the array is sorted in place, as the sorting function says |
| Fingerprint.SortSorts | internal/submissions/submission.go:408-408 | the sorting function orders its argument and keeps its multiset |
| Fingerprint.PayloadCanonical | internal/submissions/submission.go:406-436 | two payloads are equal iff all scalar fields are equal and the feature lists are equal as multisets |
| Fingerprint.PayloadText | internal/submissions/submission.go:410-436 | the text that is hashed: the fields in the order and under the names of the struct, empty optional ones left out |
| Fingerprint.FingerprintCanonical | internal/submissions/submission.go:437-438 | and so for the hashed fingerprints of two submissions whose payloads do not collide |
| Fingerprint.BuildFingerprint | internal/submissions/submission.go:406-439 | the code computes that fingerprint |
| Normalization.NormalizeFeatures | internal/submissions/submission.go:387-404 | the loop keeps the trimmed non-empty features in order, or reports which limit failed |
| Normalization.Normalize | internal/submissions/submission.go:293-367 | the checks in their order give the normalised form or the first failing check's message; Normalization.NormalizedIs and KindAccepted say which, in literals |
| Normalization.NormalizedIs | internal/submissions/submission.go:293-367 | for every input the message of the first check that fails, or the form with each part, all limits and messages as literals |
| Normalization.KindAccepted | internal/submissions/submission.go:293-297 | an accepted form is early access iff the trimmed text is early_access, and waitlist iff it is waitlist |
| Normalization.TooLongIs | internal/submissions/submission.go:317-341 | which optional field is reported too long, the limits in bytes |
| Normalization.AddressIff | internal/submissions/submission.go:441-457 | an address is valid iff it is at most 320 bytes, free of blanks, parsed to itself, and has text before its first at sign and a domain that neither begins nor ends with a dot |
| Normalization.KeptParts | internal/submissions/submission.go:387-404 | features are kept one by one: trimmed, empty ones dropped |
| Normalization.Accepted | internal/submissions/submission.go:293-367 | a form is the result iff every check passes and each part is the normalised part of the input, the kind as KindAccepted says |
| Normalization.NormalizedIsNormal | internal/submissions/submission.go:293-457 | everything accepted is in normal form: trimmed, within all limits, with a valid lower-case address and its own fingerprint |
| Normalization.NormalizeIdempotent | internal/submissions/submission.go:293-367 | the normal forms are exactly the fixed points of normalisation |
| Normalization.NormalInserts | migrations/000001_create_early_access_submissions.up.sql:11-28 | a normal form breaks no CHECK constraint when inserted |
| Normalization.EmailReachable | internal/approvals/service.go:271-278 | the grant API normalises a text to a stored address iff it is that address up to case and outer space |
| Normalization.GrantSelected | internal/postgres/approvals.go:363-369 | in every state of every run a grant is selected by exactly those variants of the applicant's address |
| Store.PostgresStore.Approve | internal/postgres/approvals.go:32-104 | statement by statement with early returns: the atomic specification, or a storage error with the database unchanged, or with the whole effect when the commit's acknowledgement fails; no error of the driver is swallowed |
| Store.PostgresStore.Decline | internal/postgres/approvals.go:106-144 | statement by statement: the atomic decline, or a storage error with the database unchanged, or with the whole effect when the commit's acknowledgement fails; no error of the driver is swallowed |
| Store.PostgresStore.ClaimGrant | internal/postgres/approvals.go:188-231 | the locking read, the lease branches and the UPDATE: the atomic claim, or a storage error with the database unchanged, or with the whole effect when the commit's acknowledgement fails; no error of the driver is swallowed; the record answered is that of Answers.ClaimAnswers |
| Store.PostgresStore.ConsumeGrant | internal/postgres/approvals.go:233-272 | replay of a lost response, the four refusal conditions and the UPDATE: the atomic consume, or a storage error with the database unchanged, or with the whole effect when the commit's acknowledgement fails; no error of the driver is swallowed; the record answered is that of Answers.ConsumeAnswers |
| Store.PostgresStore.ReleaseGrant | internal/postgres/approvals.go:274-306 | the holder check before the expiry check, then the UPDATE: the atomic release, or a storage error with the database unchanged, or with the whole effect when the commit's acknowledgement fails; no error of the driver is swallowed; the record answered is that of Answers.ReleaseAnswers |
| Store.PostgresStore.CreateSubmission | internal/postgres/store.go:24-141 | the window query and one or two INSERTs: the atomic submission, a duplicate reported as a newest row of the window, or a storage error with the database unchanged, or with the whole effect when the commit's acknowledgement fails; no error of the driver is swallowed |
| Store.PostgresStore.ResolveReview | internal/postgres/approvals.go:15-30 | exactly when a review resolves, to what, and the error otherwise, a failing query included |
| Store.PostgresStore.ValidateGrant | internal/postgres/approvals.go:146-161 | exactly when a grant validates, with which columns of its row, and the error otherwise, a failing query included |
| Store.PostgresStore.ResolveGrant | internal/postgres/approvals.go:163-186 | the address, name, farm, status and expiry of the grant with this digest and of its application, whatever its status; an invalid grant if there is none, a storage error if the query fails |
| Store.QueryApproval | internal/postgres/approvals.go:349-355 | the lookup by application finds the one grant |
| Store.QueryNewest | internal/postgres/store.go:47-55 | a newest row of the window, if there is any |
| Store.ResolvableIsDecidable | internal/postgres/approvals.go:23-28 | a review resolves exactly when a decision through it at that moment would be recorded |
| Store.ValidatesIsClaimable | internal/postgres/approvals.go:154-160 | a grant validates exactly when a claim succeeds or is held off by another's open lease, and has lapsed exactly when a claim is told so |
| Services.Service.Approve | internal/approvals/service.go:155-189 | in rows and failures: a recordable approval adds its three rows and one message with the call's token, and is reported delivered iff the sender reports no error; a repeat while the token can be read back sends the same terms again; each refusal is named; what is refused or rejected changes nothing but the token put, which goes if its delete succeeds. Also: effects and result are those of the call machine's run with the same failures; when only the acknowledgement fails the transaction has its whole effect, the caller sees an error, nothing is sent, and the call's own token goes |
| Services.Service.Submit | internal/submissions/submission.go:166-218 | in rows and failures: an early_access text stores the application, its review and one notice with the review's token; a waitlist text stores a plain row, no token, no review, no notice; a duplicate is accepted and adds nothing; a malformed submission touches nothing and reports its message. Also: effects are those of the call machine with the same failures on the normalised form; when only the acknowledgement fails an application is stored all the same, without a notice, and its review's token goes if the delete succeeds |
| Services.Service.ConsumeGrant | internal/approvals/service.go:237-249 | in rows and failures: the holder of the unexpired lease, or the claim that has consumed already, gets the consumed record and the token is deleted; all others an invalid claim or grant, and nothing changes. Also: transaction and cleanup are those of the call machine on the normalised arguments; when only the acknowledgement fails the transaction has its whole effect and the token is left; refused arguments change nothing |
| Services.Service.ClaimGrant | internal/approvals/service.go:228-235 | the atomic claim with a lease from one clock reading to claimLifetime after it, or a storage error as in the store, on the normalised address and the digest of the trimmed reference; refused arguments change nothing |
| Services.Service.ReleaseGrant | internal/approvals/service.go:251-269 | the atomic release, or a storage error as in the store, on the normalised arguments; refused arguments change nothing |
| Services.OperationIff | internal/approvals/service.go:259-278 | exactly when an operation on a grant is accepted, with what address and digest, and with which error it is refused: token, address of at most 320 bytes, trimmed reference of 16 to 200 bytes |
| Services.OneClaimIff | internal/approvals/service.go:264-268 | two accepted references are one claim iff their trimmed texts are equal, unless they collide; padding makes no difference |
| Services.SecondClaim | internal/approvals/service.go:228-235 | a second claim inside an open lease: with another trimmed reference it is told the grant is taken, with the same it gets the same lease, and neither changes anything |
| Services.Service.constructor | internal/approvals/service.go:123-146 | positive lifetimes are kept, others replaced by seven days and thirty minutes, and so for the submission service's seven days and its window of one day |
| Services.Service.Decline | internal/approvals/service.go:191-196 | the atomic decline of the review with the digest of the token, or a storage error as in the store; an invalid token changes nothing |
| Services.Service.Resolve | internal/approvals/service.go:148-153 | exactly when a review token resolves, to which application, and the error otherwise, a failing query included |
| Services.Service.ValidateGrant | internal/approvals/service.go:198-204 | exactly when token and address validate, after normalisation, with which columns of the row, and the error otherwise, a failing query included |
| Services.Service.ResolveGrant | internal/approvals/service.go:206-226 | a token resolves exactly when it is well-formed and its grant is active and unexpired, to the applicant's address, name and farm; the exact error otherwise, a failing query included |
| PageViews.CounterStore.RecordVisit | internal/postgres/store.go:143-209 | a failure in any statement it reaches, or of the commit, fails the visit and leaves the tables alone; one of the acknowledgement alone fails it though it is counted; with none the answer is the counter it leaves |
| PageViews.CounterStore.GetCounts | internal/postgres/store.go:211-231 | the counter of the page, zero if there is none, an error if the query fails |
| PageViews.StepKeeps | internal/postgres/store.go:152-206 | every statement of every client keeps what all transactions rely on and the tally |
| PageViews.CountersExact | internal/postgres/store.go:143-209 | after any interleaving each page's total is the number of its committed visits, its unique count the number of distinct non-empty visitors, and each answer was exact |
| PageViews.PageCounts | internal/postgres/store.go:211-231 | unique never exceeds total, and visits to other pages make no difference |
| PageViews.Completes | internal/postgres/store.go:143-209 | a client on whose page nobody else is at work records its visit by its own statements, once, and is answered with the counter it leaves |
| PageViews.CompletesAfterAbort | internal/postgres/store.go:147-151 | after a rollback the next visit is recorded as if the client rolled back had never begun |
| PageViews.EveryLog | internal/postgres/store.go:143-209 | every sequence of visits is the log of some run |

## Left out

- Leases.LeasesDisjoint: release-free stretches only; Leases.ExclusiveIff says exactly what releases add.
- Realisation.Realises: call numbers are not used again after a crash; numbers stand for calls, which have no identity of their own in the service.
- Store.PostgresStore.CreateSubmission: leaves open which of several equally new duplicates is reported, as the query does.
- Tokens.FileStore.Put: the lookup and the rename are one step here and two in Publishing, which has no deletes. Unsafe modes, symbolic links and failed system calls are one file system error, before or after the lookup, which leaves the files as they were.
- Services.Service.Approve: the random generator's failure and an absent token store or unconfigured mailer are not branches of their own; the latter is a delivery that fails.
- Surrogate uuids of reviews and grants: rows are identified by their unique token digest.
- The columns updated_at, source of a grant, and status of a submission, which no transaction branches on or changes; NULL and the empty string of optional profile columns are one value.
- Invalid UTF-8: strings are sequences of Unicode scalar values, which is what the JSON request decoder delivers. Go's byte order of strings is then their order by scalar value.
- sort.Strings beyond its insertion sort for short slices: by Fingerprint.OneOrder any correct sort gives the same result.
- SHA-256, random generation, mail.ParseAddress and Unicode case folding beyond the assumptions above; constant-time comparison is equality.
- BIGINT overflow of the page counters, and the precision of timestamps.
- PostgreSQL beyond row locks, unique-index waits, advisory locks, per-statement committed reads, constraint checks and atomic commit; deadlocks are aborts.
- HTTP routing, request decoding, authentication, body limits and status codes; rendering and sending of messages beyond application, recipient, token and expiry.
- Configuration, logging, contexts and timeouts (cancellation is an abort or a crash), page-path normalisation, server wiring, scripts and down migrations.
