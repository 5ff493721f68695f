# HerdrHarness Lite: verified models of the delivery controller

HerdrHarness Lite drives a Worker and a Reviewer through one GitHub issue at a time and is meant to fail closed: when a file,
an event or an answer is not exactly what it should be, it stops instead of guessing. Its safety rests on a few protocols over
exclusively created files, a large invariant over the job ledger, two event-driven machines, a canonical JSON serialisation and
several searches with byte limits. This project models those parts and proves what they are for, over every input, every
interleaving or every run.

Each file holds one module and follows one source file or component. A loop that updates variables is a method with that loop,
proved against a function of its inputs; closures and objects that change their fields are classes (`StrictJsonlDecoder`,
`OwnedLease`, `Wrapper`, `JsonStateStore`, `RecoveryGates`, `Tools`, `TurnHook`, `Runner`) whose methods state the whole new state;
concurrent programs are step relations over shared files, with a crash possible between any two steps.

- `Utf16`, `TextBounds`: JavaScript text as 16-bit code units, its length in UTF-8 (RFC 3629, section 3), and every bisection that
  cuts a text to a byte limit.
- `Json`, `JsonLexis`, `StableJson`: a JSON printer and parser (RFC 8259, sections 2 to 7), its lexical rules, and
  `stableStringify`, which feeds every digest.
- `JsonScan`: the brace scanner that finds JSON objects in a Reviewer's prose.
- `Jsonl`: the incremental line decoder of the Pi RPC runner.
- `CredentialLease`: the credential startup lease, with reclaim under a native lock.
- `AnalystReceipts`: the Codex Analyst receipts, reserved before and replaced after each external effect.
- `Ledger`, `Policy`, `Gates`, `Handoffs`: `assertJobInvariant`, recovery policy, the four human gates and the typed handoffs.
- `JsonStore`: the stored ledger, compared and swapped under a lock file.
- `ReviewerTools`, `ReviewerRules`: the Reviewer's tool handlers, and what each of them does on the session's fields.
- `Compaction`: the controlled-compaction hook, its projection, the runner's phase machine and the evidence reader.
- `RunnerFold`: the runner's fold over events and the decision that a run is `ok`.
- `IssueGraph`, `Eligibility`: the issue crawl and the strict frontier selection.
- `Checkpoints`: which Reviewer checkpoints are reused, verified and consumed.
- `Restart`: the Fleet's restart policy threaded over a history of exits.
- `Canary`: the Wilson and Newcombe intervals and the nearest-rank percentile.

Some properties one would expect are false of the code. For each there is a lemma with a concrete run or input, and a lemma
that says exactly when the property holds:

- A ledger save compares only the active job's revision, so a saver that still holds a finished job can replace the next one
  (`StaleSaverCrossesJobs`). It replaces what it loaded exactly when the stored job still has the id it loaded
  (`LostUpdateExactly`).
- The job invariant bounds a handoff's lists and texts but not what they are copied from, so an approved recovery of a pull
  request with 99 failed checks cannot be stored (`CiLimit`). For every basis an approval can have, and for a review's findings,
  the exact condition is stated on the job's own fields (`ReviewChangesAcceptedExactly`, `DecisionAcceptedExactly`,
  `PolicyAcceptedExactly`, `CiHandoffAcceptedExactly`; `RecoveryAcceptedExactly` covers all of them).
- The Reviewer's aggregation stays in memory when linking its checkpoint fails, so a decision can be submitted that its own
  checkpoint does not hold (`DecisionCanBeLost`, `DecisionIsDurableExactly`).
- A completed review on valid axis results can hold 65 findings, and then no submission can ever decide it
  (`OverfullReviewHappens`); it can be decided exactly when the aggregation holds at most 64 (`DecidableExactly`).
- A controlled compaction that starts after the last settlement is left open by an `ok` run (`LateCompactionDangles`). All
  compaction events of an `ok` run are paired exactly when the last of them, if any, is not a start (`OkRunPairsExactly`).
- Policy recovery of a job whose history already holds 32 records is offered and authorised but cannot be stored
  (`FullHistoryRefuses`; `AuthorizeKeepsInvariant` gives both directions).
- A crash between creating and filling a lease file blocks every later acquisition (`CreationCanCrash`,
  `CrashedCreationBlocksForever`). At any point of any execution the lease can still be had exactly when that has not happened
  (`LeaseObtainableExactly`).
- A crash that leaves the store's lock file freezes the ledger (`CrashFreezes`, `OrphanedLockFreezes`). At any point of any run
  every sound state can still be stored exactly when that has not happened (`StoreMovesExactly`). Both fail closed.
- The line decoder's limit depends on chunking at the edge: one output is accepted in one chunk and refused in two
  (`ChunksCanDecide`). `EveryChunkingAccepted` gives the exact condition under which no chunking matters.

## Model

| member | source | states |
|---|---|---|
| Utf16.PrefixMonotone | pi/extensions/reviewer-tools.js:1127-1137 | a longer prefix never takes fewer UTF-8 bytes, even where a cut splits a surrogate pair, which is what makes bisection sound |
| Utf16.SuffixMonotone | pi/extensions/reviewer-tools.js:1139-1149 | the same for suffixes |
| Utf16.EndsDoNotOverlap | pi/extensions/reviewer-tools.js:1115-1125 | a prefix and a suffix whose bytes together are below those of the text do not overlap |
| Utf16.ByteLengthIsEncoding | pi/extensions/reviewer-tools.js:1127-1137 | the byte length is that of the UTF-8 encoding of RFC 3629, surrogate pairs joined and lone surrogates replaced |
| Utf16.Utf8ReadsBack | pi/extensions/reviewer-tools.js:1127-1137 | every code point is read back from its bytes, which are as few as possible |
| Utf16.LongestPrefixUnique | pi/extensions/reviewer-tools.js:1127-1137 | at most one text is the longest aligned prefix within a limit, so the searches' contracts determine their results |
| Utf16.FitPrefix | pi/extensions/reviewer-tools.js:1127-1137 | the bisection ends on the greatest cut whose prefix fits |
| Utf16.FitSuffix | pi/extensions/reviewer-tools.js:1139-1149 | the bisection ends on the least cut whose suffix fits |
| Utf16.TrimmedPrefixIsLongest | pi/extensions/reviewer-tools.js:1134-1137 | dropping a dangling high surrogate from the greatest fitting prefix gives the longest code-point-aligned one |
| Utf16.Utf8Prefix | pi/extensions/reviewer-tools.js:1127-1137 | the result is a prefix within the limit, empty under a negative limit, and on well-formed text the longest aligned one |
| Utf16.Utf8Suffix | pi/extensions/reviewer-tools.js:1139-1149 | the mirror image for suffixes |
| TextBounds.BoundedUtf8 | src/pi-rpc-sdk-entry.ts:517-528 | a fitting text is returned whole; any other is cut to its longest aligned prefix within the limit |
| TextBounds.BoundedHeadTail | pi/extensions/reviewer-tools.js:1115-1125 | truncation is reported exactly when the text is too long; the result is longest head, marker and longest tail, without overlap, and fits the limit unless the limit is below the marker's own 19 bytes |
| TextBounds.SliceUtf8 | pi/extensions/worker-tools.js:87-101 | a slice from either end fits its limit, keeps a fitting text whole and on well-formed text is the longest aligned one |
| TextBounds.ReplaceTexts | pi/extensions/worker-tools.js:78-84 | the replacement stands exactly where the first text part stood, the other text parts go, and everything else keeps its place in order |
| TextBounds.BoundToolResultContent | pi/extensions/worker-tools.js:66-85 | content is bounded exactly when its joined text exceeds the limit; then the bounded text takes the place of the first text part, head, marker and tail fit the limit, and non-text parts survive in order |
| Json.UnescapeEscaped | src/model.ts:747-755 | decoding a string's escapes undoes escaping and stops at its closing quote |
| Json.ParsePrint | src/model.ts:747-755 | parsing a printed value yields that value and leaves whatever followed it |
| Json.DocumentRoundTrip | src/model.ts:747-755 | a printed document parses back to its value |
| JsonLexis.NumeralExactly | src/pi-rpc-runner.ts:107-118 | the parser takes a text for a numeral if and only if the grammar of RFC 8259 derives it |
| JsonLexis.DocumentExactly | src/pi-rpc-runner.ts:107-118 | a document parses exactly when a value does and only white space follows it |
| StableJson.StableIsCanonical | src/model.ts:747-755 | two values have the same stable text if and only if they are equal up to the order of object keys at every depth |
| StableJson.ReorderedMembersAreSame | src/model.ts:750-752 | writing the members of an object in another order gives the same value |
| StableJson.StableReadsBack | src/model.ts:747-755 | the stable text is JSON and reads back as the same value |
| StableJson.CanonIdempotent | src/model.ts:747-755 | serialising what was read back changes nothing |
| StableJson.PrintInjective | src/model.ts:747-755 | a printed value determines the value: nested arrays, objects, strings and numerals are uniquely decodable |
| StableJson.AscendingUnique | src/model.ts:751 | there is one ascending listing of a set of keys, so the sort removes the writer's order |
| JsonScan.EmbeddedJsonObjects | pi/extensions/reviewer-tools.js:569-602 | the loop over start, depth, quoted and escaped computes the fold of its step over the text |
| JsonScan.ValueReaches | pi/extensions/reviewer-tools.js:569-602 | scanning a printed value at depth at least one returns to the same state and never dips below that depth |
| JsonScan.ScanFindsPrintedObjects | pi/extensions/reviewer-tools.js:569-602 | printed objects separated by prose without an opening brace are found exactly, in order |
| Jsonl.StrictJsonlDecoder.PushChunk | src/pi-rpc-runner.ts:89-119 | a push hands over the records of the complete lines, keeps the rest, and fails on an oversize, malformed or non-object line |
| Jsonl.StrictJsonlDecoder.Finish | src/pi-rpc-runner.ts:121-123 | finishing succeeds exactly when the leftover is blank |
| Jsonl.DrainInTwo | src/pi-rpc-runner.ts:94-118 | draining a text and then more of it is draining the whole |
| Jsonl.ChunksLikeOnePush | src/pi-rpc-runner.ts:86-124 | if every chunked push succeeds, one push of the concatenation succeeds with the same records and leftover |
| Jsonl.EveryChunkingAccepted | src/pi-rpc-runner.ts:86-124 | every chunking of an output is accepted if and only if it drains and every raw line and the tail fit the limit |
| Jsonl.ChunksCanDecide | src/pi-rpc-runner.ts:86-124 | a line feed and too many blanks are accepted and finished in one chunk and refused in two |
| Jsonl.PrintedRecordsRecovered | src/pi-rpc-runner.ts:86-124 | printed records that fit are recovered exactly and in order under every chunking, and finishing succeeds |
| CredentialLease.AtMostOneLiveHolder | src/credential-startup.ts:216-278 | in every interleaving with crashes and reclaims, at most one live process holds the lease, and the file carries its instance |
| CredentialLease.OnlyTheHolderTouchesTheFile | src/credential-startup.ts:355-411 | while a live process holds the lease, only its own heartbeat or stop changes the file |
| CredentialLease.ReclaimReplacesOnlyStale | src/credential-startup.ts:462-549 | a reclaim replaces only a complete record whose process is dead and whose heartbeat is at least `staleAfter` old |
| CredentialLease.AssertionExcludesOthers | src/credential-startup.ts:280-294 | a child that passes the lease assertion shares the lease with no other live holder |
| CredentialLease.AssertionExactly | src/credential-startup.ts:280-294 | a child passes the assertion exactly when the file is a complete record of the instance and process it was given; along any execution what a live holder starts does pass it |
| CredentialLease.CrashedCreationBlocksForever | src/credential-startup.ts:551-560 | a lease file left incomplete by a crash is never changed again and no one ever holds the lease |
| CredentialLease.CreationCanCrash | src/credential-startup.ts:551-560 | a concrete execution in which a process opens the free path and dies before the record is complete |
| CredentialLease.StaleLeaseIsTakenOver | src/credential-startup.ts:216-278 | left alone, an acquisition does take over the lease of a dead process whose heartbeat is old enough |
| CredentialLease.LeaseObtainableExactly | src/credential-startup.ts:216-278 | at any point of any execution some continuation puts a live process in possession of the lease if and only if the path does not hold an incomplete file whose creator is gone |
| CredentialLease.OwnedLease.Heartbeat | src/credential-startup.ts:355-411 | a heartbeat refreshes the record exactly when not stopped and the file still carries this instance |
| CredentialLease.OwnedLease.OnTimer | src/credential-startup.ts:355-411 | a failed heartbeat is remembered for good |
| CredentialLease.OwnedLease.Stop | src/credential-startup.ts:355-411 | stopping removes the file exactly when no heartbeat failed and it still carries this instance, and a second stop changes nothing |
| CredentialLease.HeartbeatIsTwoSteps | src/credential-startup.ts:355-411 | run without interference, the two protocol steps of a heartbeat do what the method does, whether the file still carries the instance or not |
| CredentialLease.StopIsTwoSteps | src/credential-startup.ts:355-411 | likewise for stop, in both cases |
| AnalystReceipts.EffectsAtMostOnce | src/codex-analyst-wrapper.ts:86-207 | over any concurrent or crashed wrappers, at most one start per job and one resume per session, incident and turn; a resumed session belongs to a recorded start |
| AnalystReceipts.StartRepliesAgree | src/codex-analyst-wrapper.ts:86-150 | every successful start of a job returns the same session |
| AnalystReceipts.TurnRepliesAgree | src/codex-analyst-wrapper.ts:152-207 | every successful reply for a turn is the same response |
| AnalystReceipts.TurnCheckedExactly | src/codex-analyst-wrapper.ts:152-157 | the checking step of a turn goes on if and only if the job's start receipt is complete and active with this session and task digest; any other case ends it |
| AnalystReceipts.ResumedUnderActiveStart | src/codex-analyst-wrapper.ts:152-207 | over any execution, whatever session a turn resumes was, when the turn was checked, that of a complete and active start receipt of its job with its task digest |
| AnalystReceipts.AbandonedStartStays | src/codex-analyst-wrapper.ts:86-133 | once the reserving process is gone the start is never dispatched again, and a receipt without a session stays as it is |
| AnalystReceipts.TurnInvSurvivesStarts | src/codex-analyst-wrapper.ts:209-236 | nothing start and close do unsettles a turn: recorded sessions stay recorded |
| AnalystReceipts.Wrapper.Start | src/codex-analyst-wrapper.ts:86-150 | an uninterrupted start dispatches exactly once for a fresh job and never for one with a receipt, and replies only from an active receipt of the same request |
| AnalystReceipts.Wrapper.Turn | src/codex-analyst-wrapper.ts:152-207 | likewise for a turn: without a complete, active start receipt of this job with this session and task digest nothing is read, reserved or resumed |
| AnalystReceipts.Wrapper.Close | src/codex-analyst-wrapper.ts:209-236 | closing succeeds exactly on a complete receipt of this job and session, marks it closed once its session is deleted, and changes nothing otherwise |
| AnalystReceipts.Wrapper.DispatchStart | src/codex-analyst-wrapper.ts:95-133 | reserve, run and replace leave the active or unavailable receipt and one dispatch |
| AnalystReceipts.Wrapper.DispatchTurn | src/codex-analyst-wrapper.ts:171-207 | reserve, resume and replace leave the completed or failed receipt and one resume |
| AnalystReceipts.TurnPathInjective | src/codex-analyst-wrapper.ts:437-442 | different turns never share a receipt path, whatever the incident id holds |
| Policy.RetryAuthority | src/policy.ts:20-40 | every class offers holding and at most one retry; exactly which classes and lanes offer which |
| Policy.ReassessmentAuthority | src/policy.ts:277-366 | a reassessment leads to a class with exactly one retry for its lane, and changes the class only in the four named cases |
| Policy.ReassessedExactly | src/policy.ts:277-366 | exactly when a held incident may be analysed again, and under which class, case by case on the fields of job, incident, advice and Attempt |
| Policy.ExceptionClasses | src/policy.ts:277-366 | which class and lane each of the four exceptions is about |
| Policy.OfferIsForItsLane | src/policy.ts:72-124 | an offer retries the lane of the Attempt it replaces, inside both the incident's and the class's actions |
| Policy.ProviderCandidateExactly | src/policy.ts:159-196 | an Attempt leaves a Provider candidate if and only if a Pi RPC run with a named provider failed at a valid head with one of five transient codes before any tool, durable result, worktree change or commit; what the candidate then is |
| Policy.CandidateExactly | src/policy.ts:42-70 | exactly which candidate, if any, a failed Attempt leaves for its incident |
| Policy.OfferedExactly | src/policy.ts:72-124 | exactly when policy offers a recovery, and which, in terms of the job, the incident, the Attempt, the advice and the clock |
| Policy.RecordIsNew | src/policy.ts:42-124 | an offer's record conflicts with no earlier one |
| Policy.AuthorizeKeepsInvariant | src/controller/automatic-recovery.ts:9-57 | taking an offer moves one revision on and keeps the job invariant if and only if the history has room |
| Policy.FullHistoryRefuses | src/controller/automatic-recovery.ts:9-57 | a concrete sound job with n applied recoveries is offered another, which can be stored if and only if n is below 32 |
| Policy.AuthorizedIsRecognised | src/policy.ts:134-157 | the approval written with the record is recognised as policy's own |
| Policy.NeverOfferedAgain | src/policy.ts:42-198 | no later job whose history continues the record's, consumed meanwhile or not, is offered the same fingerprint, or the same Provider scope |
| Policy.RecoveredAtMostOnce | src/policy.ts:42-198 | over any run of the ledger, recoveries applied or not, no two policy recoveries share a fingerprint, and no two Provider ones a scope |
| Policy.BackoffEnds | src/policy.ts:126-132 | a job waiting out its backoff is offered nothing before `notBefore` and the recovery at every later time |
| Policy.CandidateIsAccepted | src/policy.ts:475-511 | the incident a failed Attempt is blocked with carries a candidate the invariant accepts |
| Policy.ProviderFailureIsRetried | src/policy.ts:159-196 | policy retries a failed Attempt by itself without advice if and only if it failed with a transient code before any side effect, its backoff is over and neither fingerprint nor scope was used |
| JsonStore.MutualExclusion | src/adapters/json-store.ts:41-98 | at most one process is between creating and removing the lock file |
| JsonStore.StoredBySerialSaves | src/adapters/json-store.ts:41-98 | whatever interleaves or crashes, the stored state satisfies `assertJobInvariant` and is the last of a chain of saves that starts empty, each over what the one before stored, at the revision it expected |
| JsonStore.RevisionsIncrease | src/adapters/json-store.ts:41-98 | within one job's lifetime the expected revisions of the commits increase by one each |
| JsonStore.OneWinnerPerRevision | src/adapters/json-store.ts:41-98 | of several savers that expect one revision within one job's lifetime, at most one commits |
| JsonStore.OrphanedLockFreezes | src/adapters/json-store.ts:41-98 | a lock file whose process crashed stops every later save |
| JsonStore.CrashFreezes | src/adapters/json-store.ts:41-98 | from any reachable state with the lock free, a process that takes it and dies leaves the store frozen in whatever follows |
| JsonStore.StoreMovesExactly | src/adapters/json-store.ts:41-98 | at any point of any run every sound state can still be stored if and only if no process died holding the lock |
| JsonStore.WholeSave | src/adapters/json-store.ts:41-98 | uninterrupted, the protocol steps of a save store exactly what the method does |
| JsonStore.StaleSaverCrossesJobs | src/adapters/json-store.ts:50-53 | a run in which a saver that still holds a finished job replaces the next one |
| JsonStore.LostUpdateExactly | src/adapters/json-store.ts:50-53 | a passing comparison replaces what was loaded if and only if the stored job still has the id that was loaded |
| JsonStore.JsonStateStore.Load | src/adapters/json-store.ts:33-39 | loading returns the stored state, which always passes validation |
| JsonStore.JsonStateStore.SaveState | src/adapters/json-store.ts:41-98 | a save commits exactly when the next state is sound and the expected revision is the stored one, and changes nothing otherwise |
| Gates.GateKeepsInvariant | src/recovery.ts:18-212 | a job that satisfies `assertJobInvariant` still does after every gate that accepts, exactly one revision on |
| Gates.GateAuthority | src/recovery.ts:57-212 | the approving gates grant only what both incident and class allow, and their approval passes the consumer's check; cancelling and reassessing grant none |
| Gates.AuthorizedIsAccepted | src/controller/recovery-flow.ts:11-57 | every recovery policy authorizes while a job is blocked passes the check made before it is applied |
| Gates.AuthorizedExactly | src/controller/recovery-flow.ts:11-57 | which recovery is authorized while a job is blocked, with which advice and at which time |
| Gates.BindingExactly | src/controller/recovery-flow.ts:255-291 | an approval binds the job it is applied to if and only if it is for this incident, within the actions of incident and class, and what it rests on still stands |
| Gates.ProviderNeedsNoAdvice | src/controller/recovery-flow.ts:11-57 | a Provider recovery is authorized exactly when no advice is involved |
| Gates.OfferedFacts | src/policy.ts:248-275 | what an operator action being offered implies |
| Gates.ActionsExactly | src/policy.ts:248-275 | exactly when each of the four operator actions is offered |
| Gates.DecisionExactly | src/policy.ts:369-396 | exactly when an operator may resolve a review that used up its rounds |
| Gates.AcceptsExactly | src/recovery.ts:18-212 | a gate accepts exactly the bounded requests that name the stored revision, incident and analysis of a job that offers that very action |
| Gates.DecisionIsRecorded | src/recovery.ts:18-212 | the record each gate writes, field by field, and that no other field of the job changes |
| Gates.RecoveryGates.CancelHeldJob | src/recovery.ts:18-55 | the gate accepts exactly the held jobs it should, stores the cancelled job and its cancellation one revision on, and otherwise changes nothing |
| Gates.RecoveryGates.ApproveRecovery | src/recovery.ts:57-103 | likewise for approving the advised retry |
| Gates.RecoveryGates.ResolveDecisionGate | src/recovery.ts:106-149 | likewise for resolving a human decision |
| Gates.RecoveryGates.ReassessIncident | src/recovery.ts:152-212 | likewise for reassessing an incident |
| Handoffs.BoundText | src/handoff.ts:126-132 | a handoff text never exceeds its limit and is unchanged exactly when it already fits |
| Handoffs.BoundTextIsBounded | src/handoff.ts:126-132 | bounding makes a text acceptable to the invariant |
| Handoffs.ShortenedExactly | src/handoff.ts:126-132 | a text over 10,000 units becomes its first 4,982, the marker and its last 4,981 |
| Handoffs.Unique | src/handoff.ts:96-99 | duplicates are removed and nothing else |
| Handoffs.UniqueKeepsOrder | src/handoff.ts:96-99 | what is left stands in the order of first occurrences |
| Handoffs.ReviewChangesSays | src/handoff.ts:6-39 | what a review's handoff says, field by field, with one obligation for each finding in order |
| Handoffs.RecoverySays | src/handoff.ts:41-104 | what an approved recovery's handoff says, field by field: where it comes from, whom it is for, its summary, its references and unknowns, and what it asks |
| Handoffs.RecoveryAsks | src/handoff.ts:48-73 | the obligations, in order: a decision's reason and the review's findings or the Analyst's brief, the operator's statement, the failed checks |
| Handoffs.RecoveryAppliedSays | src/controller/recovery-flow.ts:355-383 | applying a recovery settles the Attempt into the history, marks the approval and exactly its own record consumed, counts a CI rework, and moves no other field |
| Handoffs.PendingBinds | src/handoff.ts:106-120 | a pending handoff of a sound job binds to the Attempt prepared next and satisfies what the invariant asks of that Attempt |
| Handoffs.BindsExactly | src/handoff.ts:106-120 | an Attempt gets the pending handoff if and only if it was written one revision before, for this task and exactly this Attempt, and no old brief is left |
| Handoffs.BindsOnlyItsTarget | src/handoff.ts:106-120 | no pending handoff binds to the other lane or another revision |
| Handoffs.SettledAttemptsOk | src/controller/attempt-settlement.ts:182-196 | settling the active Attempt keeps the invariant of the Attempt history, consumed checkpoints included |
| Handoffs.ReviewChangesKeepsInvariant | src/handoff.ts:6-39 | routing a review's findings to a fresh Worker keeps the job invariant if and only if the handoff itself is acceptable |
| Handoffs.ReviewChangesAcceptedExactly | src/handoff.ts:6-39 | routing a review's findings keeps the job invariant if and only if there are at most 100 of them and they, the summary and the names the job uses are acceptable |
| Handoffs.RecoveryKeepsInvariant | src/controller/recovery-flow.ts:355-383 | applying an approved recovery keeps the job invariant if and only if the handoff it writes is acceptable |
| Handoffs.RecoveryAcceptedExactly | src/handoff.ts:41-104 | for every basis of an approval, the handoff it writes is accepted if and only if the job's own names, lists and texts fit |
| Handoffs.DecisionAcceptedExactly | src/controller/recovery-flow.ts:355-383 | applying a human decision keeps the job invariant if and only if the review has at most 99 findings and its texts, the Analyst's lists and the job's names fit |
| Handoffs.PolicyAcceptedExactly | src/controller/recovery-flow.ts:355-383 | applying policy's own approval keeps the job invariant if and only if its summary, the advice's texts and lists, if any, and the job's names fit; it is never a CI rework |
| Handoffs.CiHandoffAcceptedExactly | src/handoff.ts:41-104 | a CI recovery's handoff is accepted if and only if its three lists fit |
| Handoffs.CiLimit | src/handoff.ts:41-104 | the same sound, approved job is recovered with 98 failed checks and refused with 99 |
| Handoffs.ChangesAreMoves | src/controller/recovery-flow.ts:355-383 | applying a recovery, every gate's decision and routing a review's findings continue the policy history, so they are moves of the ledger in which recovery is at most once |
| Handoffs.AppliedRecoveryIsOnce | src/controller/recovery-flow.ts:355-383 | after an offer is taken and applied, no offer in any run that follows shares its fingerprint or its Provider scope |
| ReviewerTools.SubmittedResultIsEarned | pi/extensions/reviewer-tools.js:220-299 | a submitted `pass` or `changes` holds exactly, in order, the findings of Standards, those of Spec and that of a failed receipt; it is a `pass` if and only if both axes pass, there is no finding and the receipt passed, and a `pass` also means ready preflight and no overrun |
| ReviewerTools.AggregateIsFaithful | pi/extensions/reviewer-tools.js:621-640 | the aggregation repeats, in order, each finding of Standards and then of Spec, with severity, summary and its references as lines, then the receipt's; it passes if and only if both axes pass with nothing found and the receipt passed |
| Utf16.JoinReadsBack | pi/extensions/reviewer-tools.js:621-640 | splitting a joined evidence text at its line feeds gives back the references it was joined from |
| ReviewerTools.DecimalReadsBack | pi/extensions/reviewer-tools.js:621-640 | the count in the summary is the number of findings in decimal, without leading zeros |
| ReviewerTools.LaunchesAreBounded | pi/extensions/reviewer-tools.js:69-109 | no axis is launched more than twice or under another brief, and with concurrency 1 Spec never starts before Standards has a result |
| ReviewerTools.BudgetIsKept | pi/extensions/reviewer-tools.js:1151-1173 | the accounted bytes never exceed the budget |
| ReviewerTools.NothingIsTakenBack | pi/extensions/reviewer-tools.js:47-299 | overrun, preflight verdict, axis results, briefs, the final and the result file stay once there; so there is at most one submission |
| ReviewerTools.NoDecisionAfterOverrun | pi/extensions/reviewer-tools.js:220-299 | once overrun without a decision on disk, no decision is ever written |
| ReviewerTools.DecisionIsDurableExactly | pi/extensions/reviewer-tools.js:137-142 | the submitted decision is what the final checkpoint holds if and only if linking it right after aggregation did not fail |
| ReviewerTools.DecisionCanBeLost | pi/extensions/reviewer-tools.js:137-142 | a run on valid axis results that submits a pass its checkpoint never held |
| ReviewerTools.OverfullReviewCannotDecide | pi/extensions/reviewer-tools.js:637-648 | a review whose aggregation holds more than 64 findings can never be decided |
| ReviewerTools.AggregationFits | pi/extensions/reviewer-tools.js:637-648 | for valid axis results the submission tool's schema accepts the aggregation if and only if it holds at most 64 findings |
| ReviewerTools.DecidableExactly | pi/extensions/reviewer-tools.js:220-299 | in every run on valid axis results, once both axes are complete in a ready environment and nothing is submitted or overrun, some submission writes a decision if and only if the axes and the receipt hold at most 64 findings; then the one that repeats exactly those findings does |
| ReviewerTools.OverfullReviewHappens | pi/extensions/reviewer-tools.js:637-648 | a concrete run on valid results, complete and within its budget, whose 65 findings no submission can decide |
| ReviewerTools.Tools.OnSubagentCall | pi/extensions/reviewer-tools.js:69-109 | the handler allows exactly the permitted calls and records briefs, launches and retries as specified |
| ReviewerTools.Tools.OnAxesReturn | pi/extensions/reviewer-tools.js:111-149 | the handler settles the returned axes, publishes them, aggregates when complete and accounts its answer |
| ReviewerTools.Tools.Settle | pi/extensions/reviewer-tools.js:125-134 | axis results are settled in order until publishing one fails |
| ReviewerTools.Tools.AggregateFinal | pi/extensions/reviewer-tools.js:137-142 | the aggregation is kept, then linked |
| ReviewerTools.Tools.OnGenericReturn | pi/extensions/reviewer-tools.js:150-157 | other tool results only spend the budget |
| ReviewerTools.Tools.RespondWith | pi/extensions/reviewer-tools.js:1151-1173 | an answer is accounted or the overrun is recorded for good |
| ReviewerTools.Tools.PublishPoint | pi/extensions/reviewer-tools.js:758-779 | a checkpoint is published at most once |
| ReviewerTools.Tools.ReviewPreflight | pi/extensions/reviewer-tools.js:161-218 | preflight is decided once and aggregates reused axes |
| ReviewerTools.Tools.CheckSubmission | pi/extensions/reviewer-tools.js:238-291 | a submission is accepted exactly under the handler's conditions |
| ReviewerTools.Tools.ReviewSubmit | pi/extensions/reviewer-tools.js:220-299 | a submission writes the result file exclusively and only then is done |
| ReviewerRules.RespondExactly | pi/extensions/reviewer-tools.js:1151-1173 | what an answer, or its refusal, takes from the budget, and exactly when the budget is overrun |
| ReviewerRules.CallExactly | pi/extensions/reviewer-tools.js:69-109 | exactly which call may launch which axes |
| ReviewerRules.CallRecords | pi/extensions/reviewer-tools.js:101-108 | an allowed call counts one more launch of each of its axes under its first brief and uses up its retry; a refused one changes nothing |
| ReviewerRules.SettledExactly | pi/extensions/reviewer-tools.js:125-134 | an axis result is kept exactly when its checkpoint was published; a blocked one leaves a retry exactly when its failure allows that after a single launch |
| ReviewerRules.PreflightExactly | pi/extensions/reviewer-tools.js:161-218 | exactly when the first preflight reports a ready environment, which later ones repeat, and that it moves nothing else |
| ReviewerRules.SubmissionExactly | pi/extensions/reviewer-tools.js:238-291 | exactly which submissions are accepted |
| ReviewerRules.SubmissionRecords | pi/extensions/reviewer-tools.js:280-297 | when an accepted submission writes the result file and when it counts as submitted |
| ReviewerRules.BlockedSummaryExactly | pi/extensions/reviewer-tools.js:744-752 | the summary of a blocked review keeps the record of the axis failures within 4,000 units, after as much of its own text as fits |
| Compaction.TurnHook.NextTurn | src/pi-rpc-compaction-compat.ts:148-300 | a turn emits nothing or its start and end events, changes the session or throws, as the context and each foreign call decide; the cases and failure codes are spelled out on the turn's own fields |
| Compaction.TurnEndsExactly | src/pi-rpc-compaction-compat.ts:148-300 | a turn triggers exactly from three quarters of the window on, and ends compacted if and only if it was countable, its messages serialised and its last request returned a well-made summary; otherwise which failure code each case gives |
| Compaction.SummaryExactly | src/pi-rpc-compaction-compat.ts:242-274 | a summary is accepted exactly when it is a text that is not empty, keeps a text id, is safely counted before and after, and is installed over a list of messages |
| Compaction.TurnHook.RequestSummary | src/pi-rpc-compaction-compat.ts:208-241 | only a transient first failure is retried, once |
| Compaction.OnePairAtMost | src/pi-rpc-compaction-compat.ts:148-300 | however many turns run, the hook emits nothing or exactly the pair of the first turn over the threshold, after at most two summary requests |
| Compaction.ProjectCompaction | src/pi-rpc-sdk-entry.ts:457-471 | the projection keeps exactly the allowed texts, each cut to 256 bytes, and the allowed counts, and adds the payload's metadata |
| Compaction.ProjectedIs | src/pi-rpc-sdk-entry.ts:457-471 | an event of the protocol's own shape passes the projection unchanged |
| Compaction.ProjectionExactly | src/pi-rpc-sdk-entry.ts:457-471 | exactly which fields pass: the six texts, the nine counts that are safe and not negative, and what every projection adds; counts and short texts pass unchanged |
| Compaction.StartIsAccepted | src/pi-rpc-runner.ts:923-1063 | the projected start event takes the phase machine from idle to started |
| Compaction.StartTaken | src/pi-rpc-runner.ts:923-1063 | the start event a triggered turn emits passes the projection and takes the phase machine from idle to started |
| Compaction.AcceptExactly | src/pi-rpc-runner.ts:923-1063 | exactly which event the phase machine takes in which phase, with which keys and counts, and the receipt it leaves |
| Compaction.PairIsTaken | src/pi-rpc-runner.ts:923-1063 | every triggered turn's pair drives the phase machine idle, started, ended without a protocol failure, and its receipt reports the turn's own numbers: completed exactly for a well-made summary, else the failure code of the case |
| Compaction.DeliverRun | src/pi-rpc-compaction-compat.ts:148-300 | the whole chain: over any turns, what the hook emits passes the projection and leaves the phase machine idle if and only if no turn was over the threshold, and otherwise ended without a protocol failure, with a receipt the evidence reader accepts that reports how the first turn over the threshold ended |
| Compaction.FailedReceiptIsSafe | src/adapters/local-evidence.ts:246-281 | the receipt of a failed compaction is accepted unchanged |
| Compaction.SafeReceiptExactly | src/adapters/local-evidence.ts:246-281 | exactly which receipts the evidence reader accepts, with which keys, outcome and counts |
| Compaction.CompletedReceiptIsSafe | src/adapters/local-evidence.ts:246-281 | the receipt of a completed compaction is accepted unchanged |
| RunnerFold.Runner.PersistEvent | src/pi-rpc-runner.ts:339-466 | one event updates the run's variables as the fold's step does |
| RunnerFold.TroubleStays | src/pi-rpc-runner.ts:339-466 | recorded trouble is never cleared, and neither is settlement |
| RunnerFold.OkRunIsClean | src/pi-rpc-runner.ts:605-704 | a run whose receipt says `ok` had at most one agent start, no open retry, no forbidden or unknown-unsafe event, no assistant error, a settlement, and before it no compaction event or one start with one completed end |
| RunnerFold.OkExactly | src/pi-rpc-runner.ts:605-704 | a run is `ok` if and only if its three outcome flags are good, some event is a settlement and every event fits what came before it, kind by kind: at most one agent start, no forbidden, failed or unsafe event, cleanup only where allowed, and before a settlement no compaction event or one accepted pair |
| RunnerFold.LateCompactionDangles | src/pi-rpc-runner.ts:339-466 | a compaction that starts after the last settlement is left open by an `ok` run |
| RunnerFold.OkRunPairsExactly | src/pi-rpc-runner.ts:605-704 | all compaction events of an `ok` run are paired if and only if the last of them, if any, is not a start |
| IssueGraph.EnqueueReferences | src/adapters/github-gh.ts:376-379 | every parent and sub-issue is known or queued afterwards, and nothing else is added |
| IssueGraph.Gather | src/adapters/github-gh.ts:54-64 | exactly the listed issues are known, their references are known or queued, and whatever is queued is reachable |
| IssueGraph.Crawl | src/adapters/github-gh.ts:65-74 | the work list succeeds whenever every reachable issue can be fetched and at most 200 are reachable; when it succeeds, exactly the reachable issues are known, each as fetched |
| IssueGraph.ListIssueGraph | src/adapters/github-gh.ts:36-76 | the crawl ends on every graph; it returns whenever every reachable issue can be fetched and at most 200 are reachable, and only if all can be fetched; the result, when fetches answer with what was asked for, is exactly the reachable issues, none twice, in ascending order, closed under parents and sub-issues |
| Eligibility.CollectOwners | src/eligibility.ts:45-53 | each child's owners are the issues that list it, once per mention, in order |
| Eligibility.OwnersExactly | src/eligibility.ts:45-53 | an issue has no owner exactly when no issue lists it, and one owner exactly when one issue lists it, once |
| Eligibility.CheckMap | src/eligibility.ts:59-124 | the checks on one Map, in order, give its verdict |
| Eligibility.SelectNextTask | src/eligibility.ts:39-142 | the loops compute the specified eligible list, selection and diagnostics |
| Eligibility.SelectionIgnoresOrder | src/eligibility.ts:39-142 | every permutation of snapshots with distinct numbers gives the same eligible list and selection |
| Eligibility.EligibleFacts | src/eligibility.ts:39-142 | a task is eligible if and only if it is an executable issue that is no Map and is either listed by no issue or listed once, by one active Map, as the first OPEN of its children; the list is distinct and the selection has the least key and then number |
| Eligibility.CommonFailureExactly | src/eligibility.ts:148-173 | the first reason against an issue, in the order of the checks; there is none exactly for an open, labelled, unassigned, unblocked and unclaimed issue |
| Eligibility.ClosedNeverMisses | src/eligibility.ts:83-91 | on a closed set no `missing_child_snapshot` is ever reported |
| Eligibility.DiagnosedExactly | src/eligibility.ts:39-142 | exactly which diagnostics selection reports: for each issue, its reason, and for each Map what is wrong with it or its first OPEN child |
| Restart.ThreadedIsHistory | src/fleet/restart-policy.ts:7-24 | pruning at every exit loses nothing: the threaded timestamps are the history since the last stable run, cut to the trailing window |
| Restart.RestartsAreRare | src/fleet/restart-policy.ts:7-24 | without a stable run no window holds more than `maxRestarts` restarts |
| Restart.BackoffDoubles | src/fleet/restart-policy.ts:18-22 | each further start waits twice as long, up to the cap, which is never exceeded |
| Restart.RestartWaits | src/fleet/restart-policy.ts:7-24 | a restart waits the clipped power of two of its place in the window |
| Checkpoints.FindReusable | src/adapters/git-cli.ts:332-369 | the loop finds exactly the specified bindings |
| Checkpoints.VerifyOne | src/adapters/git-cli.ts:371-397 | a binding verifies exactly when its file, digest, identity and stage all fit |
| Checkpoints.VerifyCheckpoints | src/adapters/git-cli.ts:371-397 | verification succeeds exactly when the bindings are few, distinct and each verifies |
| Checkpoints.OfferedDiffer | src/reviewer-checkpoints.ts:37-71 | different stages of one source never share a digest |
| Checkpoints.FoundIsOffered | src/adapters/git-cli.ts:332-369 | every binding found is one offered, and no two share a stage or a digest |
| Checkpoints.FoundExactly | src/adapters/git-cli.ts:332-369 | exactly which stages are found: those with a worthwhile checkpoint of the same task, head and plan that was not consumed, a preflight only with its own validation, a final only with validation and both axes; and what each binding names |
| Checkpoints.FoundIsClosed | src/adapters/git-cli.ts:332-369 | the bindings found are dependency-closed |
| Checkpoints.FoundVerifies | src/adapters/git-cli.ts:371-397 | on unchanged files every binding found passes the later verification |
| Checkpoints.VerifiesExactly | src/adapters/git-cli.ts:371-397 | a binding verifies if and only if the first source of its Attempt still has, under that path and digest, a checkpoint the consumer may build on |
| Checkpoints.FoundStartsClosed | src/reviewer-checkpoints.ts:73-80 | a Reviewer given the bindings found starts from dependency-closed inputs |
| Checkpoints.CollectConsumed | src/controller/attempt-preparation.ts:150-190 | the consumed digests are collected in order |
| Checkpoints.CheckInputs | src/model.ts:1002-1035 | the invariant's loops accept exactly sound, never-repeated checkpoint inputs |
| Checkpoints.ConsumedAtMostOnce | src/model.ts:1002-1035 | over any run of Attempts no checkpoint is consumed twice |
| Checkpoints.PreparedAttemptIsSound | src/controller/attempt-preparation.ts:150-190 | an Attempt prepared with the bindings found satisfies the ledger's invariant for Attempts, before it settles and after |
| Canary.WilsonIsScoreTest | src/canary.ts:540-554 | the interval before clipping is exactly the set of rates the score test does not reject |
| Canary.WilsonExactly | src/canary.ts:540-554 | the reported interval is exactly the set of rates in [0, 1] the score test does not reject, stated on the counts of hits and runs |
| Canary.RateIs | src/canary.ts:540-554 | the observed rate times the total is the number of hits |
| Canary.WilsonContainsRate | src/canary.ts:540-554 | the interval contains the observed rate and stays inside [0, 1] |
| Canary.NewcombeContainsDifference | src/canary.ts:493-514 | the interval contains the observed difference, stays inside [-1, 1], and is bounded by moving one rate and both |
| Canary.NewcombeMirrors | src/canary.ts:493-514 | exchanging baseline and candidate mirrors the interval |
| Canary.PercentileIsNearestRank | src/canary.ts:525-528 | the percentile is the nearest-rank one |

## Left out

What the models abstract:

- SHA-256 digests are values of an injective constructor, instance and approval identifiers are fresh, and a dead process stays
  dead. A lease's process id is the owner's own.
- File modes, fsync, symbolic links, path canonicalisation, process spawning and signals are not modelled. Creation is exclusive,
  rename and unlink are atomic, and a crash may come between any two of them.
- JSON numbers are kept as their lexemes, so the models say nothing about number formatting; lexemes are those of section 6 of
  RFC 8259. Code points of a string are UTF-16 units as JavaScript holds them, lone surrogates included.
- Time is a number of milliseconds with its spelling; reading and writing ISO 8601 is not modelled.
- The verdicts of regular expressions, text classifiers and field-by-field shape checks (safe diagnostics, structured diagnoses,
  unknown event shapes, axis output, the environment checks of preflight) are inputs, given as booleans or as the checked value.
- Unsafe integers and non-integer numbers are not modelled; token counts, byte counts and durations are integers.
- The square roots of the intervals are given by their defining equation, since the reals of the model have no square root.

What is not modelled:

- The fenced and whole-text forms of an axis answer in `parseReviewAxisJson`; only the scan for embedded objects is.
- `embeddedJsonObjects` on text that is not printed JSON and prose: `EmbeddedJsonObjects` says what the loop computes, not which
  objects a hostile text holds.
- The decoder's listener argument: the records handed to it are the records of the push.
- The runner's deadlines, polling, dispatch and process termination; the decision takes their outcome as given. Progress and
  side-effect flags, assistant content and diagnostics are outside the fold.
- Diagnostic detail texts of the selection, which do name owners in input order.
- The byte order in which a final result's keys are compared: the comparison is of values.
- Operator action identifiers, rendering and projections of `operatorActionsFor` beyond which actions are offered.
- Command lines and answers of `gh`, `git`, Herdr, Codex and Pi; a fetch, a run or a request is an input of its model.
- `src/controller-lease.ts`: its takeover is not under a lock, so it does not give the exclusion proved for the credential lease.
- Controller modules other than the lines cited; the observers, the status pages, the Telegram bridge and the command-line tools.
- The classification tables of `src/pi-rpc-diagnostics.ts`, which a table of cases settles.
- The canary's live execution, counts and report.

Contracts stated weaker than one might expect:

- TextBounds.BoundedHeadTail: below 19 bytes the marker itself exceeds the limit, as in the code; the bound excludes that case.
- TextBounds.BoundToolResultContent: the longest head and tail are promised for well-formed text; on a lone surrogate only the
  byte bound is.
- Jsonl.PrintedRecordsRecovered: an output whose raw line or tail exceeds the limit is not covered, because its acceptance depends
  on chunking; `Jsonl.EveryChunkingAccepted` gives the exact condition.
- RunnerFold.OkRunIsClean: pairs only the compaction events before a settlement, because a later one may be left open.
- Restart.RestartsAreRare: bounds restarts of a history without a stable run, because a stable run clears the timestamps.
- IssueGraph.ListIssueGraph: closure, distinct numbers and exact reachability need every fetch to answer with the issue asked
  for. With 201 reachable issues, or more than 200 listed ones, whether it returns depends on what is left in the queue; the
  contract then says only what a returned graph holds.
- CredentialLease.LeaseObtainableExactly: a file left incomplete before the execution began, by a creator that is no part of it,
  is not covered.
