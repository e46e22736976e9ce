# Verification of the NCO core

A Dafny model of seven cores of the repository and proofs about it. `dafny verify dfyconfig.toml` checks everything.

**Audit log** (`AuditEncoding`, `AuditChain`, `AuditEpochs`, `AuditVerify`, `AuditStore`). The hash-chained table with
its recovery epochs. SHA-256 is an arbitrary function from bytes to text; where a statement needs it, the function is
assumed to have no collision among the finitely many inputs that the two compared tables really hash. Tables are
sequences in `chain_seq` and `sequence_no` order. Tampering overwrites any content, hash or previous hash of existing
rows. The database itself is a class with the two mutators.

**Company run driver** (`CompanyRecord`, `CompanyDriver`, and the theorems in `CompanyStops`, `CompanyBudget`,
`CompanyOrder`, `CompanyEnd`, `CompanyCancel`, `CompanyWorstPipeline`, `CompanyWorstParallel`, `CompanyTraces`,
`CompanyStatus`; `CompanyOutcomes` says what each step does to the record, in its fields). A state machine whose steps are what the code does between two points where something else can come in. Every step is
either the driver (`Drive`), one of the closures of a parallel pass (`Work`), a cancel request, a crash, a restart, or
a rejected promise (`Throw`); the answers of providers, tasks and HTTP calls are arbitrary. Memory and the persisted
record are two separate copies. Two sets in the world are history that survives crashes: the stages whose output was
accepted, and those that came to count as done without that. The steps and the code they stand for: `Boot` 1160-1164,
`Reconcile` and `Recovered` 1219-1246, `Resume` 1165-1188, `Discussed` and `Split` 1625-1690, `Select` 1696-1752,
`BeginPass` 1754-1808, `EndPass` 1811-1825 and 1844-1858, `Reviewed` 1826-1841, `AtHead` 1870-1886, `Chosen` 2058-2081,
`Attempt` 2084-2096 and 2168, `Posted` 2093-2099 and 2224-2243, `TaskEnded` 2100-2124, `Judge` 2125-2138 and 1887-1908,
`Fan`, `FanChosen` and `FanPosted` 1916-1937, `BeginRetries` and `WorkerStep` 2419-2449, `Collected` 2387-2414,
`CancelRun` 821-836, `BlockRun` 1966-2000, `FinalizeRun` 2030-2052, `Fail` 1189-1216 of
`src/core/company-orchestrator.ts`. `RunRecord` is the run object with the operations that rewrite it in one go.

**Task decomposition** (`JsonText`, `Decomposition`). The code fence, the brace scanner and the filter of
`parseDecomposition`, against the concrete syntax of RFC 8259.

**API agent loop** (`ApiLoop`, `ApiHistory`, `ApiKeys`). Retries, key rotation, tool fallback and provider fallback;
the history that is trimmed and compacted in place, in UTF-16 code units; the key ring.

**CLI agent history** (`CliHistory`), **mesh mailbox** (`MeshMailbox`), **cross-validation** (`AnswerSimilarity`,
`CrossValidation`), **tokens** (`Base64Url`, `Jwt`: section 5 of RFC 4648, section 7.1 of RFC 7515).

What the proofs found out about the code:

- A cancel that arrives before the decomposition is overwritten by it and the run can go on to post tasks
  (`CancelDuringDiscussionIsLost`). A cancel holds exactly when the planning discussion is over or no decomposition
  will follow it, or nothing would be posted anyway: a dry run, a recovery without resume budget
  (`CancelHoldsExactly`).
- A parallel run whose recovery after a restart meets a blocker ends its driver with a status such as `running`
  (`ParallelRunCanBeStranded`). That is the only way to end unsettled (`EndedMeansFinal`), it happens exactly when
  resume budget is left (`BlockerInRecovery`), and the next restart settles it (`RestartSettlesBlockedRun`).
- A final status is earned in every run, in memory and on disk: `completed` means that every stage is completed or
  skipped, `failed` that something failed the run or that it ended with no stage completed (`StatusIsEarned`).
- A rejection at the value gate is final exactly when the quality review succeeds or no pass is left; otherwise the
  next pass makes the skipped stages pending again (`RejectHoldsUnlessReviewFails`).
- A stage is persisted as `completed` before its output is judged, so after a crash in between it counts as completed
  (`CrashSkipsJudging`). The recovery after a restart also takes a completed task for a completed stage when its output
  is unacceptable, and does not consult the value gate: a crash while the gate's task runs bypasses the gate
  (`GateCanBeBypassed`). There is no third way (`SlipsExactly`), and a completed stage has been accepted exactly when
  neither has happened to it (`CompletedWasAcceptedExactly`).
- A pipeline of n stages and M passes posts at most 3(n+M+2) stage tasks over all crashes and restarts, a parallel run
  at most n(M+4), and some run of every plan but a dry run posts as many (`MostPostsExactly`).
- The API loop ends exactly when the errors that arrive behind a response are bounded
  (`EndsExactlyWhenLateFailuresAreBounded`), and can run for ever otherwise (`LateFailuresCanLoopForever`).
- The joined text that a row hash covers is ambiguous exactly when actor, action, target or metadata contains the
  separator; for metadata alone the other reading has a separator elsewhere (`AmbiguousExactly`).
- An object in an answer is parsed exactly when it stands in the region that the fence match leaves, with no brace in
  front of it (`ObjectIsParsedExactly`). So an object with two fence marks inside one of its strings is lost
  (`MarksInStringLoseObject`).
- The word tables of the cosine are plain objects, so the word `constructor` finds an inherited function and the cosine
  becomes 0. Similarity stays symmetric and within 0 and 1, but a text with that word is not fully alike to itself
  (`SimilarityWithItself`).
- Mesh delivery is at least once and not exactly once (`DeliveryCanRepeat`, `EarlyReturnRepeats`): a message is read
  again exactly when none of its readers has drained it yet (`ReadAgainExactly`).

## Model

| member | source | states |
|---|---|---|
| AuditEncoding.PreimageDeterminesPrevHash | src/audit/merkleLog.ts:155-168 | equal hashed texts point back to the same previous hash, whatever the other fields contain |
| AuditEncoding.PreimageIsJoined | src/audit/merkleLog.ts:155-168 | the hashed text is id, time, actor, action, target, metadata, severity and previous hash joined by the separator, in this order |
| AuditEncoding.PreimageDeterminesFields | src/audit/merkleLog.ts:155-168 | without a separator in id, actor, action, target and the hash, the joined text determines every hashed field, although metadata may contain separators |
| AuditEncoding.AmbiguousExactly | src/audit/merkleLog.ts:155-168 | for a row whose id and previous hash have no separator: another row with different fields has the same hashed text exactly when actor, action, target or metadata contains one, and then there is one with the same id and previous hash |
| AuditEncoding.CanonicalBytesSnoc | src/audit/merkleLog.ts:204-244 | the running digest of the first rows can be extended row by row |
| AuditEncoding.CanonicalExample | src/audit/merkleLog.ts:181-244 | the digested fields of one row and the length prefix of a field, spelled out |
| AuditEncoding.CanonicalLines | src/audit/merkleLog.ts:204-244 | the digest input is the version line and one line of length-prefixed fields for each row |
| AuditEncoding.DigestInputDecodes | src/audit/merkleLog.ts:181-185 | a decoder reads the length-prefixed rows back: the digest input is uniquely decodable |
| AuditEncoding.EqualDigestsMeanEqualRows | src/audit/merkleLog.ts:204-244 | equal canonical digests mean equally many rows with the same digested fields, null read as its marker |
| AuditChain.ChainVerdictMeaning | src/audit/merkleLog.ts:617-644 | a verdict is valid exactly for an intact chain; otherwise it names the first bad row, counts the intact ones before it, and says whether the link or the hash is wrong, the link first |
| AuditChain.VerifyRows | src/audit/merkleLog.ts:617-644 | the loop that only remembers the previous hash computes that verdict, stated on the links and hashes of the rows |
| AuditChain.VerdictAfterAppend | src/audit/merkleLog.ts:617-644 | a row linked behind an intact chain adds one to the count; a broken chain stays broken at the same row |
| AuditChain.EqualTipsMeanEqualPreimages | src/audit/merkleLog.ts:617-644 | two accepted chains with the same start, length and last hash hashed the same texts, row by row |
| AuditChain.EqualTipsMeanEqualFields | src/audit/merkleLog.ts:155-168 | and agree field by field when identifiers contain no separator |
| AuditChain.KeysetContinues | src/audit/merkleLog.ts:651-672 | resuming behind the last row of a page continues exactly with the next row |
| AuditChain.RowsForEpoch | src/audit/merkleLog.ts:646-672 | for every page size, exactly the rows of the epoch, each once and in chain order |
| AuditEpochs.EqualCheckpointsMeanEqualEpochs | src/audit/merkleLog.ts:246-269 | equal checkpoint hashes mean equal checkpointed epoch data |
| AuditEpochs.CheckpointLines | src/audit/merkleLog.ts:246-269 | a checkpoint hash covers its version line and the length-prefixed checkpointed fields |
| AuditEpochs.CheckpointExample | src/audit/merkleLog.ts:246-269 | the fifteen checkpointed fields of one epoch, spelled out |
| AuditEpochs.ValidateLinks | src/audit/merkleLog.ts:311-327 | the first loop: numbers 1..n and checkpoint links from genesis, first failure reported |
| AuditEpochs.ValidateReadyEpochs | src/audit/merkleLog.ts:335-347 | one turn at a boundary settles every epoch waiting for it, as separate full scans would |
| AuditEpochs.ValidateSnapshots | src/audit/merkleLog.ts:329-366 | the single pass with a copied running digest gives the verdict of one full scan per epoch |
| AuditEpochs.ValidateEpochLineage | src/audit/merkleLog.ts:298-366 | the whole check computes the verdict of the separate definition |
| AuditEpochs.LineageAcceptsExactly | src/audit/merkleLog.ts:271-366 | a lineage is accepted exactly when it has the right number of epochs and each record fits its place: number, link, boundary that exists and does not go back, and the row count, digest, anchor, tip and checkpoint hash of the rows below the boundary |
| AuditEpochs.SnapshotFaults | src/audit/merkleLog.ts:271-296 | which fault of a snapshot is reported, in record fields: row count, then anchor, then tip, then checkpoint hash |
| AuditEpochs.LineageNamesFirstFault | src/audit/merkleLog.ts:298-366 | a rejected lineage is told its first fault: a gap, the first bad number or link, or the first bad boundary or snapshot |
| AuditEpochs.CheckpointPinsHistory | src/audit/merkleLog.ts:246-366 | two accepted lineages with the same last checkpoint agree on all checkpoints and on every row below them |
| AuditVerify.VerifyLegacy | src/audit/merkleLog.ts:674-676 | for every page size, the chain verdict of the rows before any epoch |
| AuditVerify.VerifyEpoch | src/audit/merkleLog.ts:678-686 | lineage first, then the chain from the anchor, for every page size |
| AuditVerify.VerifyCurrent | src/audit/merkleLog.ts:725-728 | the verdict of the current scope |
| AuditVerify.VerifyWholeHistory | src/audit/merkleLog.ts:688-707 | legacy rows and every epoch in order, stopping at the first failure |
| AuditVerify.HistoryMeaning | src/audit/merkleLog.ts:688-707 | the history is valid exactly when every scope is, and then counts all of them |
| AuditVerify.FirstFailureIsReported | src/audit/merkleLog.ts:688-707 | otherwise it fails as the first failing epoch does, counting what was checked up to there |
| AuditVerify.EpochVerdictMeaning | src/audit/merkleLog.ts:678-686 | an epoch is valid exactly on an intact lineage and an intact chain from its anchor; a broken lineage is reported before any entry |
| AuditVerify.FailureIsFinal | src/audit/merkleLog.ts:688-707 | once an earlier scope fails, later epochs do not change the verdict |
| AuditVerify.VerifyEntryMeaning | src/audit/merkleLog.ts:743-814 | an unknown id, an entry without its epoch, one with a broken lineage, and otherwise the validity of the entry itself |
| AuditVerify.EntriesCoverTheChain | src/audit/merkleLog.ts:743-814 | a chain is intact exactly when every entry passes on its own |
| AuditVerify.LegacyChecksAgree | src/audit/merkleLog.ts:674-814 | the legacy check accepts exactly when the single-entry check accepts each of its rows |
| AuditVerify.EpochChecksAgree | src/audit/merkleLog.ts:678-814 | the same for an epoch with rows; an epoch without rows stands on its lineage alone |
| AuditStore.ObservedInvalidRowMeansIntactLineage | src/audit/merkleLog.ts:466-479 | a recovery that is granted had an intact prior lineage |
| AuditStore.NewEpochStartsEmpty | src/audit/merkleLog.ts:480-542 | between the checkpoint and its first entry the new epoch verifies with nothing in it |
| AuditStore.StartedExactly | src/audit/merkleLog.ts:430-479 | a start is granted exactly to an acknowledged request with its fields, evidence of at most 64 KiB, and the id of the first invalid entry of an invalid current scope |
| AuditStore.FirstFaultIsReported | src/audit/merkleLog.ts:430-479 | which of its faults a refused request is told, in both directions |
| AuditStore.StartedCheckpoint | src/audit/merkleLog.ts:480-530 | the checkpoint of a started epoch, field by field |
| AuditStore.StartedEntry | src/audit/merkleLog.ts:530-542 | its first entry, field by field: audit_epoch_started, critical, the actor of the request, the epoch as target, linked to the anchor |
| AuditStore.AppendExtendsCurrent | src/audit/merkleLog.ts:369-427 | appending adds one to a valid current scope and cannot hide a broken one |
| AuditStore.BeginRepairsCurrent | src/audit/merkleLog.ts:430-562 | a successful start leaves a current epoch valid with one entry, adds exactly one epoch, and leaves the history as invalid as it was |
| AuditStore.RunKeepsTables | src/audit/merkleLog.ts:369-562 | every run of appends, tampers and epoch starts keeps keys unique and tables ordered |
| AuditStore.AppendsKeepRecovery | src/audit/merkleLog.ts:369-427 | any continuation without tampering from a valid current epoch: one entry more per append, every further start refused, older scopes unmoved |
| AuditStore.RecoveryHolds | src/audit/merkleLog.ts:369-707 | after any past of appends, tampers and starts, a successful start followed by any continuation without tampering, with n appends and any number of further start attempts, gives a current epoch valid with 1 + n entries and an unchanged, still invalid history with the same first invalid id |
| AuditStore.RecoveryCanHappen | src/audit/merkleLog.ts:430-562 | such runs exist: after one entry whose link is overwritten every well-formed request that names it succeeds |
| AuditStore.HonestRunsVerify | src/audit/merkleLog.ts:369-562 | without tampering the log always verifies and every start of an epoch is refused |
| AuditStore.AuditDatabase.AppendAudit | src/audit/merkleLog.ts:369-427 | appends one row and changes nothing else; actor, action, target, metadata, severity, id and time are those given or their defaults, and the link is that of the last row of the current epoch or its anchor |
| AuditStore.AuditDatabase.BeginAuditEpoch | src/audit/merkleLog.ts:430-562 | refused without a trace, or checkpoint and first entry together: that entry says audit_epoch_started, critical, by the requesting actor, for the new epoch, linked to the digest of the whole log; the new scope is valid with one entry |
| CompanyRecord.FinalizeMeaning | src/core/company-orchestrator.ts:1943-1964 | a cancel stays, a blocked run is partial; any other is completed exactly when every stage is completed or skipped, failed exactly when that is not so and none is completed, partial exactly when that is not so and some is |
| CompanyRecord.CountsAddUp | src/core/company-orchestrator.ts:1943-1964 | the failed count of the summary is the number of pending, running, failed, timed-out and cancelled stages |
| CompanyRecord.RunRecord.Cancel | src/core/company-orchestrator.ts:815-853 | pending and running stages and the run become cancelled, the tasks to cancel are exactly those of such stages; a finished run is left alone |
| CompanyRecord.RunRecord.ApplyBlocked | src/core/company-orchestrator.ts:1966-2000 | fingerprint recorded, stage blocked; in a pipeline later unfinished stages skipped and the run partial |
| CompanyRecord.RunRecord.Finalize | src/core/company-orchestrator.ts:2030-2052 | the same over the stages of the record, which are left alone |
| CompanyRecord.RunRecord.Refine | src/core/company-orchestrator.ts:1761-1799 | completed stages untouched, the others pending without task, or failed where no provider is assigned |
| CompanyStops.PostsOnlyWhileGoing | src/core/company-orchestrator.ts:2158-2164 | at most one post a step, and only while the run is neither cancelled nor blocked |
| CompanyStops.StepKeepsInv | src/core/company-orchestrator.ts:871-874 | blockers, counters and retry counts in memory and on disk agree after every step, and a blocked stage has left its fingerprint |
| CompanyStops.BlockersNeverShrink | src/core/company-orchestrator.ts:1973-1977 | no step removes a fingerprint, a crash and a restart included |
| CompanyStops.HaltedStaysHalted | src/core/company-orchestrator.ts:802-813 | a cancelled, blocked or settled run stays so through every kind of step and posts nothing |
| CompanyStops.NoPostAfterCancel | src/core/company-orchestrator.ts:1755-1941 | after a cancel that finds the run unfinished and past its planning discussion, or restarted with all its subtasks and therefore not to be decomposed again, no stage task is posted in any continuation, in either mode |
| CompanyStops.NoPostAfterBlocker | src/core/company-orchestrator.ts:1966-2000 | after any stage has reported a blocker, none either, crashes and restarts included |
| CompanyBudget.StepKeepsCounted | src/core/company-orchestrator.ts:195-206 | passes begun never exceed completed passes plus resumes plus the one that may be open |
| CompanyBudget.StepKeepsPosts | src/core/company-orchestrator.ts:2069-2096 | posts stay within three per settled stage and per pass of a pipeline, within one per stage and pass plus one retry ever per stage of a parallel run |
| CompanyBudget.PostsAreBounded | src/core/company-orchestrator.ts:2282-2290 | over all passes, crashes, restarts and cancels a pipeline of n stages and M passes posts at most 3(n+M+2) tasks, a parallel run at most n(M+4), in at most M+3 passes with unfinished stages |
| CompanyOrder.StepKeepsOrder | src/core/company-orchestrator.ts:1863-1908 | in memory and on disk the completed stages are a prefix, nothing behind the stage in hand has been touched, and no stage is both accepted and slipped through |
| CompanyOrder.DispatchedInOrder | src/core/company-orchestrator.ts:1868-1887 | whenever a pipeline posts for stage s, in any life of any run, 0..s-1 are exactly the stages that were accepted or slipped through, each in one of the two ways and not in both |
| CompanyOrder.AcceptanceIsEarned | src/core/company-orchestrator.ts:2117-2138 | in either mode, over every kind of step, recovery, crashes and restarts included: acceptance is never taken back and is given exactly to a completed task with acceptable output and, at the value gate, a decision |
| CompanyOrder.SlipsExactly | src/core/company-orchestrator.ts:1219-1246 | a stage of a pipeline comes to count as done unaccepted exactly by a crash while its completed status is persisted and unjudged, or by a recovery that finds its task completed with unacceptable output or at the value gate |
| CompanyOrder.CompletedWasAcceptedExactly | src/core/company-orchestrator.ts:1165-1246 | whenever no stage is in hand, on entering a restarted life in particular, a completed stage has been accepted, at the gate with a decision, exactly when it never slipped through |
| CompanyEnd.LivesAreFinite | src/core/company-orchestrator.ts:1754-1858 | a life that does not crash takes only a bounded number of driver and closure steps, whatever the answers and however cancels interleave |
| CompanyEnd.NeverStuck | src/core/company-orchestrator.ts:1938-1940 | before its end the driver can move, or a closure it waits for can |
| CompanyEnd.EndedMeansFinal | src/core/company-orchestrator.ts:1754-1858 | an ended driver leaves a final status in memory and on disk, but for a parallel run whose recovery met a blocker |
| CompanyEnd.RestartSettlesBlockedRun | src/core/company-orchestrator.ts:1160-1164 | a restart settles a blocked unfinished run as partial without driving it |
| CompanyCancel.CancelHoldsExactly | src/core/company-orchestrator.ts:1625-1626 | in every reachable unfinished world that is up, in either mode: a cancel is followed by no post in any continuation exactly when no decomposition can follow it, the run is a dry run, or its recovery has no resume budget |
| CompanyCancel.CancelDuringDiscussionIsLost | src/core/company-orchestrator.ts:1625-1626 | a persisted cancel during the discussion of any fresh run that is not a dry run can be followed by a post |
| CompanyWorstParallel.PostLimitIsReached | src/core/company-orchestrator.ts:2282-2290 | for every plan that is not a dry run, in either mode, some run posts as many tasks as that bound says |
| CompanyWorstParallel.MostPostsExactly | src/core/company-orchestrator.ts:1754-1858 | the exact maximum of posts of every plan: no run posts more, some run posts as many, and a dry run posts nothing |
| CompanyStatus.StatusIsEarned | src/core/company-orchestrator.ts:1754-1858 | over every run, crashes, restarts and cancels included, in memory and on disk: completed only with every stage completed or skipped, planned only for a dry run, cancelled only after a cancel, failed only after a failure or with no stage completed, partial only if blocked or with some stages completed and some not |
| CompanyOutcomes.RecoveryOutcome | src/core/company-orchestrator.ts:1160-1246 | what a recovered task makes of its stage, that a blocker ends the reconciliation, and when a restarted run goes on: everything is completed, or at most three resumes and a pass is left |
| CompanyOutcomes.PassBegins | src/core/company-orchestrator.ts:1754-1808 | a cancelled or blocked run gets no further pass; from the second pass on every stage that is not completed becomes pending without a task |
| CompanyOutcomes.PassEnds | src/core/company-orchestrator.ts:1811-1858 | a blocked pass is finalized, one with every stage completed or safely rejected is reviewed, any other is followed by the next pass |
| CompanyOutcomes.TaskOutcome | src/core/company-orchestrator.ts:2100-2124 | retryable blocker, blocker, cancel and ordinary result of a pipeline task, in this order |
| CompanyOutcomes.JudgingOutcome | src/core/company-orchestrator.ts:1887-1908 | unacceptable output goes to the next executor; at the value gate a missing decision fails the stage and a rejection skips all later ones |
| CompanyOutcomes.CollectionOutcome | src/core/company-orchestrator.ts:2387-2414 | what a collected task makes of its stage in a parallel pass, and that a late failure does not overwrite a cancelled run |
| CompanyTraces.RejectSkipsTheRest | src/core/company-orchestrator.ts:1897-1904 | a rejection ends the pass with every later stage skipped and every earlier one completed |
| CompanyTraces.RejectHoldsUnlessReviewFails | src/core/company-orchestrator.ts:1824-1841 | a rejection ends the run exactly when the review succeeds or no pass is left; otherwise the next pass makes the skipped stages pending |
| CompanyTraces.CrashSkipsJudging | src/core/company-orchestrator.ts:2123-2130 | a crash before the output is judged makes the stage count as completed, unjudged, after the restart |
| CompanyTraces.GateCanBeBypassed | src/core/company-orchestrator.ts:1236-1239 | a run from its start in which the gate's task completes across a crash, with any report whatever: the next stage is posted without a decision |
| CompanyTraces.ParallelRunCanBeStranded | src/core/company-orchestrator.ts:1755-1756 | a parallel run from its start to an ended driver that leaves it running |
| CompanyTraces.BlockerInRecovery | src/core/company-orchestrator.ts:1165-1188 | with a blocker met by the recovery, a parallel run is settled exactly when its resume budget is used up, and left as it was otherwise |
| Decomposition.FindEnd | src/core/company-orchestrator.ts:556-567 | the loop finds where the recursive scan of the rest breaks, or -1 |
| Decomposition.ValueIsNeutral | src/core/company-orchestrator.ts:557-566 | every JSON value inside an object leaves depth, string and escape state as it found them |
| Decomposition.ScanFindsObject | src/core/company-orchestrator.ts:556-567 | started at an object, the scan breaks exactly at the object's last brace, whatever follows |
| Decomposition.ObjectIsFound | src/core/company-orchestrator.ts:553-567 | in the scanned text the object is what is extracted exactly when no brace comes before it |
| Decomposition.PlainAnswer | src/core/company-orchestrator.ts:545-570 | an answer without a fence, junk without a brace, an object, anything: what is parsed is that object |
| Decomposition.FencedAnswer | src/core/company-orchestrator.ts:549-570 | the same for an object inside the first fence, tagged or not |
| Decomposition.FenceHidesObject | src/core/company-orchestrator.ts:549-554 | a first fence without a brace yields nothing, whatever stands around it |
| Decomposition.ObjectIsParsedExactly | src/core/company-orchestrator.ts:545-570 | for every answer: a given object is what is parsed exactly when the region left by the fence is that object with no brace in front of it |
| Decomposition.MarksInStringLoseObject | src/core/company-orchestrator.ts:549-554 | an object whose text holds two fence marks with no brace between them is lost, although nothing surrounds it |
| Decomposition.Filter | src/core/company-orchestrator.ts:572-575 | the loop keeps exactly the non-blank texts of known teams, trimmed |
| Decomposition.ParseDecomposition | src/core/company-orchestrator.ts:545-577 | the kept entries of what the extracted text parses to, if there is one; nothing exactly when text, parse or entries are missing |
| Text.TrimMeaning | src/core/company-orchestrator.ts:547-575 | trimming takes white space off both ends, and all of it |
| ApiLoop.TurnBurnsFuel | src/agent/api-executor.ts:227-500 | every turn that continues lowers the measure in spite of the three `iterations--`, but for an error behind a response |
| ApiLoop.ErrorIsHandled | src/agent/api-executor.ts:437-490 | what becomes of an error: rotation up to twice per key, two retries of a retryable one, one fall back to text tools, else the end |
| ApiLoop.OutcomeIsHandled | src/agent/api-executor.ts:227-436 | what each outcome of a turn leads to; a response renews the retries |
| ApiLoop.TurnsAreBounded | src/agent/api-executor.ts:227-500 | while the loop is in business it has used at most 31 + 2k turns plus two for each error behind a response, k keys |
| ApiLoop.EndsExactlyWhenLateFailuresAreBounded | src/agent/api-executor.ts:299 | the loop ends exactly when the errors that arrive behind a response are bounded |
| ApiLoop.FewLateAnswersEnd | src/agent/api-executor.ts:227-500 | on the answers alone: with at most a of them errors behind a response the loop ends within 32 + 2k + 2a turns |
| ApiLoop.TirelessAnswersNeverEnd | src/agent/api-executor.ts:299 | on the answers alone: a retryable error behind every response ends the loop for no number of turns |
| ApiLoop.LateFailuresCanLoopForever | src/agent/api-executor.ts:299 | a connection lost behind every response keeps the loop busy for ever |
| ApiLoop.TurnBoundIsMet | src/agent/api-executor.ts:438-497 | without such errors the bound of 31 + 2k requests is reached by some sequence of answers |
| ApiLoop.ConverseWithProvider | src/agent/api-executor.ts:227-538 | the loop leaves where the turn-by-turn definition says, after at most that many requests |
| ApiLoop.Run | src/agent/api-executor.ts:181-572 | the recursion into fallback providers ends; providers are tried along the configured chain, each once, and every one before the last handed over; the output is the answer of the turn that left the last loop and never blank, an error is how that loop was left, a credential failure comes exactly from the last provider's keys; a failure that may fall back surfaces only when nobody is left |
| ApiHistory.TrimmedKeepsWholeTurns | src/agent/api-executor.ts:234-249 | whole oldest turns are cut behind the first two messages, no more than needed, until both limits hold or at most one turn is left |
| ApiHistory.TrimmingKeepsPairs | src/agent/api-executor.ts:234-249 | every tool result still stands behind the assistant message with its call |
| ApiHistory.Conversation.Trim | src/agent/api-executor.ts:237-249 | the splicing loop does that and ends: behind the first two messages a suffix that starts a turn, at most 26 messages and 40,000 characters or a single turn, and every earlier cut was over these limits |
| ApiHistory.SliceWidth | src/agent/api-executor.ts:255-266 | a cut saves a character of JSON per code unit dropped, but for one torn surrogate pair |
| ApiHistory.CompactedFits | src/agent/api-executor.ts:259-266 | a compacted content is shorter, and either 256 long or narrower by the whole overflow: the 64 spare characters pay for the marker |
| ApiHistory.CompactedIsCut | src/agent/api-executor.ts:259-266 | it is a prefix and the marker with the number of missing units, together the larger of 256 and the old length without overflow and 64 |
| ApiHistory.Conversation.Compact | src/agent/api-executor.ts:251-267 | each message from the third on is cut in that way by the overflow at its turn, and left alone if the history fits then or it has no text over 256; afterwards the history fits 40,000 or no such text is left |
| ApiHistory.CompactionKeepsPairs | src/agent/api-executor.ts:251-267 | compaction keeps calls and results paired |
| ApiHistory.RunKeepsRequestAndPairs | src/agent/api-executor.ts:350-433 | over any run of trims, compactions and appended turns the first two messages never change and no result loses its call |
| ApiHistory.SizeExample | src/agent/api-executor.ts:235-236 | the measured size on examples: brackets, commas, escapes, surrogates |
| ApiKeys.KeyRing.Rotate | src/agent/api-executor.ts:447-448 | the limited key cools down and the next one on the ring is current |
| ApiKeys.KeyRing.GetNextKey | src/agent/api-executor.ts:606-626 | the nearest key that is not cooling; if all cool, one whose cooldown ends first |
| ApiKeys.NearestFreeMeaning | src/agent/api-executor.ts:609-617 | a free key has its cooldown behind it, and no key before it on the ring has |
| ApiKeys.Earliest | src/agent/api-executor.ts:619-623 | the scan over the cooldowns finds a minimum over all keys |
| CliHistory.TrimmedFits | src/agent/orchestrated-loop.ts:808-838 | first message and alternation survive, at most 21 messages, no pair dropped without need, the latest message cut to what the others leave of 40,000, which is kept unless they alone exceed it, truncation lands exactly on the limit |
| CliHistory.ConversationLog.DropPairs | src/agent/orchestrated-loop.ts:820-825 | the oldest pairs behind the first message go, no more than 21 messages and 40,000 characters require |
| CliHistory.ConversationLog.TruncateLatest | src/agent/orchestrated-loop.ts:827-837 | only the latest message changes, if it is the user's and there is too much: its beginning and the marker with the number of missing units, or the beginning of the marker |
| CliHistory.ConversationLog.Trim | src/agent/orchestrated-loop.ts:808-838 | pairs are dropped, then the latest message is cut, as just said |
| CliHistory.ConversationLog.Record | src/agent/orchestrated-loop.ts:460-502 | one turn: response, tool results if any, trimmed |
| CliHistory.TurnStaysBounded | src/agent/orchestrated-loop.ts:500-502 | after a tool turn the next prompt begins with the request, ends with the tool results and is bounded |
| CliHistory.RunsStayBounded | src/agent/orchestrated-loop.ts:408-502 | the same over any number of tool turns |
| MeshMailbox.MeshStore.Enqueue | src/core/cli-mesh.ts:484-500 | appends to the queue of a known session, nothing for an unknown one |
| MeshMailbox.MeshStore.Broadcast | src/core/cli-mesh.ts:460-482 | appends to every scanned session but the sender's own, and counts them |
| MeshMailbox.MeshStore.CommitHeartbeat | src/core/cli-mesh.ts:220-255 | the committed record keeps the queue, which is what the heartbeat will report |
| MeshMailbox.RecordFields | src/core/cli-mesh.ts:220-252 | the committed record, field by field, and when it finishes work |
| MeshMailbox.ModeMeaning | src/core/cli-mesh.ts:166-178 | the work mode that is inferred |
| MeshMailbox.MeshStore.DrainHeartbeat | src/core/cli-mesh.ts:310-329 | removes what is reported and keeps what arrived meanwhile |
| MeshMailbox.MeshStore.PeekAndDrain | src/core/cli-mesh.ts:808-840 | reports the queue and clears it in one update |
| MeshMailbox.MeshStore.Complete | src/core/cli-mesh.ts:680-699 | marks the record done with its work and leaves its queue alone |
| MeshMailbox.NothingIsLost | src/core/cli-mesh.ts:220-328 | under every interleaving each sent message is queued, held by a reader or returned; nothing else is; the queue is in send order |
| MeshMailbox.LateArrivalSurvives | src/core/cli-mesh.ts:221-329 | a message that arrives between commit and drain survives the drain |
| MeshMailbox.ReadAgainExactly | src/core/cli-mesh.ts:220-840 | after any run, the next heartbeat or draining peek reads an already read message again exactly when no reader of it has drained it |
| MeshMailbox.DeliveryCanRepeat | src/core/cli-mesh.ts:310-840 | a heartbeat and a peek, both finished, can have returned the same message |
| MeshMailbox.EarlyReturnRepeats | src/core/cli-mesh.ts:263-267 | without any interleaving, a heartbeat that returns early leaves its messages to be returned once more |
| AnswerSimilarity.ComputeJaccard | src/core/cross-validator.ts:54-61 | the counting loop computes intersection over union of the two sets |
| AnswerSimilarity.OverlapExample | src/core/cross-validator.ts:54-77 | the two overlaps on two sets with one common element of three, and on empty sets |
| AnswerSimilarity.ComputeFrequency | src/core/cross-validator.ts:81-88 | the table holds each word's number of occurrences |
| AnswerSimilarity.ComputeDots | src/core/cross-validator.ts:91-96 | the three running sums, no longer numbers once the inherited word occurs |
| AnswerSimilarity.CauchySchwarz | src/core/cross-validator.ts:91-96 | the square of the product sum is at most the product of the square sums, over every word list |
| AnswerSimilarity.DotIgnoresOrder | src/core/cross-validator.ts:90-95 | the sums do not depend on the order of the words |
| AnswerSimilarity.CosineBounds | src/core/cross-validator.ts:96 | the cosine is between 0 and 1, symmetric, and times the two roots it is the product sum |
| AnswerSimilarity.ComputeFactualAgreement | src/core/cross-validator.ts:64-100 | numbers, code blocks and words weighed together |
| AnswerSimilarity.SimilarityBounds | src/core/cross-validator.ts:150-155 | the similarity of two answers is symmetric and between 0 and 1 |
| AnswerSimilarity.SimilarityWeights | src/core/cross-validator.ts:98-155 | key terms weigh 0.4, numbers and code blocks 0.15 each, words 0.3 |
| AnswerSimilarity.WordCosineMeaning | src/core/cross-validator.ts:79-97 | the word cosine times the two roots is the product sum; it is 0 without words or with the inherited word |
| AnswerSimilarity.SimilarityWithItself | src/core/cross-validator.ts:80-97 | an answer is fully alike to itself exactly when it has key terms and words and the inherited word is not among them |
| CrossValidation.EveryPairOnce | src/core/cross-validator.ts:148-164 | every unordered pair is listed exactly once, on the list of its verdict; n(n-1)/2 in all |
| CrossValidation.Compare | src/core/cross-validator.ts:150-163 | agents, similarity and verdict of one pair, with its thresholds 0.35 and 0.3 |
| CrossValidation.ClassifyPairs | src/core/cross-validator.ts:148-164 | the nested loops build those two lists |
| CrossValidation.Winner | src/core/cross-validator.ts:172 | the first answer with the highest score |
| CrossValidation.AcceptMeans | src/core/cross-validator.ts:174-183 | accept exactly at a consensus of 0.6 or more and a score of 65 or more, the other two guards being implied; escalate exactly below 40 otherwise |
| CrossValidation.Validate | src/core/cross-validator.ts:112-190 | the report: lists, consensus score, winner and recommendation; fewer than two agents are refused |
| Base64Url.DecodeEncode | src/auth.ts:17-29 | base64 decoding is the inverse of encoding |
| Base64Url.TestVectors | src/auth.ts:17-23 | the test vectors of section 10 of RFC 4648 |
| Base64Url.UrlVectors | src/auth.ts:17-23 | the two replaced symbols and the missing padding |
| Base64Url.PaddingIsRestored | src/auth.ts:17-29 | recomputed padding restores exactly the stripped one for every byte length |
| Base64Url.UrlRoundTrip | src/auth.ts:17-29 | base64url decoding is the inverse of encoding |
| Base64Url.UrlEncodeInjective | src/auth.ts:17-23 | different bytes have different texts |
| Base64Url.UrlEncodeHasNoDot | src/auth.ts:17-23 | the alphabet has no dot |
| Jwt.CreatedTokenSplits | src/auth.ts:46-65 | a created token splits into exactly its three parts |
| Jwt.CreatedTokenVerifies | src/auth.ts:46-93 | a created token gives back its body to whoever computes the same signature before it expires, and nothing otherwise |
| Jwt.SignedTokenRoundTrip | src/auth.ts:46-93 | same secret, not after `exp`: the body comes back |
| Jwt.BodyFields | src/auth.ts:46-53 | issue and expiry are filled in exactly where they are null or missing |
| Jwt.AcceptedExactly | src/auth.ts:61-93 | when a token is accepted, in both directions |
| Jwt.AcceptedTokensAreSigned | src/auth.ts:61-93 | whatever is accepted is a signing input followed by its own signature, with an accepted header, not expired, and says what is returned |

## Left out

- SHA-256, HMAC, UUIDs and clocks: arbitrary functions, fresh identifiers and arbitrary times.
- SQLite and its transactions: a mutator is one step; the tables are read in key order.
- `stableJson` and the incident evidence: taken as the canonical text that they produce.
- Rows without a `chain_seq` from before that column existed.
- Texts with lone surrogates where UTF-8 matters: a Dafny string is well formed.
- JSON.parse and JSON.stringify of whole values: a parameter; only the width of a stringified text and the syntax that the brace scanner meets are modelled.
- Floating-point rounding: scores are real numbers and square roots exact.
- Regular expressions: the fence expression is modelled by what it matches; key terms, numbers, code blocks, words, blocker protocol, response quality and value-gate decision are inputs.
- The driver's async functions as classes: they interleave with requests, so they are steps on values; of the run object only the operations that rewrite it in one go are methods.
- Failing persistence: in the model `touch` always writes; with a failing store fingerprints can be lost in a crash.
- Eviction from the in-memory run map, after which a cancel would work on another copy of the run.
- The computer-use lease around a run, the planning discussion itself, decomposition prompts and the choice of providers.
- CompanyDriver.Step: a crash falls between two steps; one between two writes of the record inside the same stretch of code without an await is not modelled.
- Steps between a reply and the code right behind it: where the code has no await, the model may let a cancel in as well.
- CompanyOrder.CompletedWasAcceptedExactly: for pipelines, as is SlipsExactly; a parallel pass has no value gate and no order.
- ApiLoop.ConverseWithProvider: requires a bound on the errors behind a response, as does ApiLoop.Run, because the loop need not end without one.
- ApiLoop.Run: the pre-flight check of credentials and the waiting times are not modelled.
- ApiHistory.Conversation.Compact: a content part other than text is not modelled.
- Redis: `updateJsonWithWatch` is one atomic step; expiry, eviction and disconnect are outside the no-loss claim.
- MeshMailbox.MeshStore.Broadcast: aliases of agent names are resolved before the keys are given.
- Scheduling of agents, event bus, logging, HTTP routes, dashboards and reporting queries: no properties there.
- Fibonacci, bubble sort, LRU samples, counters and row mappers: they would only add easy members.
