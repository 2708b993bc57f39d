# A verified model of mqgov-cli's protocols

mqgov-cli governs message queues from the command line. Most of what it promises rests on a few
protocols: a durable audit queue in front of every mutation and every sensitive read, a
transaction over a credential store and a configuration file, and bounded copy loops over brokers
that may fail half-way. This project models those protocols in Dafny and proves what they keep,
for all inputs and over all runs. `dafny verify dfyconfig.toml` checks it.

## How the model is built

Everything outside the program (files, locks, log appends, credential back ends, brokers, other
processes) is an adversary: a choice written `*`. A class method that stands for such a call
promises only what its real counterpart promises, so a failed call may have taken effect unless
its error says otherwise.

**Audit queue.** `SpoolNames` has the spool file names, `OutcomeRecords` the records, the outcome
builders of the commands and the validator that a spooled record must pass, `SpoolProtocol` the
durable state as a step relation with one step per file operation and a crash step, and
`SpoolRuns` the theorems over whole runs. `AuditQueues` has the commands themselves: each method
changes the queue's fields, and records every file operation it performs as a step, so that each
call is proved to be a run of the protocol, and a crash inside a call is a prefix of that run.
`ReadAudit` is the mandatory-read wrapper on top.

An append reports one of four commit states, no error, or an error without a commit state.
Indeterminate says nothing about the log; the others are honest. An intent whose append was
indeterminate and is not in the log is remembered in `unlanded`; it is the one exception to the
pairing of outcomes with intents. Two further corners of the code show in the contracts: `Begin`
can fail after its intent is in the log, when only the release of the queue lock fails
(`BeginReleaseFailed`), and `Finish` does not spool an outcome whose own append may exist. The queue
keeps a ghost record of every direct append with its report and its truth (`attempts`), so contracts
speak of what was really appended. It also counts every call to the system or the log that failed
(`failures`), so that each refusal has a cause: where nothing hinders the replay and no call fails,
an operation begins and ends as it should, and it takes two failures before an outcome is reported
as not even spooled.

**Credentials.** `CredentialSlots` says which physical cell a reference means and how commands keep
references apart, `CredentialTransactions` how writes are undone, `CredentialSaga` the flow of
`ctx set` and `ctx import`, `CredentialImport` the planning of a whole document, `CredentialMigration`
the flow of `ctx migrate-credentials`. Programs that
do not take the configuration lock may change both stores between the two lock sections of a
command; each such change is counted in `ContextStore.foreign`. While the count stands still a
report speaks of both stores as wholes; otherwise still of the entries the command wrote. Failed
calls are counted too (`SecretStore.failures`, `ContextStore.failures`), so that every failure, every
uncertain end and every refusal to undo is explained. `Resolve` is what a command finds as the secret
of a context: a literal, or what the store holds for a reference. The contracts of the two flows say
what they mean for it.

**Copy loops.** `Redrive` moves messages off a dead-letter queue. It publishes headers and body as a
new persistent message and nothing else (internal/backend/rabbitmq/rabbitmq.go:422-426), so a copy is
a `Payload`, not a whole message. `KafkaReads` (with `Impacts`)
has the tail and mirror loops; `KafkaOffsets` the planning, committing and counting of offsets;
`MirrorStaging` the in-memory stage with its byte budget and the produce loop. `RedriveAudit` and
`MirrorAudit` connect their results to the audit records.

**Supporting cores.** `JsonDuplicates` (member names, section 4 of RFC 8259), `PruneSelection`
(rotated logs), `Sorting` (what callers of the library sort rely on).

## What the proofs found

- `AuditQueues.OutcomeCanBeLost`: when the append of an outcome reports an indeterminate commit and
  did not land, the outcome is in neither log nor spool, and the command reports it as incomplete
  but not as a failed spooling (cmd/mutation_audit.go:218-221). This can happen to every operation
  in every queue that lets an outcome be appended at all; `BegunOutcomeCanBeLost` has the operation
  that was just begun. `AbsentExactly` shows that this is the only way: an outcome whose spooling is
  not reported as failed is absent exactly when its own append was indeterminate and did not land.
- `KafkaOffsets.ShiftIsExact`: a `shift:N` reset does not always move a group by N. The addition is
  a machine addition, so a forward shift beyond the largest offset wraps to a negative number and
  is clamped to 0, the beginning of the log; and a group without a commit has position -1 there but
  0 in the plan, so a forward shift moves it by one less. The lemma gives the exact condition, and
  `ShiftSurprises` both inputs.
- `KafkaOffsets.TotalIsExact`: the plan's total is a machine sum. It is the distance the group moves
  over all asked-for partitions exactly while that fits 64 bits; by `TotalCanWrap`, whoever resets
  two partitions of a new group to the largest offset is told a total of -2.
- A migration that no other program interferes with never loses a secret: every context finds what it
  found before, whatever fails and however the migration ends, and a single failed call never leaves
  it uncertain (`CredentialMigration.ApplyMigration`). An import keeps the first for all contexts that
  it does not name; the second holds unless a slot is in Vault or belonged to another reference in the
  old configuration (`Entangled`), because then the program refuses to undo.
- `SpoolRuns.OrphanBlocksForever`: a temporary file left by a crash blocks the queue for good, as
  does a quarantined file (`QuarantineIsAbsorbing`). Both are by design and need an operator.

## Model

| member | source | states |
|---|---|---|
| SpoolNames.NameRoundTrip | cmd/mutation_audit.go:656 | the printed name is accepted and parses back to the same sequence and id, for every 64-bit sequence and every id |
| SpoolNames.NameLayout | cmd/mutation_audit.go:656 | the printed name is twenty digits, a dash, the id and the suffix |
| SpoolNames.ValidIdIff | cmd/mutation_audit.go:919-945 | an id is 32 lower-case hexadecimal digits |
| SpoolNames.AcceptedNameIsPrinted | cmd/mutation_audit.go:919-945 | an accepted name is the name printed for the sequence and id it parses to |
| SpoolNames.NamesSortBySequence | cmd/mutation_audit.go:733-743 | string order of names is numeric order of sequences, then order of ids |
| SpoolNames.NamesAreInjective | cmd/mutation_audit.go:656 | two outcomes share a file exactly when sequence and id agree |
| SpoolNames.Uint64FitsTwentyDigits | cmd/mutation_audit.go:656 | every 64-bit number fits the padded width |
| OutcomeRecords.ReplaysIff | cmd/mutation_audit.go:987-1041 | a file the tool wrote passes the whole replay validation exactly when its outcome suits the recorded number of items |
| OutcomeRecords.AcceptedMeans | cmd/mutation_audit.go:987-1107 | whatever record passes the validation is a final outcome in UTC with consistent counts, status and compensation, its id is that of the file name, and every fingerprint has its form |
| OutcomeRecords.RecordsKeepEverything | cmd/mutation_audit.go:319-364 | a record determines the handle, phase, outcome and time that it was made from |
| OutcomeRecords.SingleReplays | cmd/mutation_audit.go:237-277 | a normalised single outcome replays exactly when at most one item was planned, and counts one success or one failure with the code and fingerprint of the error |
| OutcomeRecords.BatchReplays | cmd/mutation_audit.go:292-317 | a batch outcome replays exactly when its counted units match the plan recorded with the intent; it counts the units as they ended and the rest as skipped |
| OutcomeRecords.PlannedBatchReplays | cmd/mutation_audit.go:292-317 | with the plan as the total: exactly when no more than the planned items were counted |
| OutcomeRecords.FailedBeginReplays | cmd/mutation_audit.go:174-185 | the skipped outcome spooled for an uncertain intent always replays and skips every planned item |
| OutcomeRecords.TopicCreateReplays | cmd/topic.go:163-168 | the outcome of a topic creation replays exactly when at most one item was planned, and a partial failure is one uncertain unit |
| OutcomeRecords.PruneReplays | cmd/audit.go:481-520 | a prune outcome replays for any reported deletion count, exactly when the plan was recorded as its total, and counts what was deleted within the plan as succeeded, or as uncertain when that is not durable |
| OutcomeRecords.ImportReplays | cmd/context_import_credentials.go:666-696 | the combinations of compensation status, certainty and error for which a set or import outcome replays, and what each of them counts |
| OutcomeRecords.MigrationReplays | cmd/context.go:1928-1968 | the progress and compensation combinations for which a migration outcome replays, and that it counts that progress |
| OutcomeRecords.SingleReadReplays | cmd/read_audit.go:77-88 | a read outcome replays exactly when at most one item was planned, and tells the number of results |
| OutcomeRecords.ReadBatchReplays | cmd/read_audit.go:103-133 | a read over several contexts replays exactly when no more than the planned items were counted, and counts them as they ended |
| OutcomeRecords.SourceReplays | cmd/mutation_audit.go:202-317 | whatever builder a command closes its operation with, within that caller's bound on its counts, the outcome replays |
| SpoolRuns.StepKeepsInv | cmd/mutation_audit.go:647-885 | every file operation and every crash keeps the queue's invariant |
| SpoolRuns.RunKeepsInv | cmd/mutation_audit.go:647-885 | so does every run |
| SpoolRuns.LogOnlyGrows | cmd/mutation_audit.go:469-497 | along any run the log is only appended to |
| SpoolRuns.NoSilentLoss | cmd/mutation_audit.go:798-885 | an outcome once committed to the spool is, at every later point of every run, pending, quarantined or copied into the log |
| SpoolRuns.CommittedFileIsSpooled | cmd/mutation_audit.go:647-687 | the rename that commits a spool file puts it into the pending spool |
| SpoolRuns.SequencesIncreaseOverRuns | cmd/mutation_audit.go:689-731 | the sequence numbers of all outcomes ever spooled strictly increase over a run with any crashes |
| SpoolRuns.IntentFollowsEverySpooledOutcome | cmd/mutation_audit.go:151-200 | when an intent enters the log, every outcome spooled at any earlier time is already in it |
| SpoolRuns.QuarantineIsAbsorbing | cmd/mutation_audit.go:798-885 | once a file is quarantined the log never changes again in any run |
| SpoolRuns.OrphanBlocksForever | cmd/mutation_audit.go:798-848 | an orphaned temporary file stops every further step |
| SpoolRuns.RemovedStaysRemoved | cmd/mutation_audit.go:872-877 | a file that was copied and removed is never pending again |
| SpoolRuns.DuplicateMeansNotRemoved | cmd/mutation_audit.go:850-877 | two replays of one file mean that it was pending all the time in between: its removal failed or never came |
| SpoolRuns.ReplayOrder | cmd/mutation_audit.go:798-848 | in every reachable state the sequence numbers of replayed copies are nondecreasing along the log |
| SpoolRuns.SpoolNumbersAreSound | cmd/mutation_audit.go:887-917 | in every reachable state spooled numbers are distinct and at most the sequence file's |
| SpoolRuns.OutcomesHaveIntents | cmd/mutation_audit.go:163-199 | in every reachable state each outcome in log or spool follows an intent with its id, unless that intent's append was indeterminate |
| SpoolRuns.NeverWedgesOnOwnRecords | cmd/mutation_audit.go:798-848 | if every committed spool file passes the validator, the next pending file can always be replayed |
| SpoolRuns.OwnRecordAccepted | cmd/mutation_audit.go:319-364 | a record made from a handle by one of the builders, within its caller's bound, passes the validator under any sequence number |
| SpoolRuns.OwnOutcomesNeverWedge | cmd/mutation_audit.go:798-848 | so a run whose processes spool only what the commands build never gets stuck on one of its files |
| SpoolRuns.OwnPendingReplays | cmd/mutation_audit.go:798-848 | in any sound state whose pending files come from commands the next one can be replayed unless the queue is blocked |
| AuditQueues.ValidateSequence | cmd/mutation_audit.go:887-917 | accepts exactly distinct positive numbers that the sequence file covers |
| AuditQueues.LargestSequence | cmd/mutation_audit.go:689-731 | the largest number in a listing, refused exactly when an entry is not a spool file |
| AuditQueues.OwnSequencesConsistent | cmd/mutation_audit.go:887-917 | the queue's own files always pass that check |
| AuditQueues.NamesBoundSequences | cmd/mutation_audit.go:689-731 | no listed number exceeds the sequence file, and without a sequence file nothing is listed |
| AuditQueues.AuditQueue.Append | cmd/mutation_audit.go:469-515 | what each commit state says about the log; every report but a nil error is counted as a failure |
| AuditQueues.AuditQueue.ReplayFirst | cmd/mutation_audit.go:825-877 | each way one file can fare, with the log and the spool after it |
| AuditQueues.AuditQueue.SettleReplayed | cmd/mutation_audit.go:850-885 | what the append reported decides whether the file is removed, kept or quarantined |
| AuditQueues.AuditQueue.Replay | cmd/mutation_audit.go:798-848 | a replay copies a prefix of the spool in order, stops at the first trouble in the stated state, and does nothing in a blocked queue; it stops only after a failed call, in a blocked queue or at a file that does not pass the validator |
| AuditQueues.AuditQueue.MarkIndeterminate | cmd/mutation_audit.go:879-885 | the quarantining rename, done or not |
| AuditQueues.AuditQueue.NextSpoolSequence | cmd/mutation_audit.go:689-796 | an allocated number is durable, above everything that ever carried one, and never wraps |
| AuditQueues.AuditQueue.WriteSpoolRecord | cmd/mutation_audit.go:647-687 | on success the record is the last pending file under the allocated number; log and quarantine are untouched either way; it fails only after a failed call, behind a leftover temporary file or when the numbers are used up |
| AuditQueues.AuditQueue.StoreRecordFile | cmd/mutation_audit.go:656-686 | the file of one record, committed as a whole or not at all |
| AuditQueues.AuditQueue.Begin | cmd/mutation_audit.go:151-200 | a handle comes back only from a queue without quarantined or temporary files, with the intent in the log right behind all that was spooled, and so does the failed release; an incomplete queue means a stopped replay; a failed append that may exist leaves the skipped outcome spooled or says so. The action is refused exactly when it is white space, the path exactly when there is none; and an operation with an id begins where nothing hinders the replay and no call fails |
| AuditQueues.AuditQueue.BeginEntered | cmd/mutation_audit.go:163-196 | the same for the part under the queue lock |
| AuditQueues.AuditQueue.AppendIntentRecord | cmd/mutation_audit.go:163-199 | an intent whose append may exist is followed by its skipped outcome in the spool, or by the report that this failed, which takes a second failed call or used-up numbers |
| AuditQueues.AuditQueue.Finish | cmd/mutation_audit.go:202-235 | closes an operation in exactly one of the listed ways: appended behind everything spooled, possibly appended, or spooled after a stopped replay, a failed append or a queue that could not be entered, each with the log and the spool after it and the report it makes; incomplete only after a failed call or a hindered replay, and a failed spooling is reported only after two failed calls, or one behind a hindered replay, or in a queue that takes no more |
| AuditQueues.AuditQueue.FinishEntered | cmd/mutation_audit.go:208-226 | the same for the part under the queue lock |
| AuditQueues.AuditQueue.AppendOutcomeRecord | cmd/mutation_audit.go:216-226 | an outcome is appended, possibly appended, or spooled when it certainly was not |
| AuditQueues.OwnQueueIsUnhindered | cmd/mutation_audit.go:798-848 | a queue that holds only outcomes of the commands hinders no replay unless it is blocked |
| AuditQueues.OwnErrorMeansRecorded | cmd/mutation_audit.go:202-235 | the operation's own error, or a failed release, means that the outcome is in the log |
| AuditQueues.AbsentExactly | cmd/mutation_audit.go:218-224 | an outcome not reported as failed to spool is in neither log nor spool exactly when its append was indeterminate and did not land |
| AuditQueues.AbsenceIsReported | cmd/mutation_audit.go:202-235 | in every other case an absent outcome is reported as a failed spooling |
| AuditQueues.OutcomeCanBeLost | cmd/mutation_audit.go:218-221 | in every queue that lets an outcome be appended, its append can report Indeterminate and not land; the outcome is then nowhere and not reported as failed to spool |
| AuditQueues.BegunOutcomeCanBeLost | cmd/mutation_audit.go:163-221 | the operation just begun in any clean queue is such an input |
| AuditQueues.FinishKeepsOwn | cmd/mutation_audit.go:202-235 | closing operations leaves only the commands' own outcomes to replay |
| AuditQueues.AuditQueue.SpoolEmergency | cmd/mutation_audit.go:600-633 | without entering the queue, the outcome is spooled or the failure reported, which again has a cause |
| AuditQueues.AuditQueue.AppendEventRecord | cmd/mutation_audit.go:517-525 | an event is recorded only behind everything spooled, and is recorded unless a call failed or the replay was hindered |
| ReadAudit.DiagnosticBuffer.Append | cmd/read_diagnostics.go:24-40 | a diagnostic is buffered in its redacted form exactly when both forms fit |
| ReadAudit.DiagnosticBuffer.Complete | cmd/read_diagnostics.go:46-70 | the text is released at most once, and only on a flush |
| ReadAudit.Operation.Run | cmd/read_audit.go:174-194 | each run of the audited operation is noted with the length of the log before and after it |
| ReadAudit.BeginRead | cmd/read_audit.go:42-68 | diagnostics are redirected exactly when a handle is opened, whose intent is then last in the log; a read that nothing hinders gets its handle |
| ReadAudit.FinishRead | cmd/read_audit.go:135-164 | diagnostics reach the terminal only when the outcome is in the log, and it is in the log unless a call failed or the replay was hindered |
| ReadAudit.FinishReadAudit | cmd/read_audit.go:70-88 | a closed read has its outcome behind its intent, with the status of its error and the number of its results |
| ReadAudit.RunMandatoryRead | cmd/read_audit.go:174-194 | a result exists only if intent and outcome of one id are in the log in that order, the outcome's status says how it went, and exactly one run of the operation was noted, between the two; without an intent nothing runs; the operation's own error is what comes back; and a read that nothing hinders is let through |
| ReadAudit.RunMandatoryPreflight | cmd/read_audit.go:269-314 | an open broker is handed out only with such a trace around its one run; on every error it is closed; a preflight that nothing hinders is let through |
| ReadAudit.MutateAfterPreflight | cmd/read_audit.go:269-314 | the intent of the mutation comes after the whole trace of its preflight and its one run |
| CredentialSlots.OwnersAreDistinct | cmd/context_import_credentials.go:282-309 | owner names tell references apart |
| CredentialSlots.ContextSlotOwners | cmd/context_import_credentials.go:282-325 | the owner map exists exactly when every reference has a slot and no two share one, and then is that map |
| CredentialSlots.ValidateKeySet | cmd/context_import_credentials.go:267-280 | set and import pass exactly when the resulting configuration has no shared slot |
| CredentialSlots.ValidateMigrationKeySet | cmd/context.go:2263-2285 | likewise for a migration |
| CredentialSlots.SlotsStayInjective | cmd/context_import_credentials.go:267-325 | no sequence of commands makes two references share a slot; that each command is such a step is part of the contracts of ApplyImport, ApplyMigration, DeleteContext and ChangeRole |
| CredentialSlots.NestedNameIsRefused | cmd/context_import_credentials.go:127-145 | the context foo/schema-registry cannot be stored beside the schema credential of foo |
| CredentialSlots.VaultHoldsOneCredential | cmd/context_import_credentials.go:127-145 | one Vault path cannot hold both credentials of a context |
| CredentialTransactions.Transaction.Put | cmd/context_import_credentials.go:384-415 | a write is remembered with what it found, and every touched cell holds the written or, after a failed put, possibly the prior value; it fails after exactly one failed call |
| CredentialTransactions.Transaction.NeedsRestore | cmd/context_import_credentials.go:531-559 | restore, keep or refuse, as the cell's present value demands |
| CredentialTransactions.Transaction.CompensationPlan | cmd/context_import_credentials.go:417-438 | a plan says for each write whether to restore; there is none exactly because a read failed or a cell demands refusal |
| CredentialTransactions.UndoneStep | cmd/context_import_credentials.go:440-461 | undoing one more write, towards the first, keeps what undoing promises |
| CredentialTransactions.Transaction.Compensate | cmd/context_import_credentials.go:440-461 | last to first, going on after failures: untouched cells stay, and full success, which means that no call failed, restores every chosen cell to what its first write found |
| CredentialTransactions.Transaction.OwnersIntact | cmd/context_import_credentials.go:508-529 | passes exactly when every slot still belongs to the reference it was written for |
| CredentialTransactions.Transaction.RestoresNoVault | cmd/context_import_credentials.go:495-506 | passes exactly when no chosen write goes to Vault |
| CredentialTransactions.Transaction.CompensateLocked | cmd/context_import_credentials.go:463-493 | all or nothing: a refusal issues no put or delete, a taken-over cell, a changed owner or a Vault restore always refuses, nothing else refuses without a failed read, and success restores every touched cell |
| CredentialTransactions.ExtendsFaithfully | cmd/context_import_credentials.go:384-415 | one more put, effective or not, keeps the transaction's memory truthful |
| CredentialSaga.ValidateCandidates | cmd/context_import_credentials.go:240-265 | passes exactly when every back end that is needed is available and no two planned writes share a slot |
| CredentialSaga.StoreCandidate | cmd/context_import_credentials.go:342-382 | the writes of one candidate in plan order, stopping at the first failure |
| CredentialSaga.StoreCredentials | cmd/context_import_credentials.go:342-382 | on success exactly the plan was carried out |
| CredentialSaga.ConfigState | cmd/context_import_credentials.go:573-589 | committed and unchanged, each decided exactly |
| CredentialSaga.ItemsEqualIff | cmd/context_import_credentials.go:591-614 | two contexts count as the same exactly when they differ in nothing but default sources and empty maps or lists |
| CredentialSaga.AllPutsWrite | cmd/context_import_credentials.go:342-382 | when every put succeeded, every planned secret is in its slot and nothing else changed |
| CredentialSaga.PlanHas | cmd/context_import_credentials.go:342-382 | every credential of every candidate is in the plan, with its own slot, owner and value |
| CredentialSaga.PlanComes | cmd/context_import_credentials.go:342-382 | and no slot of the plan comes from anywhere else |
| CredentialSaga.PlanIsOwn | cmd/context_import_credentials.go:267-280 | after the key-set check no reference of another context leads to a planned slot |
| CredentialSaga.OthersKeepTheirSecrets | cmd/context_import_credentials.go:267-280 | so whatever is put or undone in planned slots, the other contexts find what they found before |
| CredentialSaga.StoredSecretsResolve | cmd/context_import_credentials.go:342-382 | with the configuration committed and the plan written, every candidate's context finds its secret |
| CredentialSaga.TouchesOnlyThePlan | cmd/context_import_credentials.go:440-461 | however much of a transaction was undone, no slot outside its plan has changed |
| CredentialSaga.Reconcile | cmd/context_import_credentials.go:616-656 | after a failed update: committed, fully undone, or uncertain, each only when true; uncertain only after a failed call, for a changed configuration, or when undoing is not allowed; a committed update is never undone |
| CredentialSaga.UndoingIsComplete | cmd/context_import_credentials.go:463-493 | a successful compensation puts the whole store back to where the transaction found it |
| CredentialSaga.ReportOf | cmd/context_import_credentials.go:666-696 | which of done, undone and uncertain is reported, and that the report replays |
| CredentialSaga.ApplyLocked | cmd/context.go:318-375 | the section under the configuration lock, with every way it can end; it stores nothing but what the key-set check allows, writes no slot outside the plan, and an end that is uncertain took two failures or slots that cannot be undone safely |
| CredentialSaga.StoreAndCommit | cmd/context.go:343-357 | the same for the writes and the save behind the checks |
| CredentialSaga.ApplyAndSettle | cmd/context.go:318-375 | the locked section and the reconciliation after a failed save: done, undone or uncertain, each with its meaning in both stores; it fails only after a failed call or a slot clash, and is uncertain only after interference, two failed calls or with slots that cannot be undone safely |
| CredentialSaga.ApplyResolved | cmd/context.go:318-375 | the same, with what the contexts find afterwards and that no two references come to share a slot |
| CredentialSaga.ApplyImport | cmd/context.go:1265-1326 | set and import: done is reported only with the new configuration and all secrets written, undone only with everything as before, and otherwise every unit is uncertain; nothing is written when nothing is reported; slots stay unshared; unless another program interferes, done means that every candidate's context finds its secret, every context that is not named finds what it found before in every end, and a single failure leaves nothing uncertain that can be undone safely |
| CredentialImport.PlanImport | cmd/context.go:1351-1379 | every named context of a document is planned with its candidate, or nothing is when one of them cannot be |
| CredentialImport.PlansAreLinked | cmd/context_import_credentials.go:69-125 | a planned context refers to exactly the slots that its candidate writes |
| CredentialImport.PlannedSecret | cmd/context_import_credentials.go:69-104 | planning keeps a literal, or hands it to the candidate and leaves a reference |
| CredentialImport.SecretsAreImported | cmd/context_import_credentials.go:69-104 | if the candidates' secrets are found, every literal of the document is |
| CredentialImport.RefusedPlan | cmd/context_import_credentials.go:69-125 | a context cannot be planned exactly when its back end is unknown, or is Vault without a usable address |
| CredentialImport.PlannedPlace | cmd/context_import_credentials.go:69-104 | which literal goes to which cell of which back end, and which stays |
| CredentialImport.SecretsArePlaced | cmd/context_import_credentials.go:69-104 | with the plan written and the contexts committed, each secret of the document is where its back end says and no other cell has changed |
| CredentialImport.PlannedCell | cmd/context_import_credentials.go:69-125 | a planned slot is the cell of some literal of the document |
| CredentialImport.StoredIsNamed | cmd/context.go:1450-1452 | the stored contexts are those of the document but for secrets and back end, and all others are as they were |
| CredentialImport.ImportContexts | cmd/context.go:1343-1480 | a whole import. Done means: every literal whose context names a secure back end, itself or by the reference in its other field, is in the cell of that back end with a reference in the file; every other secret is in the file as the document has it; no other cell has changed; and what the document gave is what each context finds. Contexts that are not named are as they were. It fails only after a failed call, for a back end that cannot be used, or for a slot clash |
| CredentialSaga.DeleteContext | cmd/context.go:604-663 | deletes exactly that context or nothing, and fails only for a missing context or after a failed call |
| CredentialSaga.ChangeRole | cmd/context.go:1540-1687 | changes exactly that role or nothing, and fails only for a missing context or after a failed call |
| CredentialMigration.DiscoveredAreDistinct | cmd/context.go:2198-2236 | discovery finds every context with a literal in either field, once, with exactly its literals, and no other context |
| CredentialMigration.MigrationPlanDistinct | cmd/context.go:2263-2285 | the key-set check leaves no two migrated credentials in one slot |
| CredentialMigration.KeptReference | cmd/context.go:2263-2285 | migration leaves every reference as it is, in its slot |
| CredentialMigration.PlanIsFree | cmd/context.go:2263-2285 | after the key-set check no reference of the old configuration leads to a planned slot |
| CredentialMigration.MigrationOwnsItsSlots | cmd/context.go:2152-2171 | so the owner check never stops a migration from undoing its own writes |
| CredentialMigration.OldMeaningKept | cmd/context.go:1738-1882 | while the old configuration stands, no context notices what was put or undone |
| CredentialMigration.NewMeaningKept | cmd/context.go:1738-1882 | with the migrated one and the plan written, every context finds the secret that it found before |
| CredentialMigration.DoneMovesLiterals | cmd/context.go:1838-1848 | a committed migration has every literal of the named contexts in the store, under the key of its context, and a reference in its place |
| CredentialMigration.DoneKeepsOthers | cmd/context.go:1838-1848 | and leaves all other contexts as they were |
| CredentialMigration.ChangedSince | cmd/context.go:1801-1809 | a migration finds its contexts changed only if one of those with a literal was |
| CredentialMigration.MigrationState | cmd/context.go:1970-1994 | committed and untouched, each decided exactly |
| CredentialMigration.StoreMigration | cmd/context.go:2007-2060 | progress counts exactly the puts that certainly succeeded, and one failure |
| CredentialMigration.TakeBack | cmd/context.go:2117-2151 | an incomplete migration is undone, or all credentials that it attempted are counted as uncertain after a second failure or a changed owner |
| CredentialMigration.StoreOrTakeBack | cmd/context.go:1824-1837 | all credentials are stored, or all that was attempted is undone or counted as uncertain |
| CredentialMigration.ReconcileMigration | cmd/context.go:1884-1926 | the reconciled progress and what it says about both stores; uncertain only after a failed call, for a changed configuration, or when undoing is not allowed; a committed migration is never undone |
| CredentialMigration.MigrationReport | cmd/context.go:1928-1968 | each ending's report, and that it replays |
| CredentialMigration.MigrateLocked | cmd/context.go:1738-1882 | the section under the configuration lock; it stores nothing but what the key-set check allows, writes no slot outside the plan, and an uncertain end took two failures |
| CredentialMigration.MigrateAndSettle | cmd/context.go:1792-1856 | the locked section and the reconciliation: each end with its meaning in both stores and for the secrets that contexts find |
| CredentialMigration.ApplyMigration | cmd/context.go:1738-1882 | the whole migration: the report accounts for every credential, counts none as skipped that was written, and is true of both stores; slots stay unshared. Done means that every literal of the named contexts is in the store with a reference in its place and that all other contexts are as they were; nothing to do means that there was no literal. Unless another program interferes, every context finds what it found before in every end, and an uncertain report took two failed calls; it fails only after a failed call, for a context that changed, or for a slot clash |
| CredentialMigration.CredentialCount | cmd/context.go:2250-2261 | the number of credentials is the length of the plan |
| Redrive.Broker.Get | internal/backend/rabbitmq/rabbitmq.go:407-421 | a fetch takes the first ready message or tells an empty queue, and loses nothing; it fails only when the call does |
| Redrive.Broker.PublishConfirmed | internal/backend/rabbitmq/rabbitmq.go:514-551 | a confirm means a copy in the target; a returned message left none; anything else may have left one; and each result is what the reply says |
| Redrive.VerdictAnswers | internal/backend/rabbitmq/rabbitmq.go:514-541 | a publish counts as confirmed only for a positive confirm with nothing returned, as timed out only without any answer |
| Redrive.Broker.Settle | internal/backend/rabbitmq/rabbitmq.go:422-445 | a message is removed only after its confirm; otherwise it goes back or is in doubt |
| Redrive.Broker.RedriveBatch | internal/backend/rabbitmq/rabbitmq.go:407-447 | at every exit each message is still queued or confirmed in the target; total is the number copied and removed; a publish that failed or timed out, a failed requeue and a failed acknowledgement count one uncertain unit, a refused, unconfirmed or returned publish and a failed fetch one failed unit; a copy that nobody confirmed is left without an uncertain unit only by a refused or unconfirmed publish; every cause is that of a reply or a failed call |
| Redrive.Broker.RedriveOnChannel | internal/backend/rabbitmq/rabbitmq.go:382-400 | the same once the channel is gone, with the failure that is reported |
| Redrive.Broker.RedriveDLQ | internal/backend/rabbitmq/rabbitmq.go:359-400 | the whole operation with its limits, its causes as counted units, and its partial-failure rule; no message stays unacknowledged; refusals and previews change nothing |
| RedriveAudit.RedriveReplays | cmd/dlq.go:240-250 | the recorded outcome of a redrive is a batch within its bound and replays; it is what the broker counted, or one uncertain unit for an error that counted nothing |
| Impacts.UpdateSummarises | internal/backend/kafka/kafka.go:1232-1245 | one more record: count, minimum and maximum plus one stay exact in every partition |
| Impacts.TailImpactSlice | internal/backend/kafka/kafka.go:1247-1254 | the map's items, each once and ascending, whatever order the map was walked in |
| Impacts.CountsAddUp | internal/backend/kafka/kafka.go:1232-1254 | the reported counts sum to the number of records, and each item is the exact range of its partition |
| KafkaReads.CountedExactly | internal/backend/kafka/kafka.go:1222-1225 | a record is counted exactly when it is in range |
| KafkaReads.CountedInRange | internal/backend/kafka/kafka.go:1222-1225 | on the snapshot itself: of the records consumed exactly those before the end of their partition are counted, all of them where the end is negative |
| KafkaReads.FollowingCountsAll | internal/backend/kafka/kafka.go:493-496 | a tail that follows counts everything |
| KafkaReads.DoneIsFinished | internal/backend/kafka/kafka.go:1201-1230 | every partition is done exactly when each began at its end or its last record or a later one was consumed |
| KafkaReads.DoneOneMore | internal/backend/kafka/kafka.go:1227-1230 | the done set stays exactly the partitions that need no more reading |
| KafkaReads.AllDoneBySize | internal/backend/kafka/kafka.go:1201-1220 | comparing sizes tells exactly whether every selected partition is done |
| KafkaReads.StoppingLosesNothing | internal/backend/kafka/kafka.go:392-395 | once every partition is done, reading on in the order of the logs would count nothing more, however far |
| KafkaReads.Reader.ProcessTailFetches | internal/backend/kafka/kafka.go:486-509 | one fetch of a tail consumes a prefix of it, never beyond the limit |
| KafkaReads.Reader.ProcessMirrorFetches | internal/backend/kafka/kafka.go:455-484 | one fetch of a mirror likewise |
| KafkaReads.Reader.Tail | internal/backend/kafka/kafka.go:376-415 | over any polls: emits, in order, of a prefix of the stream exactly the records before the end of their partition, or all of them when following, at most the limit; the impact is exact; it ends with every partition finished exactly when it says so and then reading on would count nothing more, and otherwise only at the limit, at a failed poll or receiver, or where the polls were interrupted, empty or exhausted, having consumed all they brought |
| KafkaReads.Reader.MirrorMessages | internal/backend/kafka/kafka.go:417-453 | the same for the mirror, with or without a receiver |
| KafkaOffsets.OffsetPlan | internal/backend/kafka/kafka.go:905-934 | each matching partition is planned exactly once, from its position to its target, ascending; no plan exactly when a position is unknown; the total is the machine sum |
| KafkaOffsets.PlanIsComplete | internal/backend/kafka/kafka.go:905-934 | no matching partition is missing from a plan |
| KafkaOffsets.PlanSum | internal/backend/kafka/kafka.go:905-934 | the counts of a plan sum to the distances over the partitions that were asked for |
| KafkaOffsets.TotalIsExact | internal/backend/kafka/kafka.go:928-929 | the total is that sum of distances exactly while it fits 64 bits |
| KafkaOffsets.TotalCanWrap | internal/backend/kafka/kafka.go:928-929 | every plan for a certain reset of two partitions has a negative total |
| KafkaOffsets.ShiftOffsets | internal/backend/kafka/kafka.go:982-1008 | every listed partition gets its shifted target, or nothing when one position is unknown |
| KafkaOffsets.ShiftIsExact | internal/backend/kafka/kafka.go:994-1004 | the exact condition under which a shift moves the planned position by what was asked, stopping at 0 |
| KafkaOffsets.ShiftSurprises | internal/backend/kafka/kafka.go:994-1004 | inputs on which it does not |
| KafkaOffsets.CommitOutcome | internal/backend/kafka/kafka.go:860-890 | each planned partition is counted exactly once, as accepted, rejected or unanswered |
| KafkaOffsets.SomeUnanswered | internal/backend/kafka/kafka.go:860-890 | a commit counts as failing only for a partition that was rejected or not answered |
| KafkaOffsets.DeleteRecordsOutcome | internal/backend/kafka/kafka.go:1066-1093 | each requested partition of each topic is counted exactly once, in any order of the maps |
| KafkaOffsets.ConsumerGroup.OffsetsOf | internal/backend/kafka/kafka.go:831-839 | the offsets to commit are exactly those of the plan |
| KafkaOffsets.ConsumerGroup.MakePlan | internal/backend/kafka/kafka.go:905-967 | the plan starts where the group is, moves each partition to the listed position or by the shift, and is for exactly the partitions asked for |
| KafkaOffsets.ConsumerGroup.CommitOffsetPlan | internal/backend/kafka/kafka.go:843-858 | the outcome of a commit and what it says about the group |
| KafkaOffsets.ConsumerGroup.CommitPlan | internal/backend/kafka/kafka.go:831-858 | each planned partition ends as its answer says and no other moves |
| KafkaOffsets.ConsumerGroup.ResetOffset | internal/backend/kafka/kafka.go:820-841 | the group moves by nothing but the plan, the plan is for exactly the partitions and positions asked for, success means every planned partition is at its target, and what is counted as succeeded moved while what is counted as failed did not; it fails only for an active group, an unusable target, a partition number that is none, or after a failed call |
| MirrorStaging.AnyHeaderFirst | cmd/message.go:717-721 | the summed cost of headers does not depend on their order |
| MirrorStaging.SaidBytesCount | cmd/message.go:705-723 | the budget of a message is 256 bytes, its key, its body, and 128 bytes, name and value for each header of what is said with it |
| MirrorStaging.StageBytesCount | cmd/message.go:686-723 | and that of the stage the sum of these |
| MirrorStaging.AnyNameFirst | cmd/message.go:717-721 | in whatever order the headers are counted |
| MirrorStaging.BoundedMessageBytes | cmd/message.go:705-723 | accepts exactly the messages whose cost remains, returns that cost, and never overflows |
| MirrorStaging.CloneMessage | cmd/message.go:725-736 | same contents, in memory of its own |
| MirrorStaging.ReadBuffer.Add | cmd/message.go:686-703 | accepts exactly within both limits and keeps the byte count exact |
| MirrorStaging.AddValue | cmd/message.go:686-703 | what the buffer held before, it still holds, and one more value when it accepts |
| MirrorStaging.StageNext | cmd/message.go:686-703 | the buffer goes on to hold what the source says next, exactly if it fits |
| MirrorStaging.ReadMirrorSource | cmd/message.go:573-586 | the stage is, in order, what the source was given to say with its first emissions, even if it reuses and overwrites its memory; it is complete exactly when all fits; the result is accepted exactly when it is consistent |
| MirrorStaging.Target.Produce | cmd/message.go:776-804 | what a produce error says about the target; each error is a failed call |
| MirrorStaging.ProduceMirrored | cmd/message.go:750-774 | the target's log gains exactly the first succeeded messages and perhaps the next one, which is then uncertain; a refusal with one of the seven codes of a request that took no effect counts as failed, any other error as uncertain |
| MirrorStaging.Mirror | cmd/message.go:294-421 | nothing is produced unless the whole read was staged within its limits of messages and bytes, and then the target gains what the source said, under its own coordinate |
| MirrorAudit.MirrorReplays | cmd/message.go:407-413 | the recorded outcome of a mirror is a batch within its bound and replays |
| JsonDuplicates.ScanFindsDuplicates | cmd/mutation_audit.go:1198-1242 | on the tokens of any JSON value: a duplicate exactly when some object at any depth repeats a name up to case, and otherwise exactly that value's tokens are consumed |
| JsonDuplicates.ScanAcceptsValues | cmd/mutation_audit.go:1198-1242 | conversely, whatever tokens the scan accepts are those of a value without such a repetition |
| JsonDuplicates.JsonValueHasDuplicateKeyFold | cmd/mutation_audit.go:1198-1242 | the recursive decoder loop computes that scan on any token stream |
| JsonDuplicates.HasDuplicateJSONKeyFold | cmd/mutation_audit.go:1188-1196 | for a well-formed value the text is objected to exactly for a duplicate or for anything behind the value |
| PruneSelection.OrdinalsAreNumerals | cmd/audit_rotation.go:99-107 | exactly the numerals of 1 to the largest 64-bit number are ordinals |
| PruneSelection.RotationNames | cmd/audit_rotation.go:81-110 | the rotations of a log are exactly the names of its name, a timestamp, perhaps a positive ordinal, and the suffix, each with that timestamp and ordinal |
| PruneSelection.OlderIsTotal | cmd/audit_rotation.go:65-73 | timestamp, ordinal and path order any two different rotations |
| PruneSelection.StrictAuditRotatedFiles | cmd/audit_rotation.go:18-79 | refuses exactly a directory with something unexpected; otherwise its rotations, the earlier timestamp first and of one timestamp the smaller ordinal |
| PruneSelection.ListingOrderIsIrrelevant | cmd/audit_rotation.go:65-79 | the result does not depend on the order of the listing |
| PruneSelection.SelectAuditPruneCandidates | cmd/audit.go:553-572 | always an oldest prefix: nothing kept is older than anything selected, keep-last keeps exactly the newest n, a cutoff selects exactly what is before it |
| Sorting.SortSorts | cmd/audit_rotation.go:65-73 | sorting gives a sorted rearrangement |
| Sorting.SortedIsUnique | internal/backend/kafka/kafka.go:932 | and there is only one when elements can be told apart |

## Left out

- File permissions, access-control lists, symbolic links and lock files: the queue lock and the configuration lock are mutual exclusion.
- Directory entries that are lost although a rename or removal returned: a rename or removal that happened is taken as durable.
- The inside of opskit-core (hash chain, signatures, checkpoints, credential back ends, authorization): only the commit states of an append and the not-found result of a read are used.
- What the core does when a Vault credential is read: `Resolve` takes it from the coordinates of the context. The environment variable that stands in for an empty password is not consulted.
- Hashes and fingerprints are uninterpreted; only their form is validated.
- JSON encoding of records, the limit on the size of a spool file, and unknown or trailing fields: a pending file holds its record.
- Redaction of diagnostics and messages, telemetry and printing.
- Which of several errors is reported when more than one applies, and the texts of errors.
- Canonical forms of Vault addresses, namespaces and paths are parameters; a slot is taken to be one storage cell.
- The case folding of JSON names is a parameter; texts are sequences of Unicode characters.
- The classification of risks and the authorization that follows from it appear only as steps that may refuse.
- Reads over all contexts: only their audit outcome is modelled, not the loop over contexts.
- Programs that change credentials or the configuration inside a lock section without taking the lock: they are modelled between the lock sections only.
- Other consumers of a dead-letter queue, and other producers to its target.
- Schema registry, access-control, RocketMQ and Pulsar calls.
- Refreshing the time of a queued event record.
- The wiping of staged message bodies, and the hash over them.
- Parsing of offset targets, of cutoffs and of the timestamps in rotated names.
- KafkaReads.Reader.Tail: sizes are added without a machine bound, because at most 10,000 messages are added.
- KafkaReads.Reader.MirrorMessages: a fetch that carries both records and an error counts as failed.
- Impacts.TailImpactSlice: offsets below the largest 64-bit number are presupposed of the client, so that the next offset exists.
- JsonDuplicates.JsonValueHasDuplicateKeyFold: commas and colons are the decoder's business; its nesting state is passed in as the place of the next token.
- PruneSelection.StrictAuditRotatedFiles: the active log and its rotations are in one directory, as the listing makes them.
- CredentialSaga.ApplyImport: the single and the multiple import are one flow over a list of candidates.
