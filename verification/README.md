# Crash, retry and concurrency protocols of the wireless test orchestrator

A model, with proofs, of the parts of the repository whose promises are about whole runs rather than
single calls: durable writes in several places, interrupted anywhere, retried, recovered, raced.

`dafny verify dfyconfig.toml` checks the whole project.

| files | what they model |
|---|---|
| `OutboxState`, `OutboxInvariant`, `OutboxSafety` | the agent's outbox, intent journal, prune journal and upload rows as one durable state, the atomic writes that change it, what every write keeps, and what follows for every run |
| `OutboxPlans`, `PruneRecovery`, `PrunePass`, `StagingRecovery` | what each call would write if nothing stopped it, and that recovery completes or undoes what a crash cut off |
| `StagingPreflight` | the scan of the intents directory, at startup and before every stage, and the two ways in which an aborted stage spoils it |
| `ArtifactStager` | the agent's calls themselves, statement by statement, each proved to write its plan up to wherever it is stopped |
| `StagingRace` | the staging worker against cancellations, the token and the deadline |
| `Retention`, `PruneBatches`, `RetentionLaw` | the retention query, limited batches of prunes against one unlimited selection, and what both keep, told by the upload rows alone |
| `CredentialState`, `CredentialSafety`, `CredentialLifecycle`, `CredentialLaws`, `CredentialService` | enrollment, rotation, revocation and idempotency on the server: the transactions, their invariants, exactly-once effects, when each takes effect and what it leaves, and the services statement by statement |
| `CredentialLocality`, `CredentialInterleaving`, `CredentialCopies`, `CredentialSerializability`, `CredentialRaces` | those transactions interleaved statement by statement under their locks, when they come to the same as one after another, what holds in any case, and two runs in which they do not |
| `RotationProtocol`, `RotationConvergence`, `RotationStranding`, `IdentityManager` | the client's rotation against that server over an unreliable network, when it completes, and when it never can |
| `TaskStore`, `TaskSafety`, `TaskCancellation`, `TaskOutcome`, `TaskRunner` | the task tables, any number of runners racing over them, when a run ends with a result and with which, and `TaskRunner.run` and `cancel` |
| `RefreshFamilies`, `SessionLaws` | sign-in sessions with one-use refresh tokens and reuse detection, as in section 4.14.2 of RFC 9700 |
| `RefreshInterleaving`, `RefreshRaces` | refreshes interleaved at the token's row lock and the session's version column: which commits are as if made at once, what a committed reuse ends, and when a reuse is overtaken |
| `LastAdministrator` | user administration interleaved under its locks |
| `PresenceProtocol`, `PresenceAgent` | heartbeats and capability manifests |

## How crashes and concurrency are modelled

Every durable write or committed transaction is one atomic step. A crash stops a program after any step;
in the classes `ArtifactStager.Stager`, `IdentityManager.Manager` and `TaskRunner.Runners` a field `power` says how many
more steps happen, and an exception that unwinds a call is the same as running out of it. The classes keep
a ghost history, so every state they reach is one that the state machines reason about.

Server transactions are single steps in most modules. For enrollment, rotation, revocation and idempotency
`CredentialInterleaving` takes them apart: authentication reads without any lock, each later statement reads
what is committed when it runs and waits for the locks others hold. Authentication has loaded the agent and
the presented credential into the same session that later selects them under their locks. Whether that select
refreshes the loaded copy or keeps it is the object-relational library's business and not decided in this
repository, so both readings are modelled and may be mixed. Where rows are read afresh, every interleaving
leaves what the same transactions leave one after another (`CredentialSerializability.SerializableAfresh`).
Where copies are kept, so does every run in which no rotation outlives what authentication saw
(`CredentialSerializability.Serializable`), and for a single commit that condition is exact
(`CredentialSerializability.CommitKeepsInv`).

Refreshes are taken apart in `RefreshInterleaving`, with both readings of another open point: whether an
update of all sessions of a user raises their version columns. If it does, every interleaving is as if made
one after another (`RefreshRaces.Serializable`); in general a commit is exactly if the condition of
`RefreshRaces.CommitAtOnce` holds. `LastAdministrator` is interleaved too, because there one writer does not
take the shared lock. Heartbeats and manifests are modelled as whole transactions only. Identifiers, keys,
tokens and names drawn at random are fresh. Digests and secrets stand for what they were computed from, and
whoever was given a credential's value can present it.

## What does not hold

The code keeps its promises except in these places, each stated as a lemma:

- A stage that is aborted with its intent written renames the intent with a prefix that no scan skips. Every
  later startup scan reports it, and every later stage, of whatever artifact, fails in its preflight
  (`StagingPreflight.AbortBlocksStaging`, `StagingPreflight.FirstAbortBlocksAll`); a preflight passes if and
  only if there is no stray, no intent that concerns it is refused, and the artifact's row, if any, has its
  file in place (`ArtifactStager.Stager.Preflight`).
- A version 2 intent is refused in two situations. If its row exists: if and only if the row was pruned while
  the intent was live (`StagingRecovery.RefusedIffPruned`, `StagingRecovery.PrunedUnderLiveIntent`). If not:
  if and only if its temporary was set aside, by an abort that crashed before it came to the intent; then it
  is refused for good (`StagingPreflight.RefusedIffSetAside`, `StagingPreflight.CrashedAbortRefused`,
  `StagingPreflight.RefusedWithoutRow`, `StagingPreflight.RefusedForGood`).
- A rotation whose reply was lost for longer than the replay window can never be completed
  (`RotationConvergence.StrandedForever`), and every freshly enrolled agent can get there
  (`RotationConvergence.LostReplyStrands`). A rotation whose pending credential was stored and not activated in
  time cannot either (`RotationStranding.NotActivatedStrands`, `RotationStranding.PendingForGoodReached`). These
  are instances of one condition: a stopped client whose one uninterrupted call could not complete never
  completes in any run, and once it has begun a rotation it never asks for another
  (`RotationStranding.NoRunCompletes`); `RotationConvergence.UninterruptedRotate` gives the condition.
- Where a locked select keeps the copy that authentication loaded, a rotation is granted although the agent or
  the presented credential was revoked in between: it is what the whole transaction would have done at once if
  and only if both still stand (`CredentialCopies.GrantedIffStillGood`). An agent revoked meanwhile gets a pending
  credential and a waiting rotation (`CredentialRaces.GrantedToRevoked`); if the presented credential was rotated
  meanwhile, a rotation waits whose activation the one-active index refuses although nobody recovered
  (`CredentialRaces.GrantedFromRotated`). What survives under either reading: one effect per scope, one credential
  per token, replays of the first body, at most one active and one pending credential, and that a revoked or
  expired credential stays so (`CredentialSerializability.AtMostOneEntry`, `OneMintPerToken`, `FirstBodyReplayed`,
  `OneActiveOnePending` and `NeverUsableInterleaved` there).
- A reuse of a refresh token that races with a good refresh of the same family can lose: once the session was
  written after the reuse read it, the reuse cannot commit any more, and the family goes on. It can commit if and
  only if nobody wrote the session in between or the family was over already (`RefreshRaces.EndsIffNotOvertaken`,
  `RefreshRaces.OvertakenForGood`, `RefreshRaces.ReuseOvertaken`). Every reuse that commits ends the family
  (`RefreshRaces.CommittedReuseEndsFamily`).
- A refresh in flight outlives a sign-out of all sessions if and only if that does not raise their versions; the
  token it returns is refused all the same (`RefreshRaces.GrantPastLogoutAll`).
- A prune that failed between its rename and the update of its row leaves a row that the query still selects and
  that every later batch passes over. Batches no larger than the number of such oldest rows prune nothing, call
  after call, until a recovery pass runs (`PruneBatches.HeldRowsBlock`, `PruneBatches.CutOffPruneIsStuck`); a batch
  changes nothing if and only if all its rows are held like that (`PruneBatches.BatchProgress`).
- Recovery during a rotation leaves the old rotation blocked by the one-active index
  (`CredentialLifecycle.IndexBlocksIff`, `CredentialLifecycle.RecoveryBlocksActivation`).
- A claimed run that nothing kills ends with a result if and only if `cancel` did not reach its token before
  the check, or the plugin timed out or was cancelled by the loop (`TaskCancellation.ResultIffUntouched`).
  Otherwise the task stays running, without a result, until a restart interrupts it
  (`TaskCancellation.StrandedUntilRestart`, `TaskCancellation.CancelledTaskStrands`). The scheduler's shutdown
  cancels like that (agents/desktop/src/wto_desktop_agent/application/scheduler.py:76-80).
- A pending heartbeat that has become too old for the server stays pending for good
  (`PresenceProtocol.StaleForever`, `PresenceProtocol.StaleReached`); a retry settles if and only if the
  agent's clock and the payload's time are both close to the server's (`PresenceProtocol.RetrySettles`).
- Disabling an inactive user who still has the administrator role, and removing the role from an active user
  who does not have it, are refused while one active administrator is left, although neither would change
  who administers (`LastAdministrator.RefusedWhenLast`, `LastAdministrator.RefusedForNothing`).

## Model

| member | source | states |
|---|---|---|
| `OutboxInvariant.LegalWriteKeepsInv` | agents/desktop/src/wto_desktop_agent/application/artifacts.py:1781-3152 | every durable write that staging, confirmation, pruning or either recovery can make keeps all five parts of the outbox invariant, so a crash between any two writes does too |
| `OutboxSafety.Conservation` | agents/desktop/src/wto_desktop_agent/application/artifacts.py:1822-2015 | in every reachable state the file a row was inserted for is in the outbox under exactly one name: the row's path, or the planned quarantine name of an unfinished prune of that row |
| `OutboxSafety.RowsShareNoFile` | agents/desktop/src/wto_desktop_agent/application/artifacts.py:2551-2735 | no two rows ever share an inode, and two rows whose files are in place have different paths |
| `OutboxSafety.FileAtItsPath` | agents/desktop/src/wto_desktop_agent/application/artifacts.py:3430-3455 | a row that is unconfirmed, or that no active prune record names, has its own file at its own path |
| `OutboxSafety.JournalOrder` | agents/desktop/src/wto_desktop_agent/application/artifacts.py:2086-2124 | stage events are ordered; QUARANTINED, SQLITE_UPDATED and MANUAL_RECOVERY_REQUIRED each imply, and the moved file and repointed row in turn require, the matching facts about the other |
| `OutboxSafety.ManualOnlyWithoutPrepared` | agents/desktop/src/wto_desktop_agent/application/artifacts.py:2086-2124 | with one operation on a row, MANUAL_RECOVERY_REQUIRED means PREPARED was never written, and the row's path and file are what they were when the operation began |
| `OutboxSafety.LoserStaysBeaten` | agents/desktop/src/wto_desktop_agent/application/artifacts.py:1862-1883 | a prepared operation is only ever given up while another operation of its row holds the row's bytes, and that stays so after every write |
| `OutboxSafety.OneRetiredPerRow` | agents/desktop/src/wto_desktop_agent/application/artifacts.py:1188-1207 | of all operations ever made for one row at most one is retired |
| `OutboxSafety.MovedAtMostOnce` | agents/desktop/src/wto_desktop_agent/application/artifacts.py:1822-2015 | in every run, however many operations overlap on a row, its bytes are renamed at most once, and never again once they have left their published name |
| `OutboxSafety.RunExtends` | agents/desktop/src/wto_desktop_agent/application/artifacts.py:2017-2226 | no run loses a row, its content, its bytes, an operation or a written event, reopens a finished record, or moves a row off a quarantine path |
| `PruneRecovery.CrashedPruneRecovers` | agents/desktop/src/wto_desktop_agent/application/artifacts.py:1822-2015 | after a crash at any point between PREPARED and retirement, recovery makes exactly the writes that were cut off and reaches the very state of the uninterrupted prune |
| `PruneRecovery.CrashBeforePrepared` | agents/desktop/src/wto_desktop_agent/application/artifacts.py:2086-2105 | after a crash before PREPARED, recovery leaves outbox and rows as they were and files the record under conflicts |
| `PruneRecovery.PruneEffect` | agents/desktop/src/wto_desktop_agent/application/artifacts.py:2276-2412 | an uninterrupted prune moves one file to its planned name, changes one row in its path only, leaves all three events and retires the record |
| `PruneRecovery.WinnerRecovers` | agents/desktop/src/wto_desktop_agent/application/artifacts.py:1844-2015 | from any reachable mix of operations, a prepared and not overtaken one is completed as its own prune would have been |
| `PruneRecovery.LoserRecovers` | agents/desktop/src/wto_desktop_agent/application/artifacts.py:1844-1883 | every other one is given up without touching a file or a row |
| `PrunePass.PassesDrain` | agents/desktop/src/wto_desktop_agent/application/artifacts.py:2017-2226 | n active records are drained by any k passes limited to L operations as soon as n <= k * L |
| `PrunePass.PassProgress` | agents/desktop/src/wto_desktop_agent/application/artifacts.py:2154-2165 | one pass never adds or reopens a record and closes at least as many as its limit and its listing allow |
| `PrunePass.SecondPassIdle` | agents/desktop/src/wto_desktop_agent/application/artifacts.py:2017-2226 | a pass that finds only torn records writes nothing and changes nothing |
| `PrunePass.FullPassCloses` | agents/desktop/src/wto_desktop_agent/application/artifacts.py:2017-2226 | a pass whose limit covers its listing leaves only torn or unlisted records active |
| `PrunePass.AnyOrderConverges` | agents/desktop/src/wto_desktop_agent/application/artifacts.py:2017-2226 | recovering all records in any order closes them all, leaves every row's own file at its path, and prunes a row exactly when some record of it was prepared and not given up, or it was pruned already |
| `PrunePass.PassReach` | agents/desktop/src/wto_desktop_agent/application/artifacts.py:2084-2177 | a pass closes a listed record if and only if it is undamaged and at most `limit` of the undamaged records up to it have PREPARED and no MANUAL_RECOVERY_REQUIRED in their journals; other records cost nothing |
| `PrunePass.PassStops` | agents/desktop/src/wto_desktop_agent/application/artifacts.py:2154-2165 | so with no more than `limit` such records everything undamaged is closed, and otherwise exactly `limit` of them, every undamaged record before the next one, and nothing from it on |
| `PrunePass.OthersStayActive` | agents/desktop/src/wto_desktop_agent/application/artifacts.py:2017-2226 | a pass reopens nothing, and closes no damaged and no unlisted record |
| `StagingRecovery.CrashedStageFinishes` | agents/desktop/src/wto_desktop_agent/application/artifacts.py:3028-3131 | from every crash point with a version 2 intent, and from every one after publication with a version 1 intent, recovery makes exactly the missing writes and reaches the state of the uninterrupted stage |
| `StagingRecovery.CrashedStageUndone` | agents/desktop/src/wto_desktop_agent/application/artifacts.py:3082-3107 | a version 1 stage that crashed before publication leaves no intent, no row, no final name and no temporary |
| `StagingRecovery.StageEffect` | agents/desktop/src/wto_desktop_agent/application/artifacts.py:2664-2694 | an uninterrupted stage adds one published file and one pending row for it and leaves no intent |
| `StagingRecovery.ReconcileOutcome` | agents/desktop/src/wto_desktop_agent/application/artifacts.py:3028-3152 | from any reachable state, recovery drops the intent unless it is a version 2 one without bytes, and afterwards its row exists exactly when it did before, or the final name was published, or it is version 2 |
| `StagingRecovery.ReconcileKeepsOthers` | agents/desktop/src/wto_desktop_agent/application/artifacts.py:3028-3152 | recovering one intent neither drops another nor changes whether another is refused |
| `StagingRecovery.AuthorityNeverDiscarded` | agents/desktop/src/wto_desktop_agent/application/artifacts.py:3108-3143 | wherever recovery of a version 2 intent stops, the intent is there or its row is |
| `StagingRecovery.RefusedIffPruned` | agents/desktop/src/wto_desktop_agent/application/artifacts.py:3141-3143 | a version 2 intent whose row exists is refused exactly when the row's bytes were moved by a prune; without a row see `StagingPreflight.RefusedIffSetAside` |
| `StagingRecovery.PrunedUnderLiveIntent` | agents/desktop/src/wto_desktop_agent/application/artifacts.py:3141-3143 | such a refusal is reachable: a complete stage whose intent was not dropped, confirmed and pruned |
| `StagingRecovery.AbortLeavesNothing` | agents/desktop/src/wto_desktop_agent/application/artifacts.py:2699-2720 | an abort before publication leaves no final name, no temporary and no row, and every other file and intent as it was |
| `StagingPreflight.AbortBlocksStaging` | agents/desktop/src/wto_desktop_agent/application/artifacts.py:2699-2720 | once one stage was aborted with its intent written, no startup scan and no preflight, of the same or any other artifact, passes again, whatever is written later |
| `StagingPreflight.FirstAbortBlocksAll` | agents/desktop/src/wto_desktop_agent/application/artifacts.py:2502-2518 | so an agent whose first stage is aborted there stages nothing from then on |
| `StagingPreflight.PassesIff` | agents/desktop/src/wto_desktop_agent/application/artifacts.py:3154-3216 | a preflight passes exactly if nothing was set aside by an abort, every live capture intent of the same artifact or the same execution has its bytes under one of its names, and the artifact's file, if it has a row, is where the row says |
| `StagingPreflight.RefusedIffSetAside` | agents/desktop/src/wto_desktop_agent/application/artifacts.py:3141-3143 | in every run, a version 2 intent without a row is refused exactly when its temporary was set aside |
| `StagingPreflight.CrashedAbortRefused` | agents/desktop/src/wto_desktop_agent/application/artifacts.py:2704-2716 | every stage with capture authority leads there if it is caught with its intent written and crashes between the two steps of its cleanup |
| `StagingPreflight.RefusedWithoutRow` | agents/desktop/src/wto_desktop_agent/application/artifacts.py:3141-3143 | a reachable state with such an intent |
| `StagingPreflight.RefusedForGood` | agents/desktop/src/wto_desktop_agent/application/artifacts.py:3141-3143 | recovery writes nothing for such an intent, and no other write ever brings its bytes or its row |
| `ArtifactStager.Stager.PruneRow` | agents/desktop/src/wto_desktop_agent/application/artifacts.py:2256-2412 | one selected row: nothing is written when its file is missing, changed or already quarantined, otherwise the seven writes of a prune, in order, as far as the call gets |
| `ArtifactStager.Stager.PruneConfirmed` | agents/desktop/src/wto_desktop_agent/application/artifacts.py:2228-2412 | given what its query answers, which is the oldest rows the policy does not keep, a completed call prunes those of them that no unfinished prune holds, and changes no other row |
| `ArtifactStager.Stager.RecoverOperation` | agents/desktop/src/wto_desktop_agent/application/artifacts.py:1822-2015 | branch by branch, writes the plan that recovery of that record has, as far as the call gets |
| `ArtifactStager.Stager.ReconcilePrune` | agents/desktop/src/wto_desktop_agent/application/artifacts.py:2017-2226 | the loop writes the plan of a whole pass, closes exactly the records that `PrunePass.PassReach` says, and reports more work exactly when an active record is left |
| `ArtifactStager.Stager.Associate` | agents/desktop/src/wto_desktop_agent/application/artifacts.py:1781-1820 | the row's compare-and-set, the re-read when it matched nothing, then retirement or conflict |
| `ArtifactStager.Stager.Stage` | agents/desktop/src/wto_desktop_agent/application/artifacts.py:2551-2735 | the worker writes the five writes of a stage, or cleans up what it had written at the point it was caught |
| `ArtifactStager.Stager.Preflight` | agents/desktop/src/wto_desktop_agent/application/artifacts.py:3154-3216 | recovers what concerns the artifact or its execution, and passes exactly when there is no stray, no such intent is refused and the artifact's row, if any, has its file in place; then it finds nothing, another task's row, or the staged artifact |
| `ArtifactStager.Stager.StageExclusive` | agents/desktop/src/wto_desktop_agent/application/artifacts.py:635-731 | the preflight and then the worker: with a stray it always raises, what the worker needs is what the preflight established, and a stage caught with its intent written leaves a stray |
| `ArtifactStager.Stager.ReconcileIntent` | agents/desktop/src/wto_desktop_agent/application/artifacts.py:3028-3152 | branch by branch, recovers one intent or refuses it; the idempotency conflict of the row insertion never arises |
| `ArtifactStager.Stager.ReconcileIntents` | agents/desktop/src/wto_desktop_agent/application/artifacts.py:3405-3422 | a completed scan, of everything or of one artifact, drops exactly the intents that concern it and are not refused, passes exactly when there is no stray and no such refusal, and leaves every row's file where it was |
| `ArtifactStager.Stager.AuditPending` | agents/desktop/src/wto_desktop_agent/application/artifacts.py:3424-3455 | the audit of unconfirmed rows never finds a missing or changed file |
| `ArtifactStager.Stager.Startup` | agents/desktop/src/wto_desktop_agent/application/artifacts.py:3374-3459 | prune recovery, intent recovery and audit together: what is left, and when the scan is reported clean |
| `ArtifactStager.Stager.MoveToQuarantine` | agents/desktop/src/wto_desktop_agent/platforms/linux/secure_fs.py:164-184 | the rename moves one entry to a name that was free |
| `ArtifactStager.Stager.UpdateRowPath` | agents/desktop/src/wto_desktop_agent/infrastructure/sqlite/store.py:1339-1366 | the compare-and-set repoints the one confirmed row whose path is the expected one |
| `StagingRace.StagingTransaction.RequestCancel` | agents/desktop/src/wto_desktop_agent/application/artifacts.py:130-136 | aborts a transaction that has not begun to commit, and answers whether the commit had started |
| `StagingRace.StagingTransaction.BeginCommit` | agents/desktop/src/wto_desktop_agent/application/artifacts.py:160-174 | passes, to COMMITTING, exactly from READY_TO_COMMIT, uncancelled and before the deadline, and aborts otherwise |
| `StagingRace.StagingTransaction.Ready` | agents/desktop/src/wto_desktop_agent/application/artifacts.py:148-158 | passes, to READY_TO_COMMIT, exactly from COPYING, uncancelled and before the deadline, and aborts otherwise |
| `StagingRace.TimelyStageReturns` | agents/desktop/src/wto_desktop_agent/application/artifacts.py:2551-2735 | with no cancellation, token, deadline or failure, however long it copies, the stage has returned and is COMMITTED with all five writes ten of the worker's steps after the end of the file |
| `StagingRace.StoppedNeverPublishes` | agents/desktop/src/wto_desktop_agent/application/artifacts.py:160-174 | in every interleaving, if the token was cancelled or the deadline passed before the commit began, the stage never publishes, never inserts a row and never returns |
| `StagingRace.StoppedCopyRecordsNothing` | agents/desktop/src/wto_desktop_agent/application/artifacts.py:138-146 | whatever stops a stage while it copies ends it before its intent is written |
| `StagingRace.CancelAnswers` | agents/desktop/src/wto_desktop_agent/application/artifacts.py:130-136 | a cancellation is answered False and aborts while the commit has not begun, and is answered True and changes nothing once it has |
| `StagingRace.RecoveryCommits` | agents/desktop/src/wto_desktop_agent/application/artifacts.py:635-731 | the recovery of a stage whose worker raised after a cancellation was answered True commits it exactly if it had been published |
| `StagingRace.CancelWins` | agents/desktop/src/wto_desktop_agent/application/artifacts.py:130-190 | in every interleaving, once a cancellation was answered False the stage never publishes, never inserts a row and never returns |
| `StagingRace.OneSideWins` | agents/desktop/src/wto_desktop_agent/application/artifacts.py:130-190 | all cancellations are answered alike, and a published final name excludes the answer False |
| `StagingRace.ReturnedIsDurable` | agents/desktop/src/wto_desktop_agent/application/artifacts.py:2664-2694 | a stage that returned is COMMITTED and made exactly the writes of an uninterrupted stage |
| `StagingRace.Absorbing` | agents/desktop/src/wto_desktop_agent/application/artifacts.py:115-190 | ABORTED and COMMITTED are absorbing, a started commit stays started, and no answer is withdrawn |
| `StagingRace.RaceWritesAreAStage` | agents/desktop/src/wto_desktop_agent/application/artifacts.py:2551-2735 | in every interleaving the worker's durable writes are a prefix of one staging call's, uncaught if it published |
| `StagingRace.RaceInTheOutbox` | agents/desktop/src/wto_desktop_agent/application/artifacts.py:635-731 | against any outbox: a cancellation answered False leaves rows and final names untouched, a returned stage has its file and its row |
| `StagingRace.AbortedWorkerRaises` | agents/desktop/src/wto_desktop_agent/application/artifacts.py:138-174 | once aborted, the worker raises within five of its own steps |
| `Retention.KeptIsLongestPrefix` | agents/desktop/src/wto_desktop_agent/infrastructure/sqlite/store.py:1285-1327 | the rows the query does not select are the longest newest-first prefix within the age, count and byte limits |
| `Retention.BatchLeavesRest` | agents/desktop/src/wto_desktop_agent/infrastructure/sqlite/store.py:1285-1327 | pruning any rows of one answered batch leaves the selection of every row outside the batch unchanged and selects nothing new |
| `Retention.BatchesAgree` | agents/desktop/src/wto_desktop_agent/infrastructure/sqlite/store.py:1285-1327 | successive limited batches that pass over stuck rows never prune outside one unlimited selection, and prune exactly its other rows once they have had room for them beside the stuck ones |
| `Retention.AnswerIsUnique` | agents/desktop/src/wto_desktop_agent/infrastructure/sqlite/store.py:1285-1327 | the query determines its answer, order included |
| `Retention.AnswerExists` | agents/desktop/src/wto_desktop_agent/infrastructure/sqlite/store.py:1285-1327 | for every table, policy and limit the query has an answer |
| `PruneBatches.BatchesPruneTheSelection` | agents/desktop/src/wto_desktop_agent/application/artifacts.py:1639-1665 | run against the outbox, from any mix of unfinished prunes, batches of prunes change rows of one unlimited selection only, all but the held ones once there was room, in their paths only, and touch no other row |
| `PruneBatches.StuckIffHeld` | agents/desktop/src/wto_desktop_agent/application/artifacts.py:2269-2271 | a candidate is passed over exactly when an unfinished prune has moved its file but not its row |
| `PruneBatches.BatchProgress` | agents/desktop/src/wto_desktop_agent/application/artifacts.py:2228-2412 | a batch prunes exactly the rows its query returned that are not held, and changes nothing if and only if all are |
| `PruneBatches.HeldRowsBlock` | agents/desktop/src/wto_desktop_agent/application/artifacts.py:2228-2412 | while the oldest selected rows are held, batches no larger than their number change nothing, call after call |
| `PruneBatches.CutOffPruneIsStuck` | agents/desktop/src/wto_desktop_agent/application/artifacts.py:2276-2412 | every prune cut off between its rename and the update of its row leaves that row a held candidate |
| `PruneBatches.NothingStuck` | agents/desktop/src/wto_desktop_agent/application/artifacts.py:2017-2226 | with no unfinished record no candidate is held |
| `RetentionLaw.UnselectedAreRetained` | agents/desktop/src/wto_desktop_agent/infrastructure/sqlite/store.py:1285-1327 | the confirmed, unpruned rows that the query leaves unselected are the largest set of rows closed under newer ones, by confirmation time and then identifier, with at most `count` rows of at most `bytes` bytes confirmed at or after the cutoff |
| `RetentionLaw.QueryFollowsRows` | agents/desktop/src/wto_desktop_agent/infrastructure/sqlite/store.py:1285-1327 | the query returns a sequence if and only if it is the oldest of the other rows, oldest first, ties broken by identifier, as many as asked for |
| `RetentionLaw.BatchesKeepRetained` | agents/desktop/src/wto_desktop_agent/application/artifacts.py:1639-1665 | whatever batches run, no row the policy keeps is touched, and once there was room exactly the other unheld rows are pruned |
| `RetentionLaw.OneBatchLaw` | agents/desktop/src/wto_desktop_agent/application/artifacts.py:2228-2412 | one batch changes exactly the returned rows that no unfinished prune holds, and these are the oldest the policy does not keep |
| `RotationProtocol.NeverLockedOut` | agents/desktop/src/wto_desktop_agent/application/identity.py:175-285 | with requests and replies lost, late or repeated, crashes anywhere and any passing of time, the server's active credential is one whose secret the client holds under its active or pending reference |
| `RotationProtocol.KeepNext` | agents/desktop/src/wto_desktop_agent/application/identity.py:175-285 | every step of client, network, server and clock keeps the joint invariant of identity row, secrets, credentials, rotations and idempotency records |
| `RotationProtocol.OnlyAuthenticatedServed` | backend/src/wto_backend/api/agent_dependencies.py:46-117 | only an active credential in time of an active agent, and for activation also a pending one, is served; anybody else gets nothing, not even a replay, and changes nothing |
| `RotationProtocol.AnswerNew` | backend/src/wto_backend/services/agent_credentials.py:88-142 | while no rotation waits, a rotation request under a new key with the agent's active credential is granted exactly when that credential has not expired |
| `RotationConvergence.UninterruptedRotate` | agents/desktop/src/wto_desktop_agent/application/identity.py:175-285 | from wherever the client was stopped, one uninterrupted rotate() ends with no rotation in progress if and only if the active credential, the replay window or the rotation it still needs has not expired; then the client's active credential is the server's and the replaced secret is gone |
| `RotationConvergence.DriveEnds` | agents/desktop/src/wto_desktop_agent/application/identity.py:175-285 | an uninterrupted rotate() ends within ten steps |
| `RotationConvergence.StrandedForever` | backend/src/wto_backend/services/agent_credentials.py:63-66 | once a rotation reply was lost for longer than the replay window, no retry ever completes that rotation and the client never asks for another |
| `RotationConvergence.LostReplyStrands` | backend/src/wto_backend/services/agent_credentials.py:63-66 | every freshly enrolled agent with an unexpired credential gets there if the reply to its request is lost and it does not retry within the window |
| `RotationConvergence.StrandedReached` | backend/src/wto_backend/services/idempotency.py:96-99 | such an agent, and so a run from an initial world to a stranded one, exists |
| `RotationStranding.NoRunCompletes` | agents/desktop/src/wto_desktop_agent/application/identity.py:175-285 | from a stopped client whose one uninterrupted call could not complete, no run of client, network, server and clock completes the rotation, and one that was begun is never given up for another |
| `RotationStranding.NeverCompletes` | agents/desktop/src/wto_desktop_agent/application/identity.py:175-285 | the same from the middle of a call; active credential, references and keys of the identity never change again |
| `RotationStranding.NotActivatedStrands` | backend/src/wto_backend/services/agent_credentials.py:208-234 | every freshly enrolled agent with an unexpired credential gets there with the reply heard and the pending secret stored, if it is stopped before the activation until the rotation has expired |
| `RotationStranding.PendingForGoodReached` | agents/desktop/src/wto_desktop_agent/application/identity.py:203-222 | such an agent exists |
| `IdentityManager.Manager.Rotate` | agents/desktop/src/wto_desktop_agent/application/identity.py:175-285 | one call, with up to two exchanges: however it is cut short it is a run of the protocol; with power for seven writes and no lost message it is not cut short, and unless cut short it completes exactly when the protocol can |
| `IdentityManager.Manager.StorePending` | agents/desktop/src/wto_desktop_agent/application/identity.py:203-222 | stores the pending secret and then the pending identity; cut short after one write it has stored the secret only; it raises, and writes nothing, exactly if the reference holds another value |
| `IdentityManager.Manager.Finalize` | agents/desktop/src/wto_desktop_agent/application/identity.py:266-285 | deletes the previous secret and then forgets the rotation; cut short after one write the secret is gone and the identity still names it |
| `IdentityManager.Manager.Arrive` | backend/src/wto_backend/api/agent_dependencies.py:46-117 | a request is authenticated by the credential it presents and then served as one transaction |
| `CredentialService.Service.BeginScope` | backend/src/wto_backend/services/idempotency.py:49-106 | claims a new scope; replays, refuses or expires a known one, whose record is never in progress |
| `CredentialService.Service.CreateRotation` | backend/src/wto_backend/services/agent_credentials.py:44-162 | statement by statement with rollback, has the outcome of the transaction it stands for; the one-pending index never refuses the insertion |
| `CredentialService.Service.ActivateRotation` | backend/src/wto_backend/services/agent_credentials.py:164-262 | statement by statement with rollback, has the outcome of the transaction, including the refusal by the one-active index |
| `CredentialService.Service.Register` | backend/src/wto_backend/services/enrollment.py:132-294 | statement by statement with rollback, has the outcome of enrollment or recovery |
| `CredentialService.Service.RevokeAgent` | backend/src/wto_backend/services/agent_credentials.py:309-351 | revokes the agent's usable credentials and waiting rotation together |
| `CredentialSafety.StepKeepsInv` | backend/src/wto_backend/services/agent_credentials.py:44-362 | every transaction keeps the credential, rotation, token and record invariants |
| `CredentialSafety.AtMostOneOfEach` | backend/src/wto_backend/domain/models.py:408-427 | each agent has at most one active and one pending credential and no version twice, and a pending credential belongs to a waiting rotation |
| `CredentialSafety.NeverUsableAgain` | backend/src/wto_backend/services/agent_credentials.py:286-362 | in every run, a revoked or expired credential never authenticates again |
| `CredentialSafety.VersionsIncrease` | backend/src/wto_backend/services/agent_credentials.py:96-113 | every credential a transaction issues has a higher version than all of its agent's before it |
| `CredentialLifecycle.IndexNeverBlocks` | backend/src/wto_backend/services/agent_credentials.py:208-234 | over every sequence of whole transactions without recovery the one-active index never blocks an activation; interleaved on copies from authentication it can, see `CredentialRaces.GrantedFromRotated` |
| `CredentialLifecycle.IndexBlocksIff` | backend/src/wto_backend/domain/models.py:415-420 | in general it blocks exactly when every check passed while a credential other than the replaced one is active |
| `CredentialLifecycle.RecoveryBlocksActivation` | backend/src/wto_backend/services/enrollment.py:191-232 | recovery during a rotation leads there: a reachable state in which the old rotation cannot be activated |
| `CredentialLifecycle.AtMostOneCommit` | backend/src/wto_backend/services/idempotency.py:49-136 | over every sequence of whole transactions each idempotency scope commits at most one effect; interleaved, see `CredentialSerializability.AtMostOneEntry` |
| `CredentialLifecycle.NoEffectWithoutCommit` | backend/src/wto_backend/services/idempotency.py:49-136 | a call that does not commit its scope changes nothing, except that a late replay expires the waiting rotation |
| `CredentialLifecycle.LaterCallsGetFirstBody` | backend/src/wto_backend/services/idempotency.py:86-106 | after a scope committed, each later call gets the first body, or an expiry error once a secret's window is over; another fingerprint gets a conflict and changes nothing |
| `CredentialLifecycle.OneCredentialPerToken` | backend/src/wto_backend/services/enrollment.py:182-187 | over every sequence of whole transactions one enrollment token mints at most one credential, under whatever keys; interleaved, see `CredentialSerializability.OneMintPerToken` |
| `CredentialLifecycle.RecordsAreCompleted` | backend/src/wto_backend/services/idempotency.py:108-136 | no committed record is in progress, and each names the effect it stands for |
| `CredentialLaws.RegistrationIff` | backend/src/wto_backend/services/enrollment.py:182-215 | a registration under a new key changes anything, and credentials in particular, if and only if its token is neither revoked nor expired nor used up, the platform is allowed, the agent a recovery token is for exists, and no other agent has the installation |
| `CredentialLaws.RegistrationIssues` | backend/src/wto_backend/services/enrollment.py:216-280 | then the agent is active with the installation and has one new active credential of the next version for its whole life, and the token is used once more |
| `CredentialLaws.RegistrationRevokes` | backend/src/wto_backend/services/enrollment.py:220-224 | of all other credentials only the agent's active one changes, and it is revoked |
| `CredentialLaws.RevokedTokenEnrollsNobody` | backend/src/wto_backend/services/enrollment.py:111-187 | in every run after a token is revoked no credential is minted by it, and a registration with it changes nothing and gets at most the recorded answer of one that had gone through before |
| `CredentialLaws.RotationIff` | backend/src/wto_backend/services/agent_credentials.py:88-113 | a rotation under a new key is granted if and only if the agent and the presented credential are active and no rotation of the agent waits that is still in time |
| `CredentialLaws.RotationAdds` | backend/src/wto_backend/services/agent_credentials.py:96-142 | then a pending credential of the next version and a waiting rotation are added for the window, an expired rotation times out with its pending credential, and nothing else changes |
| `CredentialLaws.ActivationIff` | backend/src/wto_backend/services/agent_credentials.py:190-234 | an activation under a new key takes effect if and only if the agent is active, the rotation is its own, waiting and in time, the credential presented is its pending one, and no third credential is active |
| `CredentialLaws.ActivationSwaps` | backend/src/wto_backend/services/agent_credentials.py:208-234 | then the replaced credential is revoked, the pending one is active for a whole life from now, the rotation is done, and nothing else changes |
| `CredentialLaws.AgentRevocationEnds` | backend/src/wto_backend/services/agent_credentials.py:309-351 | revoking an agent revokes exactly its active and pending credentials and withdraws exactly its waiting rotation |
| `CredentialLaws.CredentialRevocationIff` | backend/src/wto_backend/services/agent_credentials.py:286-307 | revoking one credential needs it to be the agent's, and changes nothing else |
| `CredentialLaws.TokenCreationIff` | backend/src/wto_backend/services/enrollment.py:62-109 | a new token is good for one use until it expires; one for recovery needs its agent |
| `CredentialLaws.ExpiryLaw` | backend/src/wto_backend/services/agent_credentials.py:96-234 | no call changes a credential's expiry but the activation that starts its life, and every new one expires after a window if pending and after a life if active |
| `CredentialLaws.ReplaysIff` | backend/src/wto_backend/services/idempotency.py:72-106 | a recorded scope gives its body exactly for the same request, no longer in progress, and a secret only within its window |
| `CredentialLocality.GrantOnPart` | backend/src/wto_backend/services/agent_credentials.py:88-142 | a rotation is granted or refused on the rows a transaction reads of its agent as on all tables, with the same reply and the same writes |
| `CredentialLocality.RegistrationOnPart` | backend/src/wto_backend/services/enrollment.py:143-294 | the same for enrollment and recovery, if the index on installations has nothing against it |
| `CredentialSerializability.NextKeepsInv` | backend/src/wto_backend/repositories/agents.py:24-89 | every statement of every transaction, under either reading of rows loaded before, keeps that what it has read under its locks is still so and that its copies are earlier versions of the rows |
| `CredentialSerializability.CommitKeepsInv` | backend/src/wto_backend/services/agent_credentials.py:88-142 | a transaction that commits wrote nothing, or left the tables and gave the reply it would have at once on what is committed then; a rotation does so if and only if the agent and the presented credential still stand |
| `CredentialSerializability.Serializable` | backend/src/wto_backend/services/idempotency.py:60-86 | whatever statements interleave, as long as every rotation that is granted is granted while what authentication saw is still so, the tables are those that the committed transactions leave one after another, in the order in which they committed |
| `CredentialSerializability.SerializableAfresh` | backend/src/wto_backend/repositories/agents.py:24-52 | where locked selects read afresh that is every interleaving |
| `CredentialSerializability.InterleavedReachable` | backend/src/wto_backend/services/idempotency.py:60-86 | so every such interleaving stays among the states for which the lifecycle and exactly-once theorems are proved |
| `CredentialSerializability.AtMostOneEntry` | backend/src/wto_backend/services/idempotency.py:49-136 | in every interleaving, under either reading, each idempotency scope commits at most one effect |
| `CredentialSerializability.OneMintPerToken` | backend/src/wto_backend/services/enrollment.py:143-187 | in every interleaving, under either reading, one enrollment token mints at most one credential, under whatever keys |
| `CredentialSerializability.NoMintAfterRevocation` | backend/src/wto_backend/services/enrollment.py:111-187 | in every interleaving, once a token's revocation has committed no registration with it mints a credential, not even one that had begun before |
| `CredentialSerializability.FirstBodyReplayed` | backend/src/wto_backend/services/idempotency.py:86-106 | in every interleaving, under either reading, a call whose scope is on record gets the first body, an expiry error or a conflict |
| `CredentialSerializability.OneActiveOnePending` | backend/src/wto_backend/domain/models.py:408-427 | in every interleaving, under either reading, each agent has at most one active and one pending credential and no version twice |
| `CredentialSerializability.NeverUsableInterleaved` | backend/src/wto_backend/services/agent_credentials.py:286-362 | in every interleaving, under either reading, a revoked or expired credential stays revoked or expired |
| `CredentialCopies.GrantedIffStillGood` | backend/src/wto_backend/services/agent_credentials.py:88-95 | what a rotation granted on the copies from authentication leaves is what would be left at once if and only if the agent is still active and the presented credential still active |
| `CredentialCopies.ActivationCopied` | backend/src/wto_backend/services/agent_credentials.py:164-262 | an activation on those copies commits exactly what it would on the rows as they are, because the version column of the credential it updates is compared |
| `CredentialRaces.GrantedToRevoked` | backend/src/wto_backend/api/routers/agent_protocol.py:40-60 | a reachable run in which an agent revoked after authentication gets a pending credential and a waiting rotation |
| `CredentialRaces.GrantedFromRotated` | backend/src/wto_backend/domain/models.py:415-420 | a reachable run in which a rotation of a credential rotated meanwhile waits and the one-active index refuses its activation, without any recovery |
| `TaskSafety.AtMostOnce` | agents/desktop/src/wto_desktop_agent/infrastructure/sqlite/store.py:897-1076 | in every interleaving of ingests, runners, crashes and restarts, what is executed was ingested and attempted, and the tasks of one idempotency key lead to at most one plugin execution, of the canonical task |
| `TaskSafety.OneAttemptPerKey` | agents/desktop/src/wto_desktop_agent/infrastructure/sqlite/store.py:1024-1054 | and to at most one recorded attempt |
| `TaskSafety.ResultIffFinished` | agents/desktop/src/wto_desktop_agent/infrastructure/sqlite/store.py:1095-1133 | a task is completed, failed or cancelled exactly when it has a result, it has only one, and its key's effect records that state and result |
| `TaskSafety.OnlyAllowedEdges` | agents/desktop/src/wto_desktop_agent/domain/states.py:39-75 | every change of a task's state is an allowed transition, or a restart turning an unfinished state into interrupted |
| `TaskSafety.TerminalForever` | agents/desktop/src/wto_desktop_agent/domain/states.py:23-37 | terminal states are absorbing over every run |
| `TaskSafety.LaterTasks` | agents/desktop/src/wto_desktop_agent/infrastructure/sqlite/store.py:897-986 | in every reached world each later task of a key is a duplicate if it asks for the effect of the first and blocked if it asks for another |
| `TaskSafety.IngestAnswers` | agents/desktop/src/wto_desktop_agent/infrastructure/sqlite/store.py:897-986 | a first task is queued exactly if its key is new; one that comes again changes nothing and is told apart by its payload |
| `TaskSafety.RefusalMoves` | agents/desktop/src/wto_desktop_agent/application/task_runner.py:31-47 | a task refused by the checks moves from the queue to the refusing state, and nothing is executed |
| `TaskSafety.QueuedIsClaimed` | agents/desktop/src/wto_desktop_agent/infrastructure/sqlite/store.py:1024-1054 | in order, every queued task that is not refused is claimed, with a fresh attempt and its effect marked |
| `TaskSafety.TerminalIffNoWayOut` | agents/desktop/src/wto_desktop_agent/domain/states.py:23-75 | the terminal states are exactly those the transition table has no way out of |
| `TaskCancellation.ResultIffUntouched` | agents/desktop/src/wto_desktop_agent/application/task_runner.py:46-129 | in every run of the world in which nobody kills it, a claimed run ends with a result exactly when `cancel` did not reach its token before the check or the plugin timed out or was cancelled by the loop; otherwise its task is running with nobody to run it |
| `TaskCancellation.ResultIffAgreed` | agents/desktop/src/wto_desktop_agent/application/task_runner.py:101-102 | at the check, with no cancellation to come, it ends with a result exactly when the token and the stored state agree |
| `TaskCancellation.AgreedRunsToResult` | agents/desktop/src/wto_desktop_agent/application/task_runner.py:101-129 | then its own three steps are possible and put its result in the outbox |
| `TaskCancellation.StrandedUntilRestart` | agents/desktop/src/wto_desktop_agent/infrastructure/sqlite/store.py:1394-1419 | a task left unfinished with nobody to run it stays as it is until a restart interrupts it, and never has a result |
| `TaskCancellation.CancelledTaskStrands` | agents/desktop/src/wto_desktop_agent/application/task_runner.py:26-29 | that state is reached from the empty store by one task, one run and one call of `cancel` |
| `TaskOutcome.ResultSaysOutcome` | agents/desktop/src/wto_desktop_agent/application/task_runner.py:77-129 | in every run of the world, a claimed run that ends with a result leaves task and effect completed exactly if the plugin succeeded and was cleaned up, cancelled exactly if the loop was cancelled and it was cleaned up, and failed in every other case |
| `TaskSafety.NextKeepsInv` | agents/desktop/src/wto_desktop_agent/application/task_runner.py:31-129 | every step of any runner, and every ingest, crash and restart, keeps store, runners and executions in order |
| `TaskStore.SQLiteStore.IngestTask` | agents/desktop/src/wto_desktop_agent/infrastructure/sqlite/store.py:897-986 | queues the first task of a key; later ones are duplicates or blocked, a reused task id is refused |
| `TaskStore.SQLiteStore.ClaimTask` | agents/desktop/src/wto_desktop_agent/infrastructure/sqlite/store.py:1024-1054 | claims exactly a queued task whose effect is unclaimed |
| `TaskStore.SQLiteStore.FinishWithResult` | agents/desktop/src/wto_desktop_agent/infrastructure/sqlite/store.py:1095-1133 | the terminal state, the result, the effect and the attempt change together or not at all |
| `TaskStore.SQLiteStore.RecoverInterrupted` | agents/desktop/src/wto_desktop_agent/infrastructure/sqlite/store.py:1394-1419 | the loop interrupts exactly the unfinished tasks and counts them |
| `TaskRunner.Runners.Run` | agents/desktop/src/wto_desktop_agent/application/task_runner.py:31-129 | one call of run(), with cancellations falling at any of five moments between its steps: it executes the plugin at most once and only after its own claim; left to finish, a claimable task ends with its result exactly when none came too early or the plugin timed out, and is left running otherwise; the result, the task and its effect are completed, cancelled or failed as `TaskOutcome.StateFits` says of the plugin and the cleanup; a refused task moves to the refusing state |
| `TaskRunner.Runners.Cancel` | agents/desktop/src/wto_desktop_agent/application/task_runner.py:26-29 | cancels the registered token of the task, if there is one, and changes nothing that is stored |
| `RefreshFamilies.OneChainPerFamily` | backend/src/wto_backend/services/auth.py:128-193 | in every run the tokens of a family form one chain of replacements whose last element is the only unconsumed one |
| `RefreshFamilies.ReuseEndsFamily` | backend/src/wto_backend/services/auth.py:144-159 | after a consumed token is presented again in a whole transaction, no token of the family ever refreshes and no access token of it ever authenticates; interleaved, see `RefreshRaces.CommittedReuseEndsFamily` |
| `RefreshFamilies.RaiseEndsEverythingBefore` | backend/src/wto_backend/services/auth.py:230-253 | after the user's version was raised, no access token with an older version and no token of an earlier family is ever accepted |
| `RefreshFamilies.AuthService.Refresh` | backend/src/wto_backend/services/auth.py:128-193 | statement by statement, rotates the token or revokes the family |
| `RefreshFamilies.AuthService.AuthenticateAccess` | backend/src/wto_backend/services/auth.py:195-211 | accepts exactly claims whose user, session and version all still stand |
| `SessionLaws.SignInIff` | backend/src/wto_backend/services/auth.py:36-126 | a sign-in is granted exactly to an active user with the right password, and opens one session with one unused token |
| `SessionLaws.RefreshIff` | backend/src/wto_backend/services/auth.py:128-193 | a refresh is granted exactly while token, session and user are all still good, and then replaces that token only; refused for a known token it ends that session only |
| `SessionLaws.SignOutEndsOne` | backend/src/wto_backend/services/auth.py:213-228 | signing out ends the user's own session and no other |
| `SessionLaws.EndingAllIsExact` | backend/src/wto_backend/services/auth.py:230-253 | ending all sessions revokes exactly the user's and raises exactly the user's version by one |
| `SessionLaws.AccessIff` | backend/src/wto_backend/services/auth.py:195-211 | an access token authenticates exactly while its user is active at its version and its session is that user's, of that version, unrevoked and in time |
| `SessionLaws.GrantLasts` | backend/src/wto_backend/services/auth.py:86-93 | what is granted is good for the inactivity period and never beyond the session's absolute end, which the sign-in sets and no refresh moves |
| `SessionLaws.NoSessionOutlivesItsEnd` | backend/src/wto_backend/services/auth.py:163-165 | in every run, however often it is refreshed, no session is accepted or refreshed once the absolute period since its sign-in is over |
| `RefreshInterleaving.NextKeepsInv` | backend/src/wto_backend/services/auth.py:128-193 | every lock, read, sweep and commit of every refresh, beside all other calls, keeps the chains, that a standing session has an active user of its version, and that what a refresh has read is an earlier version of what is committed |
| `RefreshRaces.DecidesByWhatItRead` | backend/src/wto_backend/services/auth.py:129-177 | a refresh that has read token, session and user grants exactly if all it read is good and the session is as it read it, and otherwise ends the session |
| `RefreshRaces.CommitAtOnce` | backend/src/wto_backend/domain/models.py:154-183 | a refresh commits what the whole call would at that moment: a grant if and only if the family stands, an ending if and only if it found every token still standing; always so while the family stands or if updates of all sessions raise versions |
| `RefreshRaces.Serializable` | backend/src/wto_backend/services/auth.py:128-193 | if they do, every interleaving leaves what the committed calls leave one after another, so the theorems of `RefreshFamilies` hold of it |
| `RefreshRaces.OneChainInterleaved` | backend/src/wto_backend/services/auth.py:161-175 | in every interleaving, whether they do or not, the tokens of a family form one chain of replacements whose last element is the only unconsumed one |
| `RefreshRaces.CommittedReuseEndsFamily` | backend/src/wto_backend/services/auth.py:142-160 | in every interleaving, after a reuse or another refusal has committed no token of the family refreshes, no access token of it authenticates, and no refresh already in flight replaces a token of it, unless only an update of all sessions that does not raise versions had revoked it |
| `RefreshRaces.EndsIffNotOvertaken` | backend/src/wto_backend/services/auth.py:266-273 | a reuse that has read its session can commit if and only if nobody wrote the session since, or the family was over already |
| `RefreshRaces.GrantWrites` | backend/src/wto_backend/services/auth.py:176-177 | a granted refresh is such a write |
| `RefreshRaces.OvertakenForGood` | backend/src/wto_backend/services/auth.py:266-273 | once overtaken, a reuse can only give up |
| `RefreshRaces.ReuseOvertaken` | backend/src/wto_backend/repositories/identity.py:46-52 | a run from the start in which a reuse is overtaken by a good refresh, the family stands and its newest token refreshes |
| `RefreshRaces.GrantPastLogoutAll` | backend/src/wto_backend/services/auth.py:230-253 | a refresh in flight outlives a sign-out of all sessions exactly if that raises no versions, and then the returned token is refused |
| `LastAdministrator.AlwaysAnAdministrator` | backend/src/wto_backend/services/rbac.py:61-192 | once an active administrator exists, every interleaving of disabling, assigning, removing, creating and bootstrapping, at lock, read, write and commit granularity, keeps one |
| `LastAdministrator.NextKeepsInv` | backend/src/wto_backend/services/rbac.py:61-192 | every statement keeps the locks in order and keeps every count already taken true enough |
| `LastAdministrator.RefusedWhenLast` | backend/src/wto_backend/services/rbac.py:66-68 | an active administrator is refused exactly when nobody would be left; for anybody else nothing would be lost, and disabling is refused exactly if the user has the role, removing the role exactly if the user is active, while one active administrator is left |
| `LastAdministrator.RefusedForNothing` | backend/src/wto_backend/services/rbac.py:154-159 | an input for each of the two refusals of a call that would change nothing |
| `LastAdministrator.CommitChangesOne` | backend/src/wto_backend/services/rbac.py:61-192 | in every interleaving a commit changes one user: disabling only the activity, removal and assignment only the role, and the bootstrapped user is an active administrator |
| `LastAdministrator.BootstrapMakesFirst` | backend/src/wto_backend/services/bootstrap.py:14-82 | alone, a bootstrap makes its user the only active administrator, and is done only if there was none or for that very user |
| `LastAdministrator.AdditionsNeedNoCount` | backend/src/wto_backend/services/rbac.py:28-116 | creating a user needs a new name, giving the role an existing user, and neither is ever refused for the count |
| `LastAdministrator.OneBootstrap` | backend/src/wto_backend/services/bootstrap.py:14-82 | in every interleaving without role assignments, however many bootstraps race, one commits only while nobody is an active administrator |
| `LastAdministrator.AloneAgrees` | backend/src/wto_backend/services/rbac.py:61-192 | with nobody beside it a transaction's statements go through to its commit exactly when the call alone is Done, and leave what it leaves |
| `LastAdministrator.UserAdministration.DisableUser` | backend/src/wto_backend/services/rbac.py:61-88 | alone, answers and changes what the rule says |
| `LastAdministrator.UserAdministration.RemoveAdministrator` | backend/src/wto_backend/services/rbac.py:141-171 | alone, answers and changes what the rule says |
| `LastAdministrator.UserAdministration.Bootstrap` | backend/src/wto_backend/services/bootstrap.py:14-82 | alone, creates the first administrator and nothing once there is one |
| `LastAdministrator.UserAdministration.CountActiveAdministrators` | backend/src/wto_backend/services/rbac.py:178-189 | counts the active users with the role |
| `PresenceProtocol.SequencesAgree` | agents/desktop/src/wto_desktop_agent/application/heartbeat.py:19-52 | over lost requests and replies, crashes and restarts, the stored sequence is the acknowledged one or the next, and then the agent still holds that very heartbeat |
| `PresenceProtocol.HeartbeatsNeverConflict` | backend/src/wto_backend/services/agent_protocol.py:151-200 | no heartbeat, first or retried, meets a sequence or manifest conflict, and its manifest id and digest are on the server; it is refused only for its clock |
| `PresenceProtocol.ManifestsNeverConflict` | backend/src/wto_backend/services/agent_protocol.py:41-93 | no manifest, first or retried, meets a conflict, and the latest confirmed one is on the server under its id and digest |
| `PresenceProtocol.RetrySettles` | agents/desktop/src/wto_desktop_agent/application/heartbeat.py:19-52 | an uninterrupted retry settles exactly when the agent's clock and the time the payload reports are both close to the server's clock |
| `PresenceProtocol.NewBeatSettles` | agents/desktop/src/wto_desktop_agent/application/heartbeat.py:23-52 | a new heartbeat sent at once settles exactly when the two clocks are close |
| `PresenceProtocol.FreshSettles` | backend/src/wto_backend/services/agent_protocol.py:146-149 | a pending one that is not too old settles once the agent's clock is right and the server's has caught up with it |
| `PresenceProtocol.StaleForever` | agents/desktop/src/wto_desktop_agent/application/heartbeat.py:20-23 | once the pending heartbeat is too old, no later one is ever sent and the server's presence never changes again |
| `PresenceProtocol.StaleReached` | agents/desktop/src/wto_desktop_agent/application/heartbeat.py:47-48 | a pending heartbeat becomes too old in a run from the start, with any clock the server lets through |
| `PresenceProtocol.AcceptedIff` | backend/src/wto_backend/services/agent_protocol.py:130-200 | a heartbeat, from whomever, is accepted exactly if its time is close, its manifest is stored under its digest, and it is of a new boot, later in the stored one, or the stored one again |
| `PresenceProtocol.SequenceNeverFalls` | backend/src/wto_backend/services/agent_protocol.py:160-185 | while one boot reports, its stored sequence never falls |
| `PresenceProtocol.PublishedIff` | backend/src/wto_backend/services/agent_protocol.py:41-93 | a manifest is published exactly if it is stored already or both its sequence and its identifier are new, and nothing stored is replaced |
| `PresenceProtocol.PublishSettlesIff` | agents/desktop/src/wto_desktop_agent/application/capabilities.py:233-277 | an uninterrupted publication is confirmed exactly if the agent's clock is close to the server's |
| `PresenceProtocol.ProtocolService.Heartbeat` | backend/src/wto_backend/services/agent_protocol.py:130-200 | accepts, replays or refuses as the request's timestamp, the reported time, the manifest and the stored boot id and sequence decide |
| `PresenceProtocol.ProtocolService.PublishManifest` | backend/src/wto_backend/services/agent_protocol.py:41-93 | stores a manifest once per sequence and answers its retries |
| `PresenceAgent.Agent.EnsurePublished` | agents/desktop/src/wto_desktop_agent/application/capabilities.py:233-277 | one call is the persisting, sending and confirming it amounts to, leaves a confirmed manifest that describes the agent, and raises without a started runtime unless a manifest is pending |
| `PresenceAgent.Agent.Send` | agents/desktop/src/wto_desktop_agent/application/heartbeat.py:19-52 | one call is the persisting, sending and confirming it amounts to; when it returns, client and server agree |

## Left out

- File system identity checks (owners, modes, link counts, replaced directories) and descriptor handling: an entry is its name, inode, size and hash; an outside process changing the outbox is not modelled.
- Directory and file synchronisation: a rename, an append or a record is durable when it happens; a torn prune record is a `damaged` operation that recovery leaves alone, a torn intent is not modelled.
- The prune reconciliation's byte budget and deadline: a pass is limited in operations only, and running out of bytes or time is a call that stops.
- `upload_id` and `artifact_id`: one key of one row here, since both are unique.
- Orphaned temporaries and untracked entries in the full (not the startup) reconciliation: only setting a temporary aside is in the model.
- `ArtifactStager.Stager.Stage`: the source's validation failures before publication are the same cleanup as a cancellation at that point.
- `ArtifactStager.Stager.Preflight`: its deadline and its limits on entries and bytes are a call that stops; of the identity fields that must match an existing artifact only the task is compared.
- `RotationProtocol.NeverLockedOut`: administrative revocation and re-enrollment are excluded, because they are meant to lock a client out.
- `IdentityManager.Manager.Rotate`: `enroll` and `mark_revoked` are not modelled on the client; enrollment is modelled on the server.
- Nonces and rate limits of agent authentication, and outside `PresenceProtocol` the skew of a request's timestamp: opaque checks that reject a request before it has an effect.
- `CredentialSerializability.Serializable`: the protocol modules with single-step servers (`RotationProtocol` and what builds on it) speak of the runs it covers; of the version columns only those of credentials that a transaction updates are modelled, the others only make further commits fail.
- Retention of idempotency records: nothing in the source deletes them.
- `TaskSafety.AtMostOnce`: a plugin is one call; what it does inside, its progress events and its process handling are not modelled, nor are the bookkeeping columns that `request_cleanup` and `complete_cleanup` write beside the state.
- `RefreshRaces.Serializable`: sign-in, sign-out and disabling are one event each; `_revoke_family` finds its tokens and commits in two events, and its waiting for other token rows is not modelled, which only allows more interleavings.
- `PresenceProtocol.SequencesAgree`: requests delivered after a later one was sent are excluded, as is an agent that was revoked meanwhile; of the confirmed manifests only the latest is kept.
- HTTP, FastAPI routing, Redis, audit records, logging, the frontend, the command line, configuration, schema validation, cryptography, process runners, channel tables, database backup and migration: plumbing or library behaviour without protocol state.
- Liveness beyond the bounded convergence stated above.
