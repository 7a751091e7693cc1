# Nexus Core: models and proofs

Nexus Core runs agents that propose writes, automations that call agents on a schedule, a
DNS agent that keeps a provider in step with a local table, a carrier agent with a job
queue, a document pipeline, and a handful of codecs and monitors. This project models the
state machines behind them and proves what holds over all their inputs, runs and
interleavings. Where a database constraint carries an argument (a unique index, a row lock,
a rolled-back transaction, a session that does not flush before it queries), the
constraint is part of the step that is modelled, not an assumption about its outcome.

| modules | what they model |
|---|---|
| MergePatch, SystemOfRecord, WriteBackRefinement, WriteBackEffects, WriteBackHistory | the worker's write-back of proposed writes and tasks: the session, the reference it refines, its effects row by row, and the history over all runs |
| DnsJobs, DnsSync | upsert jobs beside a provider that does not roll back; drift and reconcile |
| Workflow, AutomationRuns, CronTriggers | one execution of a workflow; the life of runs under workers, replays and crashes; who may create a run |
| CarrierJobs | job claiming with `FOR UPDATE SKIP LOCKED` |
| DocumentIngest | document indexing with faults, crashes and startup recovery |
| Utf8, BackupFraming, ShellQuoting, PyText, MailListing | the backup file format, the SSH bridge's command line, the mailbox listing |
| Notifications | the down and recovered notices of two monitors |

Each imperative operation is a method proved equal to a specification function or step; the
properties are lemmas about those. What a function means is also stated without it, in terms of
the rows, the lists and the agents' answers. Every lemma carries `{:induction false}`: no proof
rests on Dafny's automatic induction.

## What the proofs show about the code

- A write-back batch is lost whole, and its task stays `running`, exactly when a reached,
  valid write repeats the key of the last applied write (or a task does, before another task
  was created), or something it adds cannot be stored: a value the columns refuse, a task
  whose persona version does not exist (`MissingVersionLosesBatch`), a job summary for a
  missing target. Every other batch behaves as the row-by-row reference (`DispatchRefines`).
  The repeated key slips through because of `autoflush=False`: the lookup cannot see the row.
- A non-null external reference stays unique unless it is the empty string, which the lookup
  treats as no reference (`EmptyRefBreaksUniquenessIff`, `RunRefsUniqueIff`).
- The merge patch is RFC 7396's exactly for patches without object-valued members
  (`RfcAgreementIff`).
- A retried upsert job ends as one clean run, but provider and local table may disagree on
  the priority (`JobAgreesWithProvider`). Reconcile converges exactly when no drifted key has
  several provider records (`ReconcileConvergesIff`), because an upsert rewrites the first
  listed record and drift is computed from the last; a repaired key loses its tags
  (`ReconcileLocal`).
- apps/automation_agent/RUNBOOK.md line 84 recommends several instances, because the unique
  constraint "prevents duplicate runs". It does prevent a second run row, but two worker
  loops can execute one run twice: the execution accounting, and the finality of success,
  hold exactly for at most one worker loop (`AccountingIffOneWorker`,
  `SuccessIsFinalIffOneWorker`). A crash leaves a claimed run that has no dead-letter row
  `running` for ever (`CrashLosesItsRuns`, `LostStaysLost`); the carrier queue has the same
  gap (`LostWorkersLeaveStuckJobs`).
- `depends_on` is met for all agents' answers exactly when the list is already ordered by it
  (`DependenciesMetIffOrdered`).
- Runs under cron keys are the scheduled ones under a policy for manual triggers iff the
  policy allows a cron key only for its own automation in a matching minute
  (`ScheduledIffHarmless`); otherwise a trigger can take a scheduled run's key
  (`ManualKeyPreemptsCron`).
- An exception of the indexing code itself commits a partial index; it is the last good index
  exactly if every chunk written has its embedding and the part is the whole of that index
  (`CutShortCommitsPart`). Every other fault leaves the last good one.
- The notices of a name alternate, but the tracked set is in memory: across a restart they
  alternate exactly when the name was up or never goes down again
  (`RestartKeepsAlternationIff`).

## Model

| member | source | states |
|---|---|---|
| MergePatch.ApplyJsonMergePatch | packages/shared/sor.py:61-69 | whatever order the patch is visited in, a key is governed by the patch if the patch has it (null deletes) and by the target otherwise |
| MergePatch.PatchTwiceIsOverride | packages/shared/sor.py:61-69 | applying p then q is applying the key-wise override of p by q, nulls kept |
| MergePatch.PatchesCollapse | packages/shared/sor.py:61-69 | any batch of patches equals one patch |
| MergePatch.PatchesIdempotent | packages/shared/sor.py:61-69 | a batch that is already in can be applied again without effect |
| MergePatch.PatchesCommuteIff | packages/shared/sor.py:61-69 | two patches commute on every document iff they agree on every key both carry |
| MergePatch.RfcAgreementIff | packages/shared/sor.py:61-69 | the simplified patch is section 2 of RFC 7396 on every document iff no member of the patch is an object |
| SystemOfRecord.FindKey | packages/shared/sor.py:47-50 | finds a row with the key, or there is none |
| SystemOfRecord.FindEntity | apps/nexus_worker/jobs.py:350-359 | finds an entity of the kind and non-empty reference, or there is none |
| SystemOfRecord.Worker.Flush | migrations/versions/005_sor_tables.py:85 | a flush makes the added rows visible, or fails on a repeated key and changes nothing |
| SystemOfRecord.Worker.Write | apps/nexus_worker/jobs.py:337-425 | one proposed write: refused, skipped, applied (entity, event and key row), or the session is lost on a repeated key or a value that does not fit |
| SystemOfRecord.Worker.Spawn | apps/nexus_worker/jobs.py:441-472 | one proposed task: skipped if its key is visible, lost if its row or its persona version cannot be stored, else key row and task are added and flushed |
| SystemOfRecord.Worker.Dispatch | apps/nexus_worker/jobs.py:301-563 | the committed tables and the task's status after a whole response, for exceptions of the agent call, of storage and of the worker's own code too |
| WriteBackRefinement.Lookups | packages/shared/db.py:18 | a session's lookup agrees with a lookup in everything it would commit, for every key but that of the last applied write |
| WriteBackRefinement.HiddenRow | packages/shared/db.py:18 | the row of the last applied write is invisible to the lookup |
| WriteBackRefinement.WritesRefine | apps/nexus_worker/jobs.py:337-425 | a batch of writes refines the row-by-row reference, or is lost exactly if it repeats the last applied key or adds what does not fit |
| WriteBackRefinement.TasksRefine | apps/nexus_worker/jobs.py:441-472 | a batch of tasks refines the reference, or is lost exactly if its first new task repeats that key or some new task cannot be stored |
| WriteBackRefinement.DispatchRefines | apps/nexus_worker/jobs.py:301-563 | a dispatch is the reference dispatch, unless the batch is lost by a condition on the tables and the response; then nothing is committed and the task stays running |
| WriteBackRefinement.LeftRunningIff | apps/nexus_worker/jobs.py:558-563 | a task is left running exactly for the lost batches |
| WriteBackRefinement.DistinctKeysNeverLost | apps/nexus_worker/jobs.py:335-472 | a batch with pairwise distinct keys whose rows can all be stored is never lost |
| WriteBackRefinement.MissingVersionLosesBatch | packages/shared/models/core.py:108 | a task naming a persona version that does not exist loses its batch, although all keys are new and distinct |
| WriteBackRefinement.RepeatsAdjacentAndApart | apps/nexus_worker/jobs.py:341-348 | the same write twice in a row loses the batch; with another write in between the repeat is skipped |
| WriteBackEffects.VerdictMeans | packages/shared/sor.py:44-58 | a key is fresh iff no row has it, applied already iff its row has the hash, in conflict iff its row has another |
| WriteBackEffects.NewWriteSucceedsIff | packages/shared/sor.py:20-32 | a new key's write succeeds iff it is a DNS record with name, record_type, value and ttl; any other fails and changes nothing |
| WriteBackEffects.UpdateInFull | apps/nexus_worker/jobs.py:350-425 | a write to an entity with its reference: the document key by key, the version plus one, the event with both documents (the old one unless empty), the key row, and nothing else |
| WriteBackEffects.CreateInFull | apps/nexus_worker/jobs.py:368-425 | a write without such an entity makes one of the patch with version 1, its create event and its key row, and nothing else |
| WriteBackEffects.TaskInFull | apps/nexus_worker/jobs.py:428-472 | a new task is created as proposed, or refused with the write kept, or takes the write with it if its persona version is missing |
| WriteBackEffects.NothingToApply | apps/nexus_worker/jobs.py:552-556 | a failed call changes nothing; a response without writes succeeds and its tasks are not looked at |
| WriteBackEffects.ExceptionCutsOff | apps/nexus_worker/jobs.py:549-558 | an exception after n writes, or all and m tasks, has the effect of the response cut off there, as a failure |
| WriteBackHistory.WriteKeeps | apps/nexus_worker/jobs.py:337-425 | one write keeps the whole-store invariant |
| WriteBackHistory.TaskKeeps | apps/nexus_worker/jobs.py:441-472 | so does one task |
| WriteBackHistory.DispatchKeeps | apps/nexus_worker/jobs.py:334-563 | so does every dispatch, lost ones included |
| WriteBackHistory.RunKeeps | apps/nexus_worker/jobs.py:334-563 | over any sequence of dispatches: keys unique, non-empty references unique per kind, every entity explained by its events, every event and task accounted for by its key row |
| WriteBackHistory.LogDeterminesState | apps/nexus_worker/jobs.py:361-394 | an entity's events are one create then updates, each before being the previous after (none iff that is empty), its version is their number, its data is the fold of the later diffs over the first document, which is one merge patch |
| WriteBackHistory.OnlyAllowedWritesAreLogged | packages/shared/sor.py:20-32 | every logged event is of a DNS record and its patch names all four required fields |
| WriteBackHistory.HistoryIsAppendOnly | apps/nexus_worker/jobs.py:382-425 | events, keys and tasks of an earlier state are prefixes of those of a later one; entities keep kind and reference and never lose a version |
| WriteBackHistory.EmptyRefBreaksUniquenessIff | apps/nexus_worker/jobs.py:350-359 | a fresh write breaks uniqueness of non-null references iff its reference is empty and its kind already has an entity with the empty reference |
| WriteBackHistory.RunRefsUniqueIff | apps/nexus_worker/jobs.py:350-359 | over any run, non-null references are unique iff at most one entity has the empty reference |
| WriteBackHistory.TwoEmptyRefsBreakUniqueness | apps/nexus_worker/jobs.py:350-359 | a batch of two writes with the empty reference breaks it from the empty tables on |
| WriteBackHistory.AtMostOncePerKey | migrations/versions/005_sor_tables.py:85 | over any run no key makes two events, two tasks, or an event and a task |
| WriteBackHistory.SucceededWritesHaveEvents | apps/nexus_worker/jobs.py:382-425 | in a succeeded task every proposed write has a key row with its own hash, and an event carries its key and records a write of that hash |
| WriteBackHistory.SucceededWritesAreRecorded | apps/nexus_worker/jobs.py:382-425 | if no other write proposed in the run has its hash, that event records the write itself, on an entity of its kind and reference |
| WriteBackHistory.SucceededIsFullyApplied | apps/nexus_worker/jobs.py:335-545 | a succeeded dispatch met no exception or refusal, and leaves every write stored and every task's key taken |
| WriteBackHistory.RedispatchIsNoOp | packages/shared/sor.py:50-52 | a response that succeeded, dispatched again after anything else and in any circumstances, changes nothing, and succeeds again iff no exception, refusal of its tasks or unstorable summary hinders it |
| WriteBackHistory.FailedBatchCommitsPrefix | apps/nexus_worker/jobs.py:546-563 | a failed dispatch commits nothing if the call or storage failed; else exactly what the part before its first obstacle commits, and the obstacle is an invalid or conflicting write, tasks that are not allowed, or an exception |
| DnsJobs.FindRecord | apps/dns_agent/adapters/cloudflare.py:157-169 | the first listed provider record of the key, if any |
| DnsJobs.Agent.AdapterUpsert | apps/dns_agent/adapters/cloudflare.py:171-201 | find, then PATCH (leaving a priority that was not sent) or POST |
| DnsJobs.Agent.RunUpsertJob | apps/dns_agent/jobs/runner.py:43-104 | the provider and local table after all attempts, a failed one having applied any prefix at the provider |
| DnsJobs.KeyLaw | apps/dns_agent/jobs/runner.py:69-88 | a batch folds a key's own records, in order, into the key's first provider record and leaves that record first |
| DnsJobs.LocalLaw | apps/dns_agent/store/postgres.py:158-199 | after a batch the local row of a key is that of its last record, with the provider record's id; other rows are unchanged |
| DnsJobs.ReplayIsNoOp | apps/dns_agent/adapters/cloudflare.py:171-201 | applying a batch twice at the provider is applying it once |
| DnsJobs.AttemptAbsorbed | apps/dns_agent/jobs/runner.py:56-99 | a failed attempt, however far it got, is absorbed by the next full one |
| DnsJobs.RetryRefinement | apps/dns_agent/jobs/runner.py:56-104 | for every schedule of attempts: a succeeding job ends exactly as one clean run; a failing one leaves the local table alone and a later clean run ends as it would have |
| DnsJobs.JobAgreesWithProvider | apps/dns_agent/jobs/runner.py:69-88 | after success provider and local row agree on id, value and ttl, and on priority iff the key's last record sent one or none ever did |
| DnsJobs.LastRecordWins | apps/dns_agent/jobs/runner.py:69-88 | after success a key's local row has its last record's value, ttl (300 if absent), priority and tags, and the id of the key's first provider record, which has the same value and ttl |
| DnsJobs.OtherRowsStay | apps/dns_agent/store/postgres.py:158-199 | a local row that no record names is as it was |
| DnsJobs.FailedAttemptIsVisible | apps/dns_agent/jobs/runner.py:56-99 | a failed attempt leaves the local table as it was, and at the provider the last value of every key it had upserted |
| DnsSync.LastRecord | apps/dns_agent/api/sync.py:48-49 | the last listed record of a key, which the lookup map keeps |
| DnsSync.DetectDrift | apps/dns_agent/api/sync.py:52-69 | the report holds exactly the local keys whose provider value is missing or different, each once, with both values |
| DnsSync.ReportIsOfLastRecords | apps/dns_agent/api/sync.py:47-69 | in terms of the provider's list: a local key is reported iff no record has it or the last record that does has another value, and the value reported is that record's |
| DnsSync.ReconcilePayload | apps/dns_agent/api/sync.py:72-86 | the payload is the desired record of each reported key, without tags |
| DnsSync.RepeatedMeansTwice | apps/dns_agent/api/sync.py:49 | the first and last record of a key differ iff the provider has two records of it |
| DnsSync.ListedAfterUpsert | apps/dns_agent/adapters/cloudflare.py:171-201 | an upsert changes what sync sees of a key iff it is for that key and the key is not repeated; it never makes a key repeated |
| DnsSync.ReconcileLocal | apps/dns_agent/jobs/runner.py:69-88 | a successful reconcile keeps every local value, ttl and priority, and clears the tags of repaired keys only |
| DnsSync.ReconcileKey | apps/dns_agent/api/sync.py:72-100 | a key is drifted after a successful reconcile iff it was drifted and repeated |
| DnsSync.ReconcileConvergesIff | apps/dns_agent/api/sync.py:55-100 | the next sync reports no drift iff no drifted key was repeated at the provider |
| DnsSync.RepeatedKeyStaysDrifted | apps/dns_agent/api/sync.py:55-100 | for a repeated drifted key a second reconcile does not help either |
| Workflow.Progress | apps/automation_agent/executor/worker.py:59-125 | the number of leading steps that succeed: all before it do, the one at it does not |
| Workflow.Run.CreateStepRuns | apps/automation_agent/store/postgres.py:112-126 | one pending row per step, in order |
| Workflow.Run.Attempt | apps/automation_agent/executor/worker.py:87-109 | the calls made, the attempt number recorded, and the error of the last failure |
| Workflow.Run.Execute | apps/automation_agent/executor/worker.py:59-125 | one step changes its own row only and ends it succeeded or failed |
| Workflow.Run.Process | apps/automation_agent/executor/worker.py:45-140 | each executed step's row tells the world's answers: succeeded at the first attempt answered with success, or failed with all attempts made and the last error, or with the rendering error; later rows are untouched; run status and error name the first failing step |
| Workflow.CallsLaw | apps/automation_agent/executor/worker.py:87-109 | calls are numbered from 1, all fail except possibly the last, and number at most max(0, max_attempts), exactly that many if none succeeds |
| Workflow.EachStepOnce | apps/automation_agent/executor/worker.py:59-125 | an executed step appears in the trace once, as its own events; any other not at all |
| Workflow.WorkflowShape | apps/automation_agent/executor/worker.py:59-125 | each step up to the first failing one: started, failures then at most one success, ended accordingly; later ones never start |
| Workflow.AnswersTell | apps/automation_agent/executor/worker.py:87-109 | the calls stop at the first attempt that the agent answers with success, or make every attempt |
| Workflow.RunIsTrue | apps/automation_agent/executor/worker.py:59-125 | every call in a run has the agent's own outcome, a step ends well iff its input renders and some allowed attempt succeeds, and steps are taken in list order |
| Workflow.DependenciesMetIffOrdered | apps/automation_agent/schemas.py:15-22 | for all answers every step starts only after its dependencies succeeded, iff each reachable step stands after all of them in the list |
| AutomationRuns.Engine.ClaimBatch | apps/automation_agent/executor/worker.py:225-242 | the claim loop marks exactly the polled runs as running |
| AutomationRuns.Engine.BeginRun | apps/automation_agent/executor/worker.py:205-224 | a task executes a run it finds pending or running and skips any other |
| AutomationRuns.Engine.EndRun | apps/automation_agent/executor/worker.py:127-192 | success, failure with a dead letter, failure without the automation, and the failed filing of a second dead letter, each by its row |
| AutomationRuns.Engine.ReplayRun | apps/automation_agent/api/dlq.py:31-45 | a run is found iff it has a dead-letter row; it is then pending, its count one higher, and nothing else changes |
| AutomationRuns.StepKeeps | apps/automation_agent/executor/worker.py:203-242 | every step keeps the accounting invariant of a single worker |
| AutomationRuns.TwoWorkersExecuteTwice | apps/automation_agent/executor/worker.py:225-242 | any two workers have an interleaving that executes one run twice at once |
| AutomationRuns.AccountingIffOneWorker | apps/automation_agent/executor/worker.py:203-242 | executions plus one if pending stay within one plus replays, and no run is executed twice at once, in every interleaving, iff there is at most one worker loop |
| AutomationRuns.BoundIsReached | apps/automation_agent/api/dlq.py:31-45 | the bound is exact: for any number of replays some interleaving executes the run once more than that |
| AutomationRuns.SuccessIsFinal | apps/automation_agent/api/dlq.py:31-45 | under one worker loop a succeeded run without a dead-letter row never changes again |
| AutomationRuns.SuccessIsFinalIffOneWorker | apps/automation_agent/executor/worker.py:225-242 | that is so in every interleaving iff there is at most one worker loop; with two, a late claim takes a succeeded run back to running |
| AutomationRuns.LostStaysLost | apps/automation_agent/store/postgres.py:150-159 | a running run with no task and no dead-letter row stays running for ever |
| AutomationRuns.CrashLosesItsRuns | apps/automation_agent/executor/worker.py:205-224 | after a crash of the only worker exactly the running runs without a dead-letter row are in that state |
| AutomationRuns.PollIsFair | apps/automation_agent/store/postgres.py:150-159 | a poll takes a pending run or a full load of runs not younger than it |
| AutomationRuns.BoundedWaiting | apps/automation_agent/executor/worker.py:225-242 | whatever the worker is doing, a pending run with k others not younger is claimed within k / limit + 1 claims, one more if a batch was already read, however many younger runs arrive, without replays |
| CronTriggers.CronKeyInjective | apps/automation_agent/scheduler/cron.py:33-34 | a cron key names one automation and one minute, whatever the id is made of |
| CronTriggers.TimeKeyReads | apps/automation_agent/scheduler/cron.py:33 | the minute reads YYYY-MM-DD-HH-MM |
| CronTriggers.CronKeyReads | apps/automation_agent/scheduler/cron.py:34 | the key reads cron_, the automation, an underscore, the minute |
| CronTriggers.RunTable.CheckCronSchedules | apps/automation_agent/scheduler/cron.py:14-125 | one pass adds the run of each due automation that has none and does not raise |
| CronTriggers.RunTable.TriggerRun | apps/automation_agent/api/automations.py:115-142 | returns the run that has the key, a new one iff there was none |
| CronTriggers.TickIsRun | apps/automation_agent/scheduler/cron.py:24-119 | a pass is a run of the interleaved machine, insert and commit by insert and commit |
| CronTriggers.TickAddsNothingIff | apps/automation_agent/scheduler/cron.py:36-60 | a pass adds nothing iff every due automation it does not raise for has its run already |
| CronTriggers.TickTwice | apps/automation_agent/scheduler/cron.py:36-60 | a second pass in the same minute, whatever was added in between, adds nothing iff the due automations that only the first pass raised for have their runs by then |
| CronTriggers.RunKeeps | apps/automation_agent/models.py:49 | under the unique index, committed and open rows have pairwise different keys in every interleaving, and rows are only added |
| CronTriggers.CronRunsAreUnique | apps/automation_agent/scheduler/cron.py:30-69 | in every interleaving of ticks and manual triggers there is at most one run per automation and minute |
| CronTriggers.ScheduledIffHarmless | apps/automation_agent/scheduler/cron.py:42-60 | in all interleavings every run under a cron key is of that automation in a minute its schedule matches, iff manual triggers use a cron key only so |
| CronTriggers.TriggerIsIdempotent | apps/automation_agent/api/automations.py:115-118 | once a key's run is committed every later lookup returns that run and no insert of the key can happen |
| CronTriggers.ManualKeyPreemptsCron | apps/automation_agent/api/automations.py:115-128 | a manual trigger of another automation can take a cron key, and the scheduled run is then never created |
| CarrierJobs.Queue.SelectJob | apps/carrier_agent/jobs/runner.py:66-76 | takes the oldest pending job that is not locked, or none iff all pending ones are |
| CarrierJobs.Queue.ClaimJob | apps/carrier_agent/jobs/runner.py:74-79 | the claim marks the job running, counts the attempt, releases the lock and keeps the claim invariant |
| CarrierJobs.Queue.ProcessJob | apps/carrier_agent/jobs/runner.py:14-60 | a terminal status, failed iff the target is gone, and under the invariant exactly one result row |
| CarrierJobs.StepKeeps | apps/carrier_agent/jobs/runner.py:63-84 | every step keeps the claim invariant and moves statuses only forward |
| CarrierJobs.ClaimedAtMostOnce | apps/carrier_agent/jobs/runner.py:63-84 | any workers, any interleaving: one claim per job ever, at most one worker on it, at most one attempt, one result row iff terminal |
| CarrierJobs.StatusOnlyMovesForward | apps/carrier_agent/models.py:135-137 | over any run a status moves from pending to running to one terminal status only |
| CarrierJobs.ResultsNeverConflict | apps/carrier_agent/models.py:162 | the result's primary key never stops a worker from committing its outcome |
| CarrierJobs.JobRunsThrough | apps/carrier_agent/jobs/runner.py:14-80 | a job submitted to an idle queue can be run to the outcome it deserves, with one attempt and one result |
| CarrierJobs.StuckIffProcessing | apps/carrier_agent/jobs/runner.py:74-84 | an abandoned job is stuck iff its worker was processing it; before the claim is committed it is pending and unlocked again |
| CarrierJobs.LostWorkersLeaveStuckJobs | apps/carrier_agent/jobs/runner.py:74-84 | a job whose worker is lost while processing stays running without a result for ever |
| DocumentIngest.Worker.IndexRows | apps/nexus_worker/jobs.py:706-722 | the i-th new chunk row is the i-th text, the i-th embedding row the i-th vector, in full or up to the point where it raises |
| DocumentIngest.Worker.EmbedDocument | apps/nexus_worker/jobs.py:588-751 | the document row tells how the ingest went; the rows written are the texts, each with the vector at its position, as many as both lists have, or as far as it got |
| DocumentIngest.EmbeddedTells | apps/nexus_worker/jobs.py:706-751 | the same of the specification, for every fault |
| DocumentIngest.Worker.RecoverStuckDocuments | apps/nexus_worker/startup.py:12-37 | exactly the documents in processing are set to uploaded and queued again; if an enqueue raises, those before it are queued and nothing is committed |
| DocumentIngest.Worker.ReingestDocument | apps/nexus_api/routers/kb.py:247-262 | the status is reset and the rows stay |
| DocumentIngest.Worker.DeleteDocument | apps/nexus_api/routers/kb.py:304-324 | the document goes with its chunks and their embeddings |
| DocumentIngest.OthersKeep | apps/nexus_worker/jobs.py:695-722 | replacing one document's rows leaves every other document's chunks and embeddings alone |
| DocumentIngest.OwnReplaced | apps/nexus_worker/jobs.py:695-722 | a replacement, whole or cut short, leaves the document with exactly the new chunks, numbered from 0, one embedding each as far as it got |
| DocumentIngest.RunKeeps | apps/nexus_worker/jobs.py:566-758 | over any uploads, deletions, re-ingests, ingests and recoveries: chunk ids stay distinct and every document's rows and version match its history |
| DocumentIngest.ReadyIsIndexed | apps/nexus_worker/jobs.py:724-733 | a ready document's rows are those of the last successful ingest, and its version counts the successful ones |
| DocumentIngest.FaultsKeepLastGoodUnlessCutShort | apps/nexus_worker/jobs.py:745-751 | failures in extract, chunk, embed or the database, and crashes, leave the last good index intact |
| DocumentIngest.LastGoodIndexIff | apps/nexus_worker/jobs.py:695-751 | at any time a document has the chunk and embedding rows last written for it, and so the last good index iff those were complete and equal to it |
| DocumentIngest.CutShortCommitsPart | apps/nexus_worker/jobs.py:745-751 | an exception inside indexing commits the chunks and embeddings written so far and reads failed; the last good index is there iff every chunk written has its embedding and the part is the whole of it |
| Utf8.RoundTrip | packages/shared/backup_crypto.py:56 | strict UTF-8 decodes what it encodes, for every text without surrogates |
| Utf8.Canonical | packages/shared/backup_crypto.py:111 | only one byte string decodes to a given text |
| Utf8.EncodedForm | packages/shared/backup_crypto.py:56 | the number of bytes, the leading byte and the six bits of every further byte are those of UTF-8 |
| BackupFraming.LengthIsBigEndian | packages/shared/backup_crypto.py:57 | the first byte of the length field is the most significant |
| BackupFraming.LengthRoundTrip | packages/shared/backup_crypto.py:57-57 | the big-endian length field decodes to the length |
| BackupFraming.PackUnpacked | packages/shared/backup_crypto.py:107-107 | and every four bytes are the field of the length they decode to |
| BackupFraming.PackThenUnpack | packages/shared/backup_crypto.py:103-114 | no bound check rejects a payload that was packed |
| BackupFraming.UnpackThenPack | packages/shared/backup_crypto.py:103-114 | an accepted payload is the packing of what it was read as |
| BackupFraming.BackupRoundTrip | packages/shared/backup_crypto.py:41-114 | decryption returns key and data for every file that encryption writes, and it writes one iff the password has 8 characters and both texts fit |
| BackupFraming.AcceptedIffWritten | packages/shared/backup_crypto.py:71-114 | for such a password a file reads as a backup iff some salt and nonce make encryption write exactly that file |
| BackupFraming.FileLayout | packages/shared/backup_crypto.py:56-68 | every part of a written file at its place: header, salt, nonce, sealed payload; in it length, master key, data |
| BackupFraming.WriterErrors | packages/shared/backup_crypto.py:52-57 | which check of the writer fails |
| BackupFraming.ReaderErrors | packages/shared/backup_crypto.py:79-101 | which check of the reader fails |
| ShellQuoting.BuildCommand | apps/email_agent/client/ssh_bridge.py:95-100 | the joined command line |
| ShellQuoting.QuotedRun | apps/email_agent/client/ssh_bridge.py:98-99 | inside single quotes an escaped argument reads back as the argument, whatever follows |
| ShellQuoting.CommandRoundTrip | apps/email_agent/client/ssh_bridge.py:95-100 | the shell's token and quoting rules read the command as `sudo`, the script path and the original arguments, for all arguments, NUL-free as a command line is |
| ShellQuoting.CommandReads | apps/email_agent/client/ssh_bridge.py:95 | with the script's path in full |
| ShellQuoting.CommandsAreDistinct | apps/email_agent/client/ssh_bridge.py:95-100 | two argument lists never give one command line |
| MailListing.Parse | apps/email_agent/services/admin_imap.py:105-133 | the line loop reads exactly what the fold over lines reads |
| MailListing.ListMessages | apps/email_agent/services/admin_imap.py:103-136 | one page of the sorted listing, or an error if some uid is not a number |
| MailListing.SortedDescends | apps/email_agent/services/admin_imap.py:135 | the sort permutes and descends by uid |
| MailListing.SortedIsStable | apps/email_agent/services/admin_imap.py:135 | equal uids stay in reading order |
| MailListing.SortedIff | apps/email_agent/services/admin_imap.py:135 | those properties leave no other result |
| MailListing.PagesCover | apps/email_agent/services/admin_imap.py:136 | consecutive pages of any positive limit make a front of the listing, nothing lost or repeated |
| MailListing.PagesAreAll | apps/email_agent/services/admin_imap.py:136 | enough pages make the whole listing |
| MailListing.NewestFirst | apps/email_agent/services/admin_imap.py:130-135 | for any output: the listing raises iff some uid read is not a number, and otherwise holds the messages read, the greatest uid first |
| MailListing.ParsedHaveUids | apps/email_agent/services/admin_imap.py:108-133 | every message read has a uid that is not empty |
| MailListing.BadSizeIsZero | apps/email_agent/services/admin_imap.py:125-129 | a size that is not a number reads as 0 |
| PyText.BreaksEndLines | apps/email_agent/services/admin_imap.py:107 | every line break ends a line, a carriage return and line feed only one |
| PyText.StripsBlanks | apps/email_agent/services/admin_imap.py:111 | blanks are stripped at both ends |
| PyText.IntOfSigned | apps/email_agent/services/admin_imap.py:135 | a sign before decimal digits is read |
| PyText.IntIsOfDigits | apps/email_agent/services/admin_imap.py:135 | what is read as a number has a sign, digits and underscores only |
| PyText.SliceFromEnd | apps/email_agent/services/admin_imap.py:136 | negative bounds count from the end |
| MailListing.LineField | apps/email_agent/services/admin_imap.py:107-128 | a printed field line is recognised as that field only, and its text is read back stripped |
| MailListing.BlockRead | apps/email_agent/services/admin_imap.py:105-133 | reading a block closes the message before it and leaves its own |
| MailListing.ParsePrinted | apps/email_agent/services/admin_imap.py:105-133 | any printed listing parses to one message per block with the printed fields |
| MailListing.PrintedMailbox | apps/email_agent/services/admin_imap.py:103-136 | end to end: no error, stable descending order, and any page size walks all of it |
| Notifications.HeartbeatMonitor.Pass | apps/nexus_api/main.py:192-245 | the agents judged in one pass, cut off at the first unreadable time |
| Notifications.HeartbeatMonitor.Poll | apps/nexus_api/main.py:175-273 | one cycle refines the machine and logs all-well on every 15th complete cycle with the right counts |
| Notifications.ConnectivityWatchdog.Poll | apps/storage_agent/main.py:41-121 | one cycle over the enabled targets refines the same machine |
| Notifications.NoticesAreChanges | apps/nexus_api/main.py:205-245 | a name's notices are exactly the changes of its own observed status |
| Notifications.NoticesAlternate | apps/nexus_api/main.py:172-245 | notices of a name go down, recovered, down, and it is tracked iff its last notice, and its last observation, was down |
| Notifications.JudgedMeans | apps/nexus_api/main.py:193-230 | a complete pass judges exactly the agents that have reported, down iff the last time is more than three minutes old |
| Notifications.TrackedIffStale | apps/nexus_api/main.py:205-245 | after it, an agent that has reported is tracked iff it is stale, whatever was noticed before |
| Notifications.CheckedMeans | apps/storage_agent/main.py:50-58 | a check judges exactly the enabled targets, by whether they were reached |
| Notifications.TrackedIffUnreachable | apps/storage_agent/main.py:50-118 | after it, an enabled target is tracked iff it could not be reached |
| Notifications.HealthyCounts | apps/nexus_api/main.py:230 | the healthy count is the number of agents judged up |
| Notifications.RestartKeepsAlternationIff | apps/storage_agent/main.py:39-118 | across a restart notices alternate iff the name was not tracked or is never down afterwards |

## Left out

- HTTP, routing, authentication, Redis, S3, SSH, IMAP, Telegram, logging, metrics and audit rows: an agent, provider or storage call is an arbitrary outcome.
- Concurrent dispatches to one entity: the worker takes no row lock, so dispatches are serialized in the model.
- Writes by the REST entity routes. The rows of a job summary, task links and artifacts: nothing here reads them; of a job summary only whether it can be stored is modelled.
- SystemOfRecord.Worker.Write: what the columns refuse is the abstract predicate `writeFits` (a NUL in a text or a JSON text, a text too long for its index) and, for tasks, `taskFits`; it does not look at the size of the merged document. A lone surrogate in a key, which the driver refuses before the database sees it, is not a text here.
- The database itself failing (a lost connection, a deadlock) loses a dispatch as a repeated key does.
- `X.is_active is True` and `Automation.enabled is True` (apps/nexus_worker/jobs.py:73, apps/automation_agent/store/postgres.py:54) are constant false as written; the intended column test is modelled.
- ORM loading: lazy loads, and attribute expiry after a rollback, which can end a cron pass early; a cron pass may raise for any set of automations instead.
- Expiry of idempotency rows: no code deletes them.
- DNS delete jobs: deleting an id that is already gone raises, so retries do not refine one clean run; the job row's own status is not modelled either.
- DnsJobs.RetryRefinement: one provider request is one step; the HTTP client's own repetition of a POST after a timeout, and listings of more than 1000 records, are not modelled.
- Provider ids are positions in the provider's listing order, which upserts keep.
- Workflow.Run.Process: templates, contexts, outputs, backoff times and notifications are outside; rendering may fail at will.
- AutomationRuns.AccountingIffOneWorker: claims nothing about termination; a replayed run that fails again violates the unique dead-letter row and stays running.
- CronTriggers.RunTable.TriggerRun: the error a caller gets when another session takes the key between lookup and insert is a rolled-back step of the interleaved machine, not of this method.
- croniter is an arbitrary predicate on automations and minutes; years run from 1000 to 9999.
- Ingests, and the recovery at startup, are serialized: a document that another worker is still indexing can be re-queued, and two ingests of one document at once, or a deletion during one, are not modelled.
- Polling, sleeping and the order in which tasks are gathered: the machines take their steps in any order.
- The checksum skip of the ingest (apps/nexus_worker/jobs.py:631) cannot be reached, because the status was already set to processing.
- The chunker, PDF extraction, embeddings and document metadata: an ingest gets arbitrary texts and vectors; the 2000-character cut of error messages is not modelled.
- BackupFraming.BackupRoundTrip: key derivation and AES-GCM are functions with their laws only, without the library's limit on message size; salt and nonce are given.
- MailListing.ParsePrinted: a field with a line break inside, which the parser would split, is not a well-formed block; `int` on non-ASCII digits is not modelled.
- Notifications.HeartbeatMonitor.Poll: a notice counts as sent when it is attempted; delivery is not modelled.
- `packages/shared/policy.py`, role tables, agent registry, schemas, caches, portal and scripts: easy or thin.
