# Control Station Lite: the deployment protocol, verified

Control Station Lite runs scripts on remote machines. A control station keeps the canonical
scripts; an agent on every machine runs only what the machine's owner has approved. This project
models the path of a script from the station to a running process and back (approve, synchronise,
execute, stream, recover) and proves that it keeps its promises, or says exactly when it does not.

The model follows the program file by file. What the program changes in place (the approvals
manager and its files, the caches, the job tables, the idle clock, the log reader) is a class or a
method with loops. Each such method is proved against a specification function, and the theorems
are lemmas about those functions and about runs of them.

| file | what it models |
|---|---|
| `Approvals.dfy` | the five-state approval machine, its records and files, and the manager object |
| `ExecutionGate.dfy` | the checks in front of every execution |
| `Sovereignty.dfy` | runs of one agent: only what is in force runs |
| `RecordStates.dfy` | the state, the digests and every answer, read off the log of a run |
| `RecordsAndFiles.dfy` | approvals.json against the script directories |
| `SharedStore.dfy` | several managers over one approvals.json |
| `StaleWriters.dfy` | managers that write on an old copy, and when that is harmless |
| `Purge.dfy` | the owner's orphan purge |
| `ScriptSync.dfy` | the control station's synchronisation and its convergence |
| `JobSubmission.dfy` | the script registry, and submitting a job end to end |
| `Deployment.dfy` | runs of the whole system: editors, interleaved submissions of both endpoints, the owner's commands, restarts, tampering, lost answers, rows committed late or never |
| `LogStream.dfy` | the backward scan and the tail loop |
| `ServerSentEvents.dfy` | the event printer and its parser |
| `LogToClient.dfy` | both together, from the log file to the client |
| `ProcessManager.dfy` | persistent jobs, crashes and recovery |
| `Reconciler.dfy` | the station's job rows against the agents' processes |
| `IdleShutdown.dfy` | authentication, the idle clock and the shutdown loop |
| `RefreshTokens.dfy` | refresh-token rotation, overlapping requests included |
| `AuthorizedKeys.dfy` | the rewrite of authorized_keys |
| `StripUnknowns.dfy` | validation that strips unknown fields, on values and on live objects |
| `Text.dfy`, `Sequences.dfy` | Python's `splitlines` and `strip`; facts about sequences |

## Where the program differs from its documentation

The model follows the code. These lemmas state what the code does where its comments or the
obvious expectation say otherwise, each with the exact condition or a concrete run.

- `Reconciler.DocumentedExactlyWhenAnswered`, `Reconciler.ActiveExactlyWhenAliveAndAnswered`,
  `Reconciler.LiveJobIsWrittenOff`, `Reconciler.BusyAgentLosesJob`: the reconciler documents that it marks
  a job failed when the agent no longer knows it, but `get_job_status` never raises `AgentClientError`, so
  every transport or server error does the same. A live job polled while its agent is down is marked failed
  and stays so, although the restarted agent lists it as running. So is one whose agent is up and busy: a
  one-shot script runs on the agent's event loop (agent/main.py:192-252), the question waits behind it, and
  the client gives up after thirty seconds (server/core/agent_client.py:118-122).
- `StaleWriters.WriteIsHarmlessExactlyWhenBacked`, `StaleWriters.ClearedScriptRuns`: only reads compare
  signatures, so a manager that writes saves the copy it read before. A command between the agent's
  reading and its staging is forgotten by the records, and a script that the owner cleared can run. The
  web page's re-stage (server/web/machines.py:529-577) stages without reading first, so every command since
  the agent's last read is forgotten, with no race at all (`Deployment.RestagingIsHarmlessExactlyWhenBacked`).
- `Deployment.JobsTableIsCompleteExactlyWhenNothingIsLost`, `Deployment.AnAnswerIsLost`,
  `JobSubmission.LostAnswerLeavesNoRow`: a one-shot script runs inside the agent's request, and the client
  waits thirty seconds; when an answer is lost, or the row of one that arrived is not committed, the script
  has run and no row says so.
- `Deployment.WebRowOfAnotherText`, `Deployment.AnotherTextIsRecorded`: the web page sends no digest along,
  so its row may stand for another text than the one it synchronised.
- `RefreshTokens.AcceptedOnceExactlyWhenApart`, `RefreshTokens.OneCookieTwice`: a refresh checks its token
  and rotates it later without checking again (server/api/auth.py:193-210). Each token is accepted at most
  once, and tokens are conserved, exactly when none is checked again or logged out in between; two
  overlapping requests with one cookie are both granted.
- `RecordsAndFiles.AgreementExactlyWhenUnaliased`, `Approvals.FrameExactlyWhenUnaliased`,
  `Purge.PurgeIsExactExactlyWhenSeparate`: a script named `x.meta.yaml` shares a path with the metadata of `x`.
- `RecordsAndFiles.FileExactlyWhenPublished`, `RecordsAndFiles.SupersededUpdateLeavesOldFile`: `pending` does
  not mean that scripts/ holds no file of that name. There is one exactly when a text has been approved, by
  the owner or by policy, since the last reject or clear; stage, approve, stage, stage leaves the first text
  there under a pending record.
- `JobSubmission.UntranslatedRefusal`, `JobSubmission.RefusalIsReached`: the agent answers 403, which the
  station does not translate, exactly when the requested version is approved and an update of it is on offer.
- `ServerSentEvents.ParserUndoesPrinter`: a log line survives the event stream exactly when it has
  no line break before its last visible character; `tail_log` strips only trailing ones.

## Model

| member | source | states |
|---|---|---|
| Approvals.PutView | control_station_lite/agent/approvals.py:119-298 | What an operation writes for its name is what the next read of that name finds; writing back what was read changes nothing |
| Approvals.PutFrame | control_station_lite/agent/approvals.py:293-298 | An operation under one name leaves the record and all files of every unaliased other name as they were |
| Approvals.FrameExactlyWhenUnaliased | control_station_lite/agent/approvals.py:156-157 | Two names are independent if and only if they differ and neither is the metadata path of the other |
| Approvals.RefusalChangesNothing | control_station_lite/agent/approvals.py:136-148 | A refused operation and an idempotent re-staging change no record and no file of any name |
| Approvals.SavedExactlyWhenRecordChanges | control_station_lite/agent/approvals.py:132-270 | approvals.json is rewritten if and only if the record of the name changes; what is not saved leaves the files, too |
| Approvals.AnswerIsNewState | control_station_lite/agent/approvals.py:198-198 | The state an operation answers is the state the next `get_state` reports |
| Approvals.ApprovalsManager.SyncFromDisk | control_station_lite/agent/approvals.py:320-328 | The records are reloaded exactly when the file's signature changed |
| Approvals.ApprovalsManager.GetState | control_station_lite/agent/approvals.py:98-107 | Answers from the file as it is now, with an absent descriptor for unknown names |
| Approvals.ApprovalsManager.Save | control_station_lite/agent/approvals.py:340-349 | The file holds the manager's records and the manager knows the new signature |
| Approvals.ApprovalsManager.PromoteFiles | control_station_lite/agent/approvals.py:211-223 | The offered script replaces the approved one; metadata moves only if some was offered |
| Approvals.ApprovalsManager.Stage | control_station_lite/agent/approvals.py:119-198 | The method on live files and records performs the staging transition of the slot of its name, answers its outcome, and saves exactly when the record changed |
| Approvals.ApprovalsManager.Approve | control_station_lite/agent/approvals.py:200-232 | The same for approving, with its three refusals |
| Approvals.ApprovalsManager.Reject | control_station_lite/agent/approvals.py:234-256 | The same for rejecting |
| Approvals.ApprovalsManager.RemoveFiles | control_station_lite/agent/approvals.py:293-298 | Removes the four paths of a name and nothing else |
| Approvals.ApprovalsManager.Clear | control_station_lite/agent/approvals.py:258-270 | The same for clearing, from any state |
| ExecutionGate.Candidate | control_station_lite/agent/script_runner.py:236-245 | The result is the first existing candidate in extension order, or None exactly when there is none |
| ExecutionGate.FindScript | control_station_lite/agent/script_runner.py:236-245 | The search loop finds the first existing candidate file, or reports that none exists |
| ExecutionGate.Admit | control_station_lite/agent/script_runner.py:76-98 | The gate on a live manager decides from the file as it is now: state first, then parameters, file, digest |
| Sovereignty.ForceIsInForce | control_station_lite/agent/approvals.py:132-270 | The version computed from the end of the log is the one in force: promoted at some entry and ended by none since |
| Sovereignty.RecordsFollowLog | control_station_lite/agent/approvals.py:132-270 | In every run, approved records carry exactly the version in force, every other state means that none is in force, and pending digests are the latest offer |
| Sovereignty.OnlyWhatIsInForceRuns | control_station_lite/agent/script_runner.py:90-98 | Owner sovereignty: whatever is staged, decided or tampered with, an execution runs only bytes whose digest is the version in force for that name at that moment |
| Sovereignty.WhatIsInForceRuns | control_station_lite/agent/process_manager.py:139-148 | Conversely, a version in force is never refused for want of approval; it runs unless parameters are bad, no file exists or the file's digest differs |
| Sovereignty.WithoutForceNothingRuns | control_station_lite/agent/script_runner.py:76-80 | While no version is in force, an execution is refused for the state of the name, before parameters or files are looked at |
| Sovereignty.OneVersionInForce | control_station_lite/agent/approvals.py:205-230 | At most one version of a name is in force at any time |
| Sovereignty.ApprovedMeansDigestRecorded | control_station_lite/agent/script_runner.py:221-222 | The branch that skips the digest comparison is unreachable |
| Sovereignty.TamperingIsNoPromotion | control_station_lite/agent/script_runner.py:214-233 | Rewriting files at will neither grants nor ends any version's standing |
| RecordStates.StateFollowsLog | control_station_lite/agent/approvals.py:119-270 | In every run each of the five states is on record if and only if the requests and answers so far say so: absent until a version is accepted and again once cleared; rejected from a reject until a clear; approved while a version is in force; pending while one waits; update_pending while it waits over one that was in force |
| RecordStates.DigestsFollowLog | control_station_lite/agent/approvals.py:164-230 | In every run the pending digest is exactly the version that waits, and the approved digest exactly the version in force or the one an update would replace |
| RecordStates.AnswersFollowLog | control_station_lite/agent/approvals.py:136-282 | After every run, staging is refused if and only if a rejection stands; approving, rejecting and clearing are refused exactly for want of a record, of a waiting version, or (approving) of its file |
| RecordsAndFiles.TransitKeepsAgreement | control_station_lite/agent/approvals.py:132-270 | Every operation with an honest digest keeps records and files of its name in agreement |
| RecordsAndFiles.RecordsAndFilesAgree | control_station_lite/agent/approvals.py:132-298 | In every honest, untampered, unaliased run each state has exactly the files, with the digests, that its record promises |
| RecordsAndFiles.ApprovedScriptRunsUnlessShadowed | control_station_lite/agent/script_runner.py:214-245 | In such runs an approved script passes the integrity check unless a file with an earlier extension and another digest shadows it |
| RecordsAndFiles.ExecutedBytesWereStaged | control_station_lite/agent/script_runner.py:214-233 | Without digest collisions every execution runs a text that was staged earlier under that name, even if files are tampered with |
| RecordsAndFiles.ApprovalPublishesOffer | control_station_lite/agent/approvals.py:154-230 | Staging and then approving publishes the offered script, digest and metadata, the same files that automatic approval puts in place |
| RecordsAndFiles.MetadataOverwritesNamesake | control_station_lite/agent/approvals.py:156-157 | Staging a script with metadata overwrites the staged file of the script named like that metadata, whose record does not change |
| RecordsAndFiles.NamesakeLeavesMetadata | control_station_lite/agent/approvals.py:154-157 | Staging a script named like the metadata of any other leaves a file behind for that other, which has no record |
| RecordsAndFiles.AgreementExactlyWhenUnaliased | control_station_lite/agent/approvals.py:154-157 | Records and files agree for two names in every honest, untampered run over them if and only if neither is the metadata path of the other |
| RecordsAndFiles.AliasBreaksAgreement | control_station_lite/agent/approvals.py:154-157 | For every name and policy: staging a namesake and then the script with metadata of another digest breaks the namesake |
| RecordsAndFiles.FileExactlyWhenPublished | control_station_lite/agent/approvals.py:119-298 | In every untampered, unaliased run, whatever the record says and whatever digests are handed in, scripts/ holds a file of the name if and only if a text was approved after the last reject or clear |
| RecordsAndFiles.SupersededUpdateLeavesOldFile | control_station_lite/agent/approvals.py:179-193 | The run stage, approve, stage, stage ends with a plain pending record, the newest text on offer and the first text in scripts/ |
| SharedStore.AlwaysCoherent | control_station_lite/agent/approvals.py:306-349 | When signatures never repeat, a copy with the file's signature always equals the file |
| SharedStore.ReadsAnswerFromFile | control_station_lite/agent/approvals.py:98-113 | After any interleaving of managers, commands, edits and deletions of the file, every read through any manager answers from the file as it is |
| SharedStore.EditsAreSeen | control_station_lite/agent/approvals.py:320-338 | A read right after a hand edit or a deletion of the file answers from what is there, an unreadable or missing file counting as empty |
| SharedStore.UpToDateStep | control_station_lite/agent/approvals.py:320-349 | A step of an up-to-date manager changes the shared file as one single manager would, or not at all |
| SharedStore.ManyRefineOne | control_station_lite/agent/cli/cmd_approvals.py:37-45 | Managers that write only when up to date refine one manager: same file, same directories, same answers, step for step |
| SharedStore.OnlyWhatIsInForceRunsAnywhere | control_station_lite/agent/cli/cmd_approvals.py:37-45 | Owner sovereignty across the agent and all command-line managers together |
| StaleWriters.StepBacked | control_station_lite/agent/approvals.py:119-349 | Every step by an up-to-date manager keeps the file from saying anything that the history does not back |
| StaleWriters.BackedIsSovereign | control_station_lite/agent/script_runner.py:90-98 | From a file that the history backs, only what is in force runs, whatever orderly steps follow |
| StaleWriters.SovereignExactlyWhenBacked | control_station_lite/agent/approvals.py:306-349 | Only what is in force will ever run, over all orderly continuations, if and only if every approval and offer in the file that some text has is backed by the history |
| StaleWriters.WriteIsHarmlessExactlyWhenBacked | control_station_lite/agent/approvals.py:119-270 | A saving write through a copy of any age is harmless over everything orderly that can follow if and only if the history backs the records of the copy that it saves |
| StaleWriters.UpToDateCopyIsBacked | control_station_lite/agent/approvals.py:320-328 | A copy with the signature of a backed file always qualifies |
| StaleWriters.OrderlyRunsAreSovereign | control_station_lite/agent/cli/cmd_approvals.py:37-45 | From an empty installation, with every writer up to date, only what is in force ever runs, deletions of the file included |
| StaleWriters.ClearedScriptRuns | control_station_lite/agent/approvals.py:258-270 | A concrete run, whether or not the agent reads once more before the owner's command: a script is cleared, the agent's next staging of another script writes the old approval back, and the cleared script executes |
| Purge.PurgeOrphans | control_station_lite/agent/cli/cmd_approvals.py:166-208 | The loop over the snapshot clears, in order, what is an orphan at its turn; a dry run changes nothing; the counters add up |
| Purge.PurgeRemovesExactlyOrphans | control_station_lite/agent/cli/cmd_approvals.py:178-202 | Unless an orphan's metadata path is a file that another record needs and has, the purge removes exactly the orphaned records and their paths in any order, and a second purge finds none |
| Purge.PurgeIsExactExactlyWhenSeparate | control_station_lite/agent/cli/cmd_approvals.py:178-202 | That condition is necessary, too: where it fails, some order leaves a new orphan behind |
| Purge.PurgeMakesNewOrphan | control_station_lite/agent/cli/cmd_approvals.py:178-202 | With an aliased name the result depends on the order and can leave a new orphan |
| Purge.OrphanMeans | control_station_lite/agent/cli/cmd_approvals.py:178-194 | An entry counts as an orphan if and only if approving it would be refused for want of its file, or running it for want of a file under its own name |
| ScriptSync.StateCache.Upsert | control_station_lite/server/core/script_sync.py:100-135 | The new state is stored next to the digests the agent had before staging |
| ScriptSync.StateCache.SyncScript | control_station_lite/server/core/script_sync.py:52-97 | The two requests on a live agent and cache, with any commands of the owner between them and either answer lost, do what the specification says |
| ScriptSync.StageAfterCommands | control_station_lite/agent/approvals.py:131-198 | The agent stages on the copy it read before the owner's commands, and that copy becomes the file |
| ScriptSync.SyncContract | control_station_lite/server/core/script_sync.py:75-97 | Whatever the owner does between the two requests: never the agent's refusal, never approved_stale; an answer exactly when the requests were answered; approved exactly when the canonical digest is approved; the cached state is the agent's; staging at most once and exactly when due; cached digests lag exactly then |
| ScriptSync.StagingForgetsCommands | control_station_lite/agent/approvals.py:131-198 | After a staging the records are those of an undisturbed synchronisation: what the owner did since the reading is gone from them |
| ScriptSync.StagingDelivers | control_station_lite/server/core/script_sync.py:88-95 | A staging brings the canonical text, digest and metadata to the agent, live under automatic approval and else on offer, and leaves the other files as the commands in between left them |
| ScriptSync.SecondSyncSettlesCache | control_station_lite/server/core/script_sync.py:75-97 | After any answered synchronisation an undisturbed second one changes nothing on the agent and makes the cached digests match |
| ScriptSync.ReachableIsSettled | control_station_lite/agent/approvals.py:132-270 | Every reachable agent state meets the hypothesis of the contract |
| ScriptSync.ReachableOffersComplete | control_station_lite/agent/approvals.py:150-198 | Every untampered reachable offer has a file and a digest |
| ScriptSync.RoundApproaches | control_station_lite/server/core/script_sync.py:75-97 | A round of synchronising and approving lowers the distance to the canonical version by one, or changes nothing at distance zero |
| ScriptSync.Converges | control_station_lite/server/core/script_sync.py:40-97 | Two rounds reach the approved canonical version from every such state if and only if it is not rejected; further rounds change nothing |
| ScriptSync.OneRoundSuffices | control_station_lite/server/core/script_sync.py:48-49 | One round is enough exactly when no outdated version is queued |
| ScriptRegistry.Registry.Create | control_station_lite/server/core/script_registry.py:65-91 | A new row carries the digest of its content; duplicates and bad metadata change nothing |
| ScriptRegistry.Registry.Update | control_station_lite/server/core/script_registry.py:111-132 | An update keeps digest and content together; errors change nothing |
| ScriptRegistry.Registry.Delete | control_station_lite/server/core/script_registry.py:135-142 | Deletes the script and its cached states on every machine, and no other row |
| JobSubmission.HandleSubmit | control_station_lite/agent/main.py:192-252 | The agent's handler on a live manager decides on one consistent state of the installation |
| JobSubmission.AskAgent | control_station_lite/server/api/jobs.py:182-211 | The call with its answer delivered or lost, the error mapping of both endpoints and the re-synchronisation after a conflict |
| JobSubmission.SubmitJob | control_station_lite/server/api/jobs.py:142-241 | The handler over live cache, agent and owner's commands, with commands inside and between its requests and any answer lost, equals its specification, cache row included |
| JobSubmission.AgentStartsWhatWasAskedFor | control_station_lite/agent/main.py:199-211 | What starts has the expected digest |
| JobSubmission.AgentStartsWhatIsApproved | control_station_lite/agent/script_runner.py:214-233 | What starts has the approved digest, asked for or not |
| JobSubmission.EndToEnd | control_station_lite/server/api/jobs.py:166-241 | For every agent state, file contents, owner's commands and lost answers: what ran has the digest of the canonical content, and a job row exists if and only if something ran and its answer arrived |
| JobSubmission.EndToEndContent | control_station_lite/server/api/jobs.py:166-241 | Without digest collisions it is the canonical content itself |
| JobSubmission.EndToEndFromRegistry | control_station_lite/server/core/script_registry.py:81-89 | The registry's row invariant is what the end-to-end result needs |
| JobSubmission.WebEndToEnd | control_station_lite/server/web/machines.py:276-313 | What the web page runs is canonical if and only if the agent's approved digest at the request is the script's |
| JobSubmission.LostAnswerLeavesNoRow | control_station_lite/server/core/agent_client.py:118-122 | For every submission that would add a row: if its answer is lost, the script runs just the same and there is no row |
| JobSubmission.EarlyResponses | control_station_lite/server/api/jobs.py:166-181 | A submission that does not find the script approved reports the state and asks for nothing; one whose answers are lost is a server error |
| JobSubmission.ApiResponses | control_station_lite/server/api/jobs.py:191-211 | The responses of the JSON endpoint, by what the agent holds at the request: validation error if and only if the version is current and the parameters are bad; a job if and only if it is current, they are good and the file has its digest; a second synchronisation if and only if the version or the file is another; never an agent error |
| JobSubmission.ConflictTellsState | control_station_lite/server/api/jobs.py:197-203 | After that synchronisation the submitter is told, and the station has cached, the state the agent is in |
| JobSubmission.WebResponses | control_station_lite/server/web/machines.py:276-298 | The responses of the web page in the same terms; it never synchronises again |
| JobSubmission.UndisturbedSubmission | control_station_lite/server/api/jobs.py:166-190 | With nobody in between, a row appears exactly when parameters are valid, the first candidate file has the canonical digest and the answer arrives |
| JobSubmission.UntranslatedRefusal | control_station_lite/agent/main.py:213-217 | The agent answers 403 to the station's request exactly when the requested version is approved and an update is on offer |
| JobSubmission.RefusalIsReached | control_station_lite/agent/approvals.py:179-185 | A run that gets there: stage, approve, and stage an update |
| JobSubmission.OnlyUpdatesKeepAnOldDigest | control_station_lite/agent/approvals.py:164-193 | In every reachable state an approved digest is on record only in approved and update_pending |
| Deployment.ExchangeIsSync | control_station_lite/server/core/script_sync.py:75-97 | Cut into two requests with nothing in between, a synchronisation is what it was in one |
| Deployment.UninterruptedIsSubmit | control_station_lite/server/api/jobs.py:166-241 | A submission whose requests nothing interrupts ends like the handler, on the same agent |
| Deployment.ClickIsSubmit | control_station_lite/server/api/jobs.py:142-241 | The same from the request on: the submission is about the script published then, for that endpoint and those parameters |
| Deployment.EditsReachTheNext | control_station_lite/server/core/script_registry.py:65-142 | What was published last is what the next submission is about; what was unpublished cannot be submitted |
| Deployment.AfterLooking | control_station_lite/server/core/script_sync.py:75-97 | From reading the state a submission goes on to staging, to asking or to its end, by that state alone |
| Deployment.AfterPushing | control_station_lite/agent/main.py:178-189 | A staging that meets a rejection made after the reading is a server error; any other ends in the state the agent then holds |
| Deployment.ToldMeansRecorded | control_station_lite/server/api/jobs.py:211-241 | In every run, whoever is told of a row for a script has one, unless it is still being committed |
| Deployment.LogHoldsStarts | control_station_lite/agent/main.py:192-252 | The agent's log of executions is what the submissions' requests started, in order |
| Deployment.EveryExecutionIsAccountedFor | control_station_lite/server/api/jobs.py:191-241 | Conservation: for every interleaving of submissions of both endpoints, commands, restarts and tampering, each execution of the agent is on exactly one row, waits for its row to be committed, or was lost, and every row stands for one |
| Deployment.JobsTableIsCompleteExactlyWhenNothingIsLost | control_station_lite/server/api/jobs.py:211-241 | The rows are all the executions if and only if no answer to a started job was lost, no commit failed and none is outstanding |
| Deployment.RowsAreInOrder | control_station_lite/server/api/jobs.py:211-241 | When rows are committed in the order of the answers, they are in the order of the executions |
| Deployment.LostAnswerIsMissing | control_station_lite/server/core/agent_client.py:118-122 | After a job that starts and whose answer does not arrive, whatever follows, the table has fewer rows than there were executions |
| Deployment.AnAnswerIsLost | control_station_lite/server/core/agent_client.py:118-122 | From nothing: an agent starts, a script is published and submitted, it runs, its answer is lost, and no row ever says so |
| Deployment.ApiRowsAreCanonical | control_station_lite/server/api/jobs.py:182-190 | In every run, whatever is stale, lost or edited by hand, a row of the JSON endpoint stands for bytes with the digest of the content its submission read |
| Deployment.WebStartIsCanonicalExactlyWhen | control_station_lite/server/web/machines.py:286-293 | What the web page starts is canonical if and only if the agent then holds that script's digest as approved |
| Deployment.WebRowOfAnotherText | control_station_lite/server/web/machines.py:276-313 | From every such state, republishing and resubmitting in between makes the web page's row stand for another text |
| Deployment.AnotherTextIsRecorded | control_station_lite/server/web/machines.py:276-313 | From nothing: a run that ends with one row, of the web page, whose script is the first text and whose execution was the second |
| Deployment.AlwaysInOrder | control_station_lite/server/core/script_sync.py:75-97 | While nobody saves between a reading and its staging, the file stays backed by the history through any interleaving of submissions |
| Deployment.EveryRowWasInForce | control_station_lite/server/api/jobs.py:142-241 | In every such run each row, of either endpoint, and each answer without its row yet, stands for an execution whose digest was in force by the owner's decisions when it started |
| Deployment.StagingIsHarmlessExactlyWhenBacked | control_station_lite/agent/approvals.py:131-198 | A disturbed staging is harmless over everything orderly that follows if and only if the history backs the copy the agent read |
| Deployment.RestagingIsHarmlessExactlyWhenBacked | control_station_lite/server/web/machines.py:529-577 | The same for the web page's re-stage, which stages without having asked for the state |
| LogStream.LastLinesAtOffset | control_station_lite/agent/log_stream.py:33-47 | From the specified offset one reads exactly the last lines of the file |
| LogStream.OffsetUnique | control_station_lite/agent/log_stream.py:33-47 | There is only one such offset |
| LogStream.LinesBySeparators | control_station_lite/agent/log_stream.py:40-43 | Counting separators without the trailing newline counts lines |
| LogStream.TailStartOffset | control_station_lite/agent/log_stream.py:33-73 | The chunked backward scan, for every file, count and chunk size, returns the line boundary from which min(N, all) lines remain |
| LogStream.ScanTwice | control_station_lite/agent/log_stream.py:30-73 | The result does not depend on the chunk size |
| LogStream.ReadLine | control_station_lite/agent/log_stream.py:114-116 | Returns nothing exactly at the end of the file, else one line or its beginning |
| LogStream.TailLog | control_station_lite/agent/log_stream.py:76-128 | Against any writer: the chunks read concatenate to the final file from the start offset, each byte once and in order; with whole-line appends they are the wanted history followed by every later line |
| LogStream.Follow | control_station_lite/agent/log_stream.py:113-128 | The loop ends after the job is done with everything read |
| LogStream.HistoryThenLive | control_station_lite/agent/log_stream.py:104-111 | The lines from the start offset are the wanted part of the history and then all later lines |
| Text.SplitUnlines | control_station_lite/agent/cli/cmd_init.py:200-205 | `splitlines` undoes joining break-free lines with newlines |
| Text.SplitsAtFirstBreak | control_station_lite/agent/cli/cmd_init.py:200-200 | `splitlines` for every text: a line ends at the first break, carriage return and newline together being one |
| Text.LinesHaveNoBreaks | control_station_lite/agent/cli/cmd_init.py:200-200 | No line `splitlines` returns contains a line break |
| ServerSentEvents.ReadStream | control_station_lite/server/core/agent_client.py:252-264 | The parser's loop yields the stripped payloads of the data lines in order |
| ServerSentEvents.EventFaithful | control_station_lite/agent/log_stream.py:144-147 | One event carries exactly its stripped line if and only if the line has no break before its last visible character |
| ServerSentEvents.ParserUndoesPrinter | control_station_lite/server/core/agent_client.py:260-264 | Parsing the printed stream yields every line stripped, in order, and one empty string for the done event, if and only if all lines are faithful |
| ServerSentEvents.SecondHopIsExact | control_station_lite/server/api/jobs.py:285-295 | Printing and parsing again what was parsed once loses nothing |
| LogToClient.StreamJobLog | control_station_lite/agent/log_stream.py:76-148 | From log file to client: the wanted history and every later line arrive stripped, in order, then one empty string, if and only if no decoded line has a break before its last visible character |
| ProcessManager.Manager.SaveState | control_station_lite/agent/process_manager.py:234-251 | running.json holds exactly the running records |
| ProcessManager.Manager.Start | control_station_lite/agent/process_manager.py:150-172 | The new job is tracked and on disk |
| ProcessManager.Manager.GetStatus | control_station_lite/agent/process_manager.py:200-208 | Answers the polled record and polls no other job |
| ProcessManager.Manager.RunningCount | control_station_lite/agent/process_manager.py:218-224 | Counts exactly the running records after polling all of them |
| ProcessManager.Manager.CountRunning | control_station_lite/agent/process_manager.py:224-224 | The counting loop counts running records, each once |
| ProcessManager.Manager.Kill | control_station_lite/agent/process_manager.py:174-198 | Kills a running job, records how it ended and saves; an ended job is only polled |
| ProcessManager.Manager.RestoreState | control_station_lite/agent/process_manager.py:253-299 | Reattaches the saved jobs whose processes are alive, whatever the order |
| ProcessManager.StartKeepsRecoverable | control_station_lite/agent/process_manager.py:158-172 | Starting keeps the recovery invariant |
| ProcessManager.KillKeepsRecoverable | control_station_lite/agent/process_manager.py:186-198 | Killing keeps it |
| ProcessManager.AlwaysRecoverable | control_station_lite/agent/process_manager.py:152-299 | The invariant holds in every run with any number of crashes |
| ProcessManager.RunningJobsAreOnDisk | control_station_lite/agent/state.py:39-50 | At every moment of every run running.json holds every job whose process is alive, as it was started |
| ProcessManager.RecoveryIsExact | control_station_lite/agent/process_manager.py:253-299 | After a crash the restored table holds exactly the jobs still alive, with script, pid, log and start time |
| ProcessManager.RecordsConsistent | control_station_lite/agent/process_manager.py:426-432 | Running means no end time; completed means exit code zero; failed means a non-zero one |
| ProcessManager.TerminalIsFinal | control_station_lite/agent/process_manager.py:186-224 | While the agent is up no job is forgotten and a terminal record never changes |
| ProcessManager.NeverReopened | control_station_lite/agent/process_manager.py:253-299 | Across crashes, too, a job that left running is never listed as running again |
| ProcessManager.CountIsAlive | control_station_lite/agent/process_manager.py:218-224 | After counting, the running records are exactly the started jobs whose processes are alive |
| ProcessManager.StartStarts | control_station_lite/agent/process_manager.py:111-171 | A started job has a live process, a running record of a child and an entry in running.json; all else is as it was |
| ProcessManager.KillKills | control_station_lite/agent/process_manager.py:173-201 | In every run, killing a job whose process is alive ends that process and no other, records the kill with its time and the code a child reports (-1 for a reattached process), and takes the job out of running.json |
| ProcessManager.KillOfTheDead | control_station_lite/agent/process_manager.py:191-193 | Killing a job whose process has ended, or an unknown one, does what asking for its status does |
| ProcessManager.AskingTells | control_station_lite/agent/process_manager.py:426-432 | Asking for one job or for all updates exactly the running records asked about whose process is gone |
| ProcessManager.EndedJobIsReported | control_station_lite/agent/process_manager.py:426-432 | A job that ends by itself is reported with its exit code, completed if and only if that is zero |
| ProcessManager.ExitCodesAreTrue | control_station_lite/agent/process_manager.py:59-90 | In every run a record that has left running belongs to a process that has ended, and carries its true code if the agent that runs now started it, else -1 |
| Reconciler.JobTable.PollJob | control_station_lite/server/core/job_reconciler.py:69-92 | One answer changes one row: terminal answers are copied, client errors ignored, other errors set only the status |
| Reconciler.JobTable.ReconcileMachine | control_station_lite/server/core/job_reconciler.py:63-94 | The inner loop treats each snapshot job of its machine once, in any order, and no other row |
| Reconciler.JobTable.ReconcileOnce | control_station_lite/server/core/job_reconciler.py:40-94 | For any machine order the pass equals the row-by-row map |
| Reconciler.SecondPassChangesNothing | control_station_lite/server/core/job_reconciler.py:40-94 | A second pass with the same answers changes nothing |
| Reconciler.TerminalRowsNeverChange | control_station_lite/server/core/job_reconciler.py:42-44 | Over any sequence of passes no row appears, disappears or moves, and terminal rows never change |
| Reconciler.PassTakesAnswers | control_station_lite/server/core/job_reconciler.py:40-94 | A pass leaves every row alone that is not active or whose machine is not known and reachable; others take over a terminal answer whole, are only marked failed by an error, and else stay |
| Reconciler.UnreachedRowsStay | control_station_lite/server/core/job_reconciler.py:63-94 | Over any number of passes the rows of a machine that none of them reaches stay as they are |
| Reconciler.DocumentedExactlyWhenAnswered | control_station_lite/server/core/job_reconciler.py:18-19 | The code does what its documentation says if and only if the agent answers properly or with 404 |
| Reconciler.DocumentedExactlyWhenAgentAnswers | control_station_lite/server/core/job_reconciler.py:18-19 | For a job of an agent, that is if and only if the agent is up and its answer comes in time |
| Reconciler.ActiveExactlyWhenAliveAndAnswered | control_station_lite/server/core/job_reconciler.py:67-92 | After a pass the row of a started job is active, and as it was, if and only if its process is alive, the agent is up and its answer came in time |
| Reconciler.ClosedRowTellsRecord | control_station_lite/server/core/job_reconciler.py:71-92 | A row that is closed equals the agent's final record if the agent answered and has one, and is otherwise only marked failed; if the agent answered, the process is dead |
| Reconciler.LiveJobIsWrittenOff | control_station_lite/server/core/job_reconciler.py:80-92 | A live job polled while its agent is down, or whose answer is lost, stays failed in all later passes although the agent, once up, lists it as running |
| Reconciler.BusyAgentLosesJob | control_station_lite/agent/main.py:192-252 | The input: a job just started by an agent that is up; with an answer its row stays, without one it is failed |
| IdleShutdown.IdleTracker.Dispatch | control_station_lite/agent/main.py:117-148 | A request resets the idle clock exactly when authentication passes |
| IdleShutdown.IdleTracker.Rest | control_station_lite/agent/lifecycle.py:65-68 | What arrives during a sleep moves the clock and the jobs in order |
| IdleShutdown.IdleTracker.RunLoop | control_station_lite/agent/lifecycle.py:84-123 | However long the sleeps last, the loop stops at the first wake-up that is due, or at none |
| IdleShutdown.DueExactlyWhenIdle | control_station_lite/agent/lifecycle.py:76-82 | The condition holds exactly when every job has ended after it was last started and every accepted request is older than the timeout |
| IdleShutdown.AcceptedExactly | control_station_lite/agent/main.py:128-141 | A request is accepted if and only if the agent has no token or the header is `Bearer` with exactly that token |
| IdleShutdown.RaisedAtFirstIdle | control_station_lite/agent/lifecycle.py:107-123 | SIGTERM is raised at a wake-up if and only if it is the first idle one, hence once |
| IdleShutdown.ShutdownIsSafe | control_station_lite/agent/lifecycle.py:107-123 | In every run, whatever the sleeps last, SIGTERM is raised only then |
| IdleShutdown.ShutdownIsPrompt | control_station_lite/agent/lifecycle.py:107-123 | Once all jobs have ended and nobody is heard any more, it is raised within the longest sleep of the moment when both have lasted long enough; with exact sleeps that is the check interval |
| RefreshTokens.TokenStore.Login | control_station_lite/server/api/auth.py:133-171 | A refused login changes nothing; a granted one adds one token |
| RefreshTokens.TokenStore.CheckRefresh | control_station_lite/server/api/auth.py:180-203 | The checks in the order of the code; nothing is written |
| RefreshTokens.TokenStore.RotateToken | control_station_lite/server/api/auth.py:205-210 | Revokes the checked token, whatever has happened to it since, and issues a new one |
| RefreshTokens.TokenStore.Refresh | control_station_lite/server/api/auth.py:174-212 | A refresh that nothing interrupts is a check and a rotation, or a refused check |
| RefreshTokens.TokenStore.Logout | control_station_lite/server/api/auth.py:215-238 | Revokes the presented token if there is one |
| RefreshTokens.TableFollowsLog | control_station_lite/server/api/auth.py:83-105 | In every run the unrevoked rows are exactly the tokens issued and not spent since |
| RefreshTokens.GrantedExactly | control_station_lite/server/api/auth.py:108-203 | Every answer of a refresh, by the log: revoked if and only if its token is not issued and unspent, expired if it was issued more than fourteen days ago, invalid for a malformed cookie or a user who is not enabled, and else accepted |
| RefreshTokens.NewTokenIsGood | control_station_lite/server/api/auth.py:83-95 | A token just issued belongs to the asking user and is granted exactly to enabled users for fourteen days |
| RefreshTokens.SpentTokenIsRefused | control_station_lite/server/api/auth.py:108-118 | After a rotation or a logout no refresh with the token passes its checks any more |
| RefreshTokens.RevokedForever | control_station_lite/server/api/auth.py:98-105 | Rows never disappear, change user or expiry, or lose their revocation |
| RefreshTokens.TokensExactlyForPasswords | control_station_lite/server/api/auth.py:139-166 | In every run with signed cookies, a user has a token if and only if that user, enabled, logged in with the password |
| RefreshTokens.NothingWithoutPassword | control_station_lite/server/api/auth.py:139-156 | Whatever cookies are presented, until somebody logs in with a password there is no token at all |
| RefreshTokens.EveryStaleRotationAddsOne | control_station_lite/server/api/auth.py:98-105 | The number of live tokens is the number of logins minus the logouts that presented a live one, plus one for every rotation of a token spent after its check |
| RefreshTokens.AcceptedOnceExactlyWhenNoneStale | control_station_lite/server/api/auth.py:193-210 | In every run each token is rotated at most once and never after a logout if and only if no rotation comes too late, and if and only if tokens are conserved |
| RefreshTokens.AcceptedOnceExactlyWhenApart | control_station_lite/server/api/auth.py:193-210 | When every checked refresh is carried through, both hold if and only if no token is checked again or logged out between a check and its rotation |
| RefreshTokens.RotationConservesTokens | control_station_lite/server/api/auth.py:205-212 | Keeping requests with one token apart is enough for both, even where some are given up |
| RefreshTokens.OneCookieTwice | control_station_lite/server/api/auth.py:193-210 | The run: two overlapping refreshes with one cookie both pass, and one login ends with two live tokens |
| AuthorizedKeys.Mentions | control_station_lite/agent/cli/cmd_init.py:201-201 | The substring search finds the key body exactly when it occurs |
| AuthorizedKeys.AppendAuthorizedKeys | control_station_lite/agent/cli/cmd_init.py:165-220 | The loop rewrites the file to the other lines and the new entry, and reports an upgrade exactly when some line mentioned the key |
| AuthorizedKeys.EntryTellsPort | control_station_lite/agent/cli/cmd_init.py:151-162 | Entries for different ports differ |
| AuthorizedKeys.DecimalReadsBack | control_station_lite/agent/cli/cmd_init.py:158-161 | The port as written reads as itself, with no more digits than it takes |
| AuthorizedKeys.EntryIs | control_station_lite/agent/cli/cmd_init.py:151-162 | The options of the entry and the port in any such writing |
| AuthorizedKeys.OneEntryAfterInits | control_station_lite/agent/cli/cmd_init.py:200-205 | After any sequence of inits exactly one line mentions the key, it is last and carries the latest port, and all other lines survive in order |
| AuthorizedKeys.RerunIsIdentity | control_station_lite/agent/cli/cmd_init.py:175-179 | Running init again with the same arguments leaves the text identical |
| StripUnknowns.ValidateStrippingUnknowns | control_station_lite/shared/_validation.py:25-60 | For any reported order, the answer is the value without undeclared fields, or the error exactly when some other error was reported; the input object is left as it was |
| Trees.DeleteAtPath | control_station_lite/shared/_validation.py:63-69 | On a tree of live objects, removes in place exactly the addressed field, touches nothing beside it, and fails without a change exactly when the walk fails, texts included |
| Trees.FailsExactlyWhenWalkFails | control_station_lite/shared/_validation.py:63-67 | A deletion fails if and only if nothing stands where the walk to the last part leads |
| Trees.DeletesOnlyThere | control_station_lite/shared/_validation.py:63-69 | It takes away a field of a dictionary with all below it, and leaves everything else where it stood |
| StripUnknowns.DeleteExtendsCut | control_station_lite/shared/_validation.py:63-69 | Deleting a reported path after any others never fails on the way and removes that path only |
| StripUnknowns.UnknownsAreApart | control_station_lite/shared/_validation.py:57-59 | No reported path lies inside another, so the order of deletion cannot matter |
| StripUnknowns.CutUnknownsIsStrip | control_station_lite/shared/_validation.py:54-59 | Removing all reported paths leaves exactly the declared fields, at every depth |
| StripUnknowns.StrippedHasNoUnknowns | control_station_lite/shared/_validation.py:37-38 | No undeclared key is left anywhere |
| StripUnknowns.StripKeepsRealErrors | control_station_lite/shared/_validation.py:51-60 | The second validation reports another error exactly when the first did |
| StripUnknowns.PlaceOfError | control_station_lite/shared/_validation.py:41-52 | Every other error is a refused value, a wrong kind or a missing required field at some declared path |
| StripUnknowns.PlacedErrorIsReal | control_station_lite/shared/_validation.py:41-52 | And every such place is an error |
| StripUnknowns.DeclaredIsKept | control_station_lite/shared/_validation.py:37-38 | Every declared position is present as before, and its leaf value is unchanged |

## Left out

- SSH, tunnels, the connection pool, HTTP routing, databases and sessions: a call to an agent is one
  step with an answer or a classified error, and a table is a map.
- Digests, signatures and tokens' cryptography: MD5 and the token hash are arbitrary functions; where
  a result is about contents, the absence of collisions is a hypothesis of that lemma.
- Parameter validation, environment and command construction: one boolean, since they do not touch
  approval or digests.
- Windows: process groups, access-control lists, and `taskkill`, whose timeout can mark a live process
  killed. The extension list is a parameter, so the gate covers both platforms.
- Time stamps of approvals, audit records and log messages.
- Atomicity: one request to the agent, one command and one restart are one step each. A crash between
  starting a process and saving the table, a file changed between hashing and executing, and a log that
  grows during the backward scan are not modelled. In `Deployment.dfy` anything may happen between any
  two requests, and between an answer and the commit of its row; in `JobSubmission.SubmitJob` the owner's
  commands run inside each synchronisation and before the job is asked for, and the commit does not fail. In
  `RefreshTokens.dfy` the check and the rotation of a refresh are two steps, a login and a logout one each.
- `os.stat` signatures: that a rewritten file never gets an earlier signature back is a hypothesis
  (`SharedStore.Enabled`).
- The details of UTF-8 decoding and the incremental line splitting of the HTTP client: decoding is an
  arbitrary function of one chunk, and the client splits the stream when it is complete.
- LogStream.TailLog: the writer's bursts are a finite list given in advance, so the job eventually ends.
- ProcessManager.RecoveryIsExact: pids and job ids are not reused (`ProcessManager.Fresh`).
- ProcessManager.Manager.Kill: records are values in a map, and the grace period with its escalation to
  SIGKILL is one step after which the process has ended with some code.
- Reconciler.JobTable.ReconcileOnce: rows do not change between the snapshot and the writes; the races
  with the job endpoints are outside the model.
- IdleShutdown.IdleTracker.ShutdownDue: the clock is read once per wake-up, where the loop reads it
  again for its log message; tokens with characters outside ASCII, which the comparison refuses with an
  error, count as different tokens.
- RefreshTokens.TokenStore.Refresh: rows are keyed by token hash; that hashes of issued tokens do not
  repeat is a hypothesis (`RefreshTokens.Fresh`), as is, where a result says so, that a signed cookie names
  the user of its row (`RefreshTokens.CookiesHonest`). A rotation commits as one step, and the database's
  isolation of overlapping transactions is not part of this model. The web pages' own login and logout are the same
  steps and have no model of their own.
- AuthorizedKeys.RerunIsIdentity: that the public key line is one line that contains its own body
  (`AuthorizedKeys.Key.Valid`) is what OpenSSH's format guarantees; that the path of the executable
  contains no line break (`Text.NoBreak`) is a hypothesis, here and in `OneEntryAfterInits`.
- StripUnknowns.ValidateStrippingUnknowns: the copy that `copy.deepcopy` makes and the list of errors
  that the validator reports are parameters with their contracts as hypotheses; the input is a tree,
  so sharing between its parts (YAML aliases) is not captured. Optional and union field types and
  model-level validators are left out.
- Trees.DeleteAtPath: the walk is a recursion where the program reassigns a cursor.
- Deployment.RestagingIsHarmlessExactlyWhenBacked: the reading that follows the re-stage, and its cache row,
  are left to the other readings of the agent.
- Deployment.EveryRowWasInForce: that a command's manager has read the file since it was last saved is a
  hypothesis, as is that nobody edits or deletes approvals.json by hand; one machine with one agent.
- Purge.PurgeOrphans: the order in which records are listed is a parameter.
- ScriptSync.ReachableOffersComplete: files are changed by the operations only.
- Web pages, templates, machine management, service installers, migrations, bundles.
