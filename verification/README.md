# Roxy-WI: proofs about five of its mechanisms

Roxy-WI manages HAProxy, nginx, Apache and Keepalived hosts. This project models the parts of it
in which several durable states must stay in agreement under failure, and two of its text
transformations, and proves what they promise.

* **Certificates** (`Pems`, `CrtList`, `CertificateUpdate`, `CertificateCreate`). A PEM file and the
  certificate in the running HAProxy change together through a journal that survives a killed
  worker. The classes `Host` perform the program's own effects; every call can fail, can fail after
  it took effect, and can be the last before the worker dies. `DeployPoint`, `RollbackPoint`,
  `CreatePoint` and `UndoPoint` name the states that a deployment and a rollback pass through. Each
  method promises to stop at one of these, and the theorems about all histories are proved over
  them. A digest stands for the contents it is taken of; the fingerprint of a PEM is its first
  certificate, so two PEM files with the same fingerprint can differ.
* **Configuration transaction** (`ConfigTransaction`). Staging, validation, compare-and-replace,
  the service action, recovery and cleanup, with validators and actions that raise at will and an
  outside writer that can change the file between any two steps.
* **Log cursor** (`LogLines`, `LogCursor`, `LogFollower`, `LogDrain`). A stateless, bounded
  reader over appends and rename rotations, against the sequence of complete short lines. Every poll
  may list any files: a rotation during the scan of the directory, the cap on its entries and the cap on files can leave
  one out that a later poll lists again.
* **Change Center** (`RolloutPlan`, `RolloutState`, `Rollout`, `Operations`). `Rollout.Worker` has
  every command of the rollout, one worker and a user who requests and withdraws pauses between any
  two steps; calls fail with or without effect, and the worker dies anywhere. `Operations.Center`
  is the protocol of durable tasks, process lock and started marker, with any number of workers and
  deliveries, as atomic steps that interleave freely. `Rollout` assumes that one command of a change
  runs at a time. That is what the protocol is for, and it holds if every command is enqueued, as
  the web interface does; `Operations` says what is left if the REST API calls handlers directly.
* **Text** (`TextLines`, `Sections`, `WafPattern`, `WafDirectives`, `WafWizard`). The lossless
  HAProxy section parser and its editor, and the compiler from WAF forms to the lines of rule
  chains. The lines are read back by a small engine: quoted arguments, actions, chains, phases and
  the regular expressions that the compiler emits. A quoted argument ends at the first quote that no
  backslash escapes, and a backslash escapes a quote or another backslash only.

`Outcomes` tells how a modelled call can end; `Bytes` and `Contents` are shared types. Methods and
classes follow code that works step by step; functions follow code that is made of expressions.

Where calls can fail, constants of the classes say when they do not: `reliable`, never; `recovers`,
not during a rollback; `around`, the surroundings of a transaction. Contracts that name them say that
the program succeeds whenever it should, next to those that say what it keeps however it ends.

## What was found

* A certificate commit checks HAProxy by fingerprint only. `CertificateUpdate.CommitFaithfulIff`
  proves for which starts it is certain that the journal goes only with HAProxy serving the new PEM:
  exactly those where the first certificate changes, or nothing changes at all.
* The action `test` fails for a file that does not exist yet, for the services that validate only
  after installing: there is no backup to put back, and a valid file is answered with a failed
  validation. If nothing gets in the way, this is the only acceptable request that fails
  (`ConfigTransaction.Transaction.Execute`, both directions).
* Rotated log files that end within a line starve the files behind them: such a line is read again at
  every poll, and four of 64 KiB use up all that a poll reads. Every poll then asks for another one and
  hands out nothing of the active file, whatever is written to it (`LogDrain.FourStarve`). A poll gets no
  further and asks for another if and only if the files are in such a state (`LogCursor.ReadLog`); it
  lasts (`LogDrain.StarvedStays`), and three files are never in it (`LogDrain.FewNeverStarved`).
* A log file that one listing leaves out, as a rotation between reading the directory and looking at
  its entries causes, loses its position; when it is listed again, all its lines are handed out a
  second time, or, if its bytes before the active file's position are that file's, it is read on from
  there, whatever was or was not read before. This is reported exactly if the file left out was
  active or not read to its end, so not for a drained one (`LogFollower.RotationRepeats` has the
  input, `LogFollower.LeftOutRestarts` all inputs). Everything that was ever handed out of a file is its complete short lines once and in
  order, if and only if no poll opened the file elsewhere than where it was left, without a position
  in the cursor, after something of it was handed out (`LogFollower.Follower.Follow`); a file that no
  poll missed is never read anew (`LogFollower.OnlyMissedRestart`). What is still to come of a
  file that is not listed any more is never delivered.
* A pause request can be claimed by neither the worker nor a resume: the status that closes a batch,
  a rollout or the retry of one node overwrites it. Exactly when: a request is pending in the row that
  a promotion, the closing status of a rollout (`Rollout.Worker.Roll`; `Rollout.PauseDropped` has the
  input) or that of a retry (`Rollout.Worker.Retry`; `Rollout.PauseDroppedByRetry`) is written over.
  Over all runs every request is answered if and only if this never happens, and no other command
  drops one (`Rollout.Worker.Run`). The one written over by a promotion was made after the worker's
  last look; without promotions, or if the rollout stops for a claim, a rollout drops none before its
  closing status (`Rollout.Worker.DeployRollout`).
* A request between a look at the status and the start of a batch lets one batch start
  (`Rollout.OneBatchStarts`), and never more (`Rollout.Worker.Run`). One during the last batch never stops
  the rollout (`Rollout.Worker.DeployRollout`).
* A pause that is withdrawn just before the worker claims it and requested again just after makes
  the claim raise, and the whole rollout is rolled back (`Rollout.PauseAskedAgain`). With calls that
  all succeed, this is the only way in which a claim can raise (`Rollout.Worker.ClaimPause`) and in
  which a rollout can fail (`Rollout.Worker.DeployRollout`).
* The REST API (app/api/routes/change_routes.py:369-384) calls handlers without task, lock or idle
  check. A deployment that begins there is in progress with no active task
  (`Operations.DirectUnowned`). Over all runs, an operation in progress belongs at every moment to a
  started, active task that does not finish right then, if and only if every event is harmless when it happens: a direct call writes a
  status at rest, or one that a started task answers for that is not finishing, and a handler that
  returns leaves nothing in progress (`Operations.Center.Run`). One start per task, one task at a time
  in its handler and an unfinished active task hold all the same.
* If every command is enqueued, recovery on request never finds anything to recover
  (`Operations.Center.RecoverOnRequest`).
* The wizard writes a network list as it is, and the parser of networks keeps the scope of an IPv6
  address, which may be a quote: the line for `::%"` is not read back as the rule that was meant
  (`WafWizard.ScopeBreaksLine`). The lines are read back as the directives that were meant if and
  only if every network list is quotable: without a quote, without two backslashes in a row, and
  without a backslash at the end (`WafWizard.Render`, `WafWizard.TextIff`). No other value can do this.

## Model

| member | source | states |
|---|---|---|
| CertificateUpdate.Host.StageCertificate | app/scripts/certificate_remote.py:567-573 | Staging replaces the open transaction of the path, or fails with or without that effect, and refuses while another path has one |
| CertificateUpdate.Host.CommitCertificate | app/scripts/certificate_remote.py:576-585 | Only a staged certificate with the expected fingerprint becomes active; failing, it may have |
| CertificateUpdate.Host.RestoreBoth | app/scripts/certificate_remote.py:592-617 | Rollback passes only through its named points, in order, and ends at the last exactly from a recoverable state, if none of its calls fails |
| CertificateUpdate.Host.Rollback | app/scripts/certificate_remote.py:592-624 | The whole rollback, receipts and journal included, stops at one of its points; it completes exactly from a recoverable state, if none of its calls fails |
| CertificateUpdate.Host.Commit | app/scripts/certificate_remote.py:592-624 | A commit either changes nothing or removes the journal of a host where disk and runtime agree with it; it succeeds exactly there, if no call fails |
| CertificateUpdate.Host.StageAndWrite | app/scripts/certificate_remote.py:676-684 | Staging and writing advance a deployment by exactly these effects |
| CertificateUpdate.Host.CommitAndRecord | app/scripts/certificate_remote.py:685-694 | Committing, the receipt and the committed mark come in this order, none twice after a retry |
| CertificateUpdate.Host.DeployRuntime | app/scripts/certificate_remote.py:627-703 | A deployment ends at a point of the deployment, or of the rollback begun at one; if no call fails, exactly the accepted and the complete ones succeed; under the journal's guarantee recovery_failed means that a call of the recovery failed |
| CertificateUpdate.Host.FinishDeployment | app/scripts/certificate_remote.py:332-412 | A foreign journal is left alone and refused; without journal it succeeds exactly if the host is as the finished commit or rollback left it; a commit of one's own journal succeeds exactly if disk and HAProxy agree with it, and removes it; a rollback, receipt first, exactly from a recoverable state |
| CertificateUpdate.DeployKeepsProtected | app/scripts/certificate_remote.py:627-703 | At every point of a deployment an existing journal keeps the old bytes, and disk, active and staged are old or new |
| CertificateUpdate.PointRecoverable | app/scripts/certificate_remote.py:671-700 | From every point at which a deployment can turn back, its rollback can succeed |
| CertificateUpdate.RollbackKeepsProtected | app/scripts/certificate_remote.py:592-624 | The same at every point of a rollback, and what is already restored stays so |
| CertificateUpdate.CallKeepsProtected | app/scripts/certificate_remote.py:592-703 | Every call of any transaction, however it ends, keeps that guarantee |
| CertificateUpdate.HistoryProtected | app/scripts/certificate_remote.py:592-703 | In every history of calls, crashes and (without journal) other writers, at every moment, the guarantee holds |
| CertificateUpdate.JournalRemoved | app/scripts/certificate_remote.py:592-703 | A call that leaves no journal has touched nothing, left both resources old, or left both new |
| CertificateUpdate.RollbackRestores | app/scripts/certificate_remote.py:592-617 | From every moment of every history with a journal, a rollback that meets no failure ends with both old and no journal or receipt |
| CertificateUpdate.FinishedAgain | app/scripts/certificate_remote.py:332-382 | A finished rollback or commit is found finished again after a lost answer |
| CertificateUpdate.RetryCompletes | app/scripts/certificate_remote.py:645-694 | However often a deployment was killed before a rollback began, a retry is accepted and ends with both new and the receipt naming the new PEM |
| CertificateUpdate.UnfaithfulAtOnce | app/scripts/certificate_remote.py:671-691 | Serving another PEM with the new leaf, a killed deployment and a commit leave HAProxy without the new PEM |
| CertificateUpdate.UnfaithfulAfterRollback | app/scripts/certificate_remote.py:675-691 | So do a killed rollback, a deployment that adopts its transaction, and a commit |
| CertificateUpdate.CommitFaithfulIff | app/scripts/certificate_remote.py:592-694 | In all runs of a transaction the journal goes only with HAProxy serving the new PEM, if and only if the leaf changes or nothing does |
| CrtList.WithEntryAddsOne | app/scripts/certificate_remote.py:753-757 | The new line adds exactly one certificate, the last, to those that the file names |
| CertificateCreate.Host.NewSlot | app/scripts/certificate_remote.py:899-903 | An unknown path becomes known without a certificate; a known one is refused |
| CertificateCreate.Host.SetListed | app/scripts/certificate_remote.py:913-917 | An entry of the running crt-list appears or goes, or the call fails with or without that |
| CertificateCreate.Host.UndoRuntime | app/scripts/certificate_remote.py:825-844 | The undoing of entry, transaction and certificate passes through its points only |
| CertificateCreate.Host.Undo | app/scripts/certificate_remote.py:820-852 | The rollback of a creation, files and journal included, stops at one of its points and completes exactly from a state that it can undo, if none of its calls fails |
| CertificateCreate.Host.Commit | app/scripts/certificate_remote.py:846-852 | A commit changes nothing or removes the journal of a certificate that is everywhere; it succeeds exactly there, if no call fails |
| CertificateCreate.Host.OpenJournal | app/scripts/certificate_remote.py:760-879 | A journal opens only for a path unknown on disk, in the list and in HAProxy, or is found again by its own transaction |
| CertificateCreate.Host.WriteFiles | app/scripts/certificate_remote.py:880-898 | PEM and crt-list line are written in this order, once, over the recorded contents only |
| CertificateCreate.Host.LoadCertificate | app/scripts/certificate_remote.py:899-912 | The certificate is created, staged and committed, each only if that is still missing |
| CertificateCreate.Host.ListCertificate | app/scripts/certificate_remote.py:913-919 | The running entry and the receipt complete the creation |
| CertificateCreate.Host.DeployCreation | app/scripts/certificate_remote.py:855-928 | A creation ends at a point of the creation, or of the rollback begun at one; if no call fails, exactly the accepted ones succeed; under the journal's guarantee recovery_failed means that a call of the recovery failed |
| CertificateCreate.Host.FinishDeployment | app/scripts/certificate_remote.py:332-412 | A foreign journal is left alone and refused; without journal it succeeds exactly if the host is as the finished commit or rollback left it; a commit of one's own journal succeeds exactly if files and HAProxy agree with it, and removes it; a rollback, receipt first, exactly from a state that it can undo |
| CertificateCreate.CreateKeepsProtected | app/scripts/certificate_remote.py:855-928 | At every point of a creation the file, the list and HAProxy hold only what the journal records, before or after |
| CertificateCreate.PointUndoable | app/scripts/certificate_remote.py:880-925 | From every point at which a creation can turn back, its rollback can succeed |
| CertificateCreate.UndoKeepsProtected | app/scripts/certificate_remote.py:801-852 | So at every point of its rollback, which ends with the certificate nowhere and the list as recorded |
| CertificateCreate.CallKeepsProtected | app/scripts/certificate_remote.py:801-928 | A call leaves a journal with its guarantee, or the certificate nowhere or everywhere, or does nothing |
| CertificateCreate.HistoryProtected | app/scripts/certificate_remote.py:801-928 | In every history, at every moment, an existing journal keeps that guarantee |
| CertificateCreate.RollbackErases | app/scripts/certificate_remote.py:801-852 | From every crash point a rollback ends with the host exactly as before: no PEM, the crt-list byte for byte, nothing in HAProxy |
| CertificateCreate.RollbackAgain | app/scripts/certificate_remote.py:820-852 | A rollback killed at any point and run again reaches the same end |
| CertificateCreate.FinishedAgain | app/scripts/certificate_remote.py:332-382 | A finished rollback or commit is found finished again after a lost answer |
| CertificateCreate.RetryCompletes | app/scripts/certificate_remote.py:855-928 | From every moment with a journal a repeated creation is accepted and ends with the certificate everywhere |
| CertificateCreate.NamedOnce | app/scripts/certificate_remote.py:753-797 | A complete creation leaves the crt-list file naming the path exactly once, behind all that it named; a path that it names already is refused with nothing changed |
| ConfigTransaction.Transaction.Validates | app/modules/config/candidate.py:282-287 | Acceptance is recorded for the staged candidate or, with the other validators, for what is installed |
| ConfigTransaction.Transaction.Install | app/modules/config/candidate.py:225-242 | The target is replaced only while it holds what was expected; nothing else is ever overwritten |
| ConfigTransaction.Transaction.Applies | app/modules/config/candidate.py:305-307 | The service loads what is installed, or raises before or after that |
| ConfigTransaction.Transaction.CheckBaseline | app/modules/config/candidate.py:675-678 | What is installed counts as valid only if the validator accepted it, undisturbed; an invalid baseline stops nothing |
| ConfigTransaction.Transaction.CopyOriginal | app/modules/config/candidate.py:679-685 | The working directory holds a true copy of the original before anything is staged |
| ConfigTransaction.Transaction.Stage | app/modules/config/candidate.py:675-690 | Staging changes nothing but the working directory, has a true backup, and lets HAProxy pass only an accepted candidate |
| ConfigTransaction.Transaction.InstallAndApply | app/modules/config/candidate.py:691-706 | Alone, the target holds the candidate exactly while it counts as installed; the action meets installed candidates only |
| ConfigTransaction.Transaction.CheckInstalled | app/modules/config/candidate.py:695-699 | What is installed was accepted and, writer or not, was looked at last and is the candidate |
| ConfigTransaction.Transaction.Current | app/modules/config/candidate.py:662-673 | Check and apply-only touch no file; what was applied was looked at last and is what the transaction began with |
| ConfigTransaction.Transaction.Recover | app/modules/config/candidate.py:713-730 | A recovery that ends restores the original and, if the action had begun, the running configuration; it deletes or replaces the candidate only; if none of its steps raises it fails exactly if it would have to apply what was not accepted before |
| ConfigTransaction.Transaction.Cleanup | app/modules/config/candidate.py:731-745 | Every cleanup is tried whatever the others did; a kept backup survives |
| ConfigTransaction.Transaction.Execute | app/modules/config/candidate.py:619-746 | Success means the candidate is installed (or, for test and check, nothing changed) and loaded; failure, the original contents and running agreement; a failed recovery keeps the backup; actions meet accepted contents only; no writer's contents are lost. The whole answer in surroundings without failure, with a validator that rejects the candidate, a service action that raises, or mounts that cannot be inspected: apply_failed then means the service runs the original again. With a recovery whose calls succeed, recovery_failed exactly if the action began on a baseline that was not accepted |
| LogLines.RecordsConcat | app/scripts/log_reader.py:179-205 | Complete short lines of two pieces are those of the first and those of its tail continued by the second |
| LogLines.ReadOn | app/scripts/log_reader.py:175-205 | Reading on from a cursor, mid-line or skipping an over-long line, delivers what one reading would have |
| LogCursor.Frame | app/scripts/log_reader.py:174-205 | The line loop returns exactly the complete short lines of the bytes it consumed, and stops early only for the record limit |
| LogCursor.AnchorMoves | app/scripts/log_reader.py:166-214 | The anchor of the new position is determined by the old one and the bytes just read |
| LogCursor.Recheck | app/scripts/log_reader.py:206-214 | It passes whenever the file was only appended to, and passing it gives a true anchor |
| LogCursor.ReadFile | app/scripts/log_reader.py:157-217 | One file contributes exactly its lines from start to new position within the budgets; its position stays exactly if only a piece of one line is in reach; `more` exactly if records or bytes ran out before its end |
| LogCursor.ReadEntry | app/scripts/log_reader.py:122-217 | The same for a listed file that may be missing, replaced, new, resumed or reset |
| LogCursor.ReadLog | app/scripts/log_reader.py:103-221 | The reply holds the parts of the listed files in order within the limits, positions for these only, `reset` exactly if a file was lost or refitted, and `more` false only if all are drained; a new view is given the last MAX_INITIAL_RECORDS records, or all if fewer, of the active file's complete lines within its last SNAPSHOT_BYTES, and nothing older; a poll that gets no further asks for another exactly if unterminated lines use up its bytes |
| LogFollower.Exactly | app/scripts/log_reader.py:103-221 | What was delivered of a reading and what is to come of it are exactly the complete short lines since it began |
| LogFollower.ReadFurther | app/scripts/log_reader.py:134-217 | A poll extends what was delivered, whatever is appended meanwhile |
| LogFollower.Follower.PollOnce | app/scripts/log_reader.py:69-221 | A poll with any listing, and with a rotation before, within or after it, continues the reading of every listed file that the cursor has or that is unread, and begins that of the others anew; a file that no poll missed goes on from where it began; `reset` exactly if a tracked file is not listed that was active or not read to its end; without `more` all that was complete is delivered; the first poll shows the end of the active file only |
| LogFollower.Follower.Follow | app/scripts/log_reader.py:69-221 | Over any interleaving of appends, rotations and polls with any listings and limits, of each file the current reading has delivered its complete short lines once and in order up to where it is; all that was ever delivered of a file is that, if and only if no poll read it anew after something was delivered; that happens to missed files only, any other is read on from where its reading began; a remainder is delivered only if the file is listed again |
| LogFollower.FollowedExactly | app/scripts/log_reader.py:103-221 | That, for one file of any consistent state |
| LogFollower.RestartsIff | app/scripts/log_reader.py:141-156 | A listed file is read on from where it was left, unless the cursor has lost it and its position is not where an unknown file is entered |
| LogFollower.OnlyMissedRestart | app/scripts/log_reader.py:79-98 | A file that every poll listed, and opened or met again after a rotation, is never read anew |
| LogFollower.LeftOutRestarts | app/scripts/log_reader.py:112-156 | A tracked file with a position, left out once and listed again, is read anew unless it is taken for a copy read as far; reported exactly if it was active or not drained |
| LogFollower.RotationRepeats | app/scripts/log_reader.py:79-156 | A drained file that one listing leaves out is delivered twice, and neither poll reports it |
| LogFollower.CopyContinues | app/scripts/log_reader.py:142-154 | A copy of the active file, made before that is truncated, is read on from where the original was left; the truncated one begins anew, reported, exactly if its bytes changed |
| LogFollower.DrainFile | app/scripts/log_reader.py:171-217 | Polling one unchanging file while `more` is true terminates and delivers everything that is complete |
| LogDrain.DrainFiles | app/scripts/log_reader.py:121-217 | Polling any listed files that do not change, while `more` is true and it gets further, terminates with everything delivered once, or in the state in which unterminated lines use up the budget |
| LogDrain.StarvedStays | app/scripts/log_reader.py:171-217 | That state lasts: the next poll leaves every position and flag as it is |
| LogDrain.FewNeverStarved | app/scripts/log_reader.py:171-194 | Three files are never in it |
| LogDrain.FourStarve | app/scripts/log_reader.py:171-217 | Four rotated files that end within a line of 64 KiB keep every poll from the active file |
| RolloutPlan.PreparePlan | app/modules/change/service.py:200-257 | The plan is refused exactly for an unknown, doubly chosen or non-slave selection, with the error of the first; else flags and batches follow the selection |
| RolloutPlan.AssignBatches | app/modules/change/service.py:238-257 | The numbering loop gives canaries 0, the others consecutive batches of the size, and the excluded none |
| RolloutPlan.PrimaryLast | app/modules/change/service.py:155-166 | Every included node has a batch from 0 to the primary's, every excluded one -1 |
| RolloutPlan.NoGaps | app/modules/change/service.py:238-252 | Each of these batches has a node |
| RolloutPlan.MainBatchesFull | app/modules/change/service.py:239-252 | Every main batch before the primary's has exactly the configured size |
| RolloutPlan.PlannedBatches | app/modules/change/service.py:155-257 | All of this for every topology, size and accepted selection, of the numbers stored in the plan |
| RolloutPlan.BatchesAsConfigured | app/modules/change/service.py:193-257 | For every accepted selection the main batches before the primary's have the configured size, without one single nodes if nodes go one by one, and otherwise all go at once; the primary's has no more |
| RolloutPlan.InApplyOrder | app/modules/change/service.py:245-252 | Nodes that are not canaries start in apply order |
| RolloutState.UiMoves | app/modules/change/service.py:1513-1560 | Any number of pauses and resumes between two steps move the status between deploying and pause requested, or from awaiting promotion to paused, and nothing else |
| RolloutState.PressMeans | app/modules/change/service.py:1513-1560 | A pause takes effect at once while a promotion is awaited, is pending while the rollout runs until it is claimed or withdrawn, and does nothing otherwise |
| Rollout.Worker.Mark | app/modules/db/change.py:210-232 | A row update sets the status of one node or fails, possibly after it did; it records a start out of batch order |
| Rollout.Worker.SetStatus | app/modules/db/change.py:117-130 | An unguarded status is written over whatever row the user has left, `at`, and drops a request that is pending there |
| Rollout.Worker.Transition | app/modules/db/change.py:133-153 | A guarded status is written only over one of the given statuses; a conflict writes nothing |
| Rollout.Worker.Apply | app/modules/change/service.py:1056-1068 | A successful apply makes the file the given contents, a failed one leaves it or does so |
| Rollout.Worker.MarkDeploying | app/modules/change/service.py:1131-1145 | The nodes of a batch are marked, none of them out of batch order |
| Rollout.Worker.RunInOrder | app/modules/change/service.py:1151-1191 | One after another up to the first failure: nodes marked deployed hold the candidate, those not attempted are untouched |
| Rollout.Worker.RunAtOnce | app/modules/change/service.py:1192-1247 | In any order of completion and recording: done, every node is deployed with the candidate or failed; after a raise, which waits for the rest, nodes may stay deploying, but one marked deployed holds the candidate |
| Rollout.Worker.Advance | app/modules/change/service.py:1211-1247 | One deployment of the pool ends or is recorded, and the pool shrinks |
| Rollout.Worker.SkipOthers | app/modules/change/service.py:1249-1253 | Only nodes neither deployed nor failed are skipped; no file changes |
| Rollout.Worker.DeployBatch | app/modules/change/service.py:1102-1264 | Started when lower batches are deployed, at the row as it is at that moment; done, exactly its nodes are deployed; failed, rolling back the named nodes, all attempted, would restore every included node; one at a time, nothing behind the first failure is touched |
| Rollout.Worker.CompleteBatch | app/modules/change/service.py:1131-1264 | Done, exactly the batch is deployed; failed, the named nodes cover all that it touched |
| Rollout.Worker.Refresh | app/modules/change/service.py:1079-1099 | Renumbering never refuses the stored selection and yields the plan's numbers, changing nothing else |
| Rollout.Worker.ClaimPause | app/modules/change/service.py:1563-1582 | A pause is claimed once or found withdrawn; with successful calls it raises exactly if a pause is pending again afterwards, after a withdrawal |
| Rollout.Worker.Gate | app/modules/change/service.py:1278-1283 | Passing it, no pause is pending; stopping at it, the request was claimed |
| Rollout.Worker.TryBatch | app/modules/change/service.py:1278-1311 | It drops no request; one pending in the row at which the batch begins came after the look, with no batch since; going on from a pending request means it was withdrawn, stopping unfinished that one was claimed |
| Rollout.Worker.StartBatch | app/modules/change/service.py:1285-1311 | After the look: the batch, and an end exactly with all nodes deployed |
| Rollout.Worker.AfterBatch | app/modules/change/service.py:1313-1321 | A stop is a claim or a written promotion, never both; a request is dropped exactly if it came after the look and is pending when the promotion is written |
| Rollout.Worker.NextBatch | app/modules/change/service.py:1277-1321 | One turn: at most one batch after a request, completion exactly with all nodes deployed, the batch order kept, what a rollback needs; a request is dropped exactly if it is pending when a promotion is written, and one that was pending before the turn only if it was withdrawn in it |
| Rollout.Worker.DeployRollout | app/modules/change/service.py:1267-1324 | All batches in order, none started early, excluded nodes untouched, and only files of attempted nodes changed; finished means all deployed, stopped that some node remains; dropped requests are exactly those pending when a promotion is written, made after the last look: none without promotions or when a claim stops it; with successful calls it fails only if a pause was withdrawn and requested again |
| Rollout.Worker.RollBackNode | app/modules/change/service.py:1341-1381 | A node reported as rolled back holds its snapshot; a node never counts as deployed while its file is replaced |
| Rollout.Worker.RollBackNodes | app/modules/change/service.py:1327-1383 | All given nodes hold their snapshots but for the failures; others are untouched, and nothing but a snapshot is written; none fails with captured snapshots and successful calls |
| Rollout.Worker.UndoAttempted | app/modules/change/service.py:1393-1401 | The named nodes, or else the attempted ones, and no others are rolled back; without a failure that restores every included node if they cover what was touched, and it does not fail if its calls succeed |
| Rollout.Worker.RollBackAfterFailure | app/modules/change/service.py:1386-1421 | Automatically rolled back means every included node restored, if the named or attempted nodes covered what was touched; it is reached if the calls of the rollback succeed; other nodes are left alone; a request is dropped exactly if it is pending when the status is written |
| Rollout.Worker.Roll | app/modules/change/service.py:1469-1509 | After a claim: deployed exactly with all nodes deployed, stopped, or rolled back; a rollback changes files only to snapshots, of nodes deployed before or changed by this rollout, and leaves excluded nodes alone; a rollout that failed is rolled back, and completely if the calls of that succeed; the row ends as the one that the closing status was written over, and every accepted request is claimed, withdrawn or pending if and only if none was pending there or where a promotion was written |
| RolloutState.UndoneOnlyThose | app/modules/change/service.py:1386-1403 | What an automatic rollback changed became the snapshot, and was the file of a node deployed before or changed by this rollout |
| Rollout.Worker.Close | app/modules/change/service.py:1478-1502 | The closing status agrees with the nodes whatever the rollout reported; a failed rollout is rolled back on attempted nodes only; the row ends as the one it was written over, and a request is dropped exactly if it was pending there; a stop writes none |
| Rollout.Worker.Conclude | app/modules/db/change.py:117-130 | The closing status of the other commands is written over whatever row the user has left |
| Rollout.Worker.CheckBase | app/modules/change/service.py:453-480 | Passing means every included node holds its snapshot; with successful calls exactly that |
| Rollout.Worker.Reconcile | app/modules/change/service.py:483-542 | Every node ends pending or deployed with the candidate, no file changes; with successful calls refused exactly if a file is neither snapshot nor candidate |
| Rollout.Worker.Claim | app/modules/db/change.py:133-153 | A command owns the change only from one of its statuses; refused, nothing was written |
| Rollout.Worker.CheckDeploy | app/modules/change/service.py:1440-1454 | Only an interrupted deployment resumes, only the listed statuses go on; a fresh one goes on only with every included node at its snapshot; with successful calls it goes on exactly when the files allow it; nothing but numbers and statuses changes |
| Rollout.Worker.CheckResume | app/modules/change/service.py:1592-1599 | A resume goes on from a status that allows it, read before or reached by a pause; with successful calls and files that are all snapshot or candidate it does so, unless the user pauses a promotion |
| Rollout.Worker.CheckRetry | app/modules/change/service.py:1715-1725 | A retry goes on only in a status that allows it, for an included node that is not deployed; with successful calls for every such node among resolvable files |
| Rollout.Worker.Deploy | app/modules/change/service.py:1440-1510 | Keeps the invariants however it ends, starts no node early; from an unchanged base, or interrupted with resolvable files, it succeeds with successful calls unless a pause is withdrawn; nodes that do not take part keep file and row, and a rollback touches attempted nodes only; drops exactly the requests pending where a promotion or the closing status was written |
| Rollout.Worker.Resume | app/modules/change/service.py:1585-1681 | The same for resuming and promoting; the flag of an older request is cleared |
| Rollout.Worker.Retry | app/modules/change/service.py:1708-1812 | Touches one file and leaves excluded nodes alone; succeeding, as it does with successful calls, that node is deployed and the change deployed exactly with all its nodes; failing, the change is paused; a request is dropped exactly if it was made during the retry and is pending in the row that the closing status is written over |
| Rollout.Worker.RetryDone | app/modules/change/service.py:1784-1812 | The closing status is deployed exactly with all nodes deployed, written over the row as the user has left it |
| Rollout.Worker.RollbackOne | app/modules/change/service.py:1815-1898 | Touches one node, whose file can only become its snapshot; succeeding, as it does with successful calls and a snapshot, that node holds its snapshot and the change is paused or rolled back as nodes remain deployed or not; drops no request |
| Rollout.Worker.Exclude | app/modules/change/service.py:1901-1940 | Only an idle slave leaves the plan, as it does with successful calls; the others are renumbered and otherwise as before; no file changes |
| Rollout.Worker.Include | app/modules/change/service.py:1943-2007 | A node returns, pending and with a snapshot, to a plan that is renumbered and otherwise as before, as it does with successful calls; no file changes |
| Rollout.Worker.RollbackAll | app/modules/change/service.py:2010-2095 | Succeeding, as it does with successful calls and all snapshots, a deployed change has every node at its snapshot, any other every included node whose status says that it was worked on, and every included one that these cover; a file can only become its snapshot, and, unless the change was deployed, nodes that were not worked on are left alone; drops no request |
| Rollout.Worker.Recover | app/modules/change/service.py:2112-2179 | An abandoned operation becomes interrupted, paused or failed, as its status says, and none of its nodes stays in progress; it succeeds with successful calls unless the user moves the status; no file changes and no request is dropped |
| Rollout.Worker.Perform | app/modules/change/service.py:1440-2179 | Each command keeps both invariants and drops exactly the requests pending in the rows that a rollout or a retry wrote over |
| Rollout.Worker.Run | app/modules/change/service.py:483-2179 | Over all runs of all commands, one at a time, with crashes and recoveries: deployed nodes hold the candidate, a deployed change has all nodes deployed, every pause request one fate, at most one batch starts under a pending one; every request is answered if and only if none was pending in a row that a rollout or a retry wrote over |
| Rollout.Worker.CalmRun | app/modules/change/service.py:1102-1421 | Over all runs of rollouts, pauses and promotions that nothing interrupts, automatically rolled back means every included node holds its snapshot, deployed that it holds the candidate; nodes that do not take part keep file and row |
| Rollout.PauseDropped | app/modules/change/service.py:1313-1321 | A request between the last look and the write of awaiting promotion is pending in a row that AfterBatch can return, and is claimed by nobody, its flag left set |
| Rollout.PauseDroppedByRetry | app/modules/change/service.py:1726-1812 | A request made while one node is deployed again is pending in a row that RetryClaimed can return, and is claimed by nobody |
| Rollout.OneBatchStarts | app/modules/change/service.py:1278-1299 | A request between the look and the start of the batch is pending in a row at which TryBatch can begin, and this one batch starts: the bound of one is reached |
| Rollout.PauseAskedAgain | app/modules/change/service.py:1563-1576 | A withdrawal before the claim and a request after it defeat all three ways to go on |
| RolloutState.Cover | app/modules/change/service.py:1127-1130 | Deployed and attempted nodes cover everything that a batch can have touched |
| RolloutState.SelectionStands | app/modules/change/service.py:1079-1086 | A stored selection passes the plan's checks and reproduces its own flags |
| Operations.Safety | app/modules/change/operations.py:74-270 | While the invariant holds: nothing in progress without an active task, and a running handler is that of the active, started task |
| Operations.CoreSafety | app/modules/change/operations.py:74-270 | Whatever else writes the status: no handler started twice, no two at once, no active task finished |
| Operations.TakenUpAgain | app/modules/change/service.py:2112-2179 | An interrupted operation is never taken for done, and can be validated again, resumed, deployed or rolled back as it had been |
| Operations.DeployedFrom | app/modules/change/operations.py:60-71 | Nothing is deployed that is not validated or, if that is asked for, not approved, nor what is deployed or in the middle of a rollout |
| Operations.Offers | app/modules/change/operations.py:40-71 | What a deployed, paused or promotable change offers, exactly; nothing while something is in progress; something in every status at rest that does not wait for a person |
| Operations.DirectKeepsIff | app/api/routes/change_routes.py:369-384 | A status written without a task keeps the invariant if and only if it is one at rest or a started active task owns it that does not finish right then |
| Operations.DirectUnowned | app/api/routes/change_routes.py:369-384 | A deployment through the REST API of an idle change is in progress with no active task |
| Operations.Alone | app/modules/change/operations.py:214-225 | Past the lock there is only its holder |
| Operations.Center.Enqueue | app/modules/change/operations.py:74-112 | A command is queued exactly for an idle change in a status that allows it; refused, nothing changes |
| Operations.Center.EnqueueScheduled | app/modules/change/operations.py:79-87 | The same for a due schedule, through the status it had before |
| Operations.Center.Press | app/routes/change/routes.py:237-262 | Pauses, withdrawals and edits of an idle change do exactly that, and keep the protocol's invariant |
| Operations.Center.RecoverOnRequest | app/modules/change/service.py:2112-2123 | Recovery on request applies exactly to an operation in progress without active task: never, if every command is enqueued |
| Operations.Center.DirectWrites | app/api/routes/change_routes.py:369-384 | A handler called without a task can change the status at any moment, and touches neither tasks, reservation nor lock |
| Operations.Center.MoveTask | app/modules/operations/queue.py:288-297 | Publishing, claiming and lease expiry move unfinished tasks, and no other |
| Operations.Center.LookUp | app/modules/change/operations.py:198-212 | A task without reservation never includes the active one |
| Operations.Center.Acquire | app/modules/change/operations.py:214-216 | One worker at a time enters |
| Operations.Center.Recheck | app/modules/change/operations.py:217-225 | Behind the lock only the active task goes on |
| Operations.Center.Judge | app/modules/change/operations.py:226-247 | The marker is durable before any remote work, and a marked task is only cleaned up |
| Operations.Center.Launch | app/modules/change/operations.py:248-256 | A handler starts for a task that has never been started |
| Operations.Center.HandlerEnds | app/modules/change/operations.py:256-270 | A return completes or fails it, a raise interrupts it; the invariant is kept if and only if it raised or left nothing in progress |
| Operations.Center.Perform | app/modules/change/operations.py:74-270 | Of all events of users, queue, workers and direct calls, exactly the harmless ones keep the invariant |
| Operations.Center.Interrupt | app/modules/change/operations.py:192-195 | Cleaning up recovers exactly what is in progress |
| Operations.Center.Recover | app/modules/change/service.py:2172-2178 | The user's pause can overtake the recovery, which then raises and is tried once more or leaves the reservation in place |
| Operations.Center.Finish | app/modules/change/operations.py:174-189 | Task and reservation end in one step, with the change at rest |
| Operations.Center.Run | app/modules/change/operations.py:74-270 | Under any schedule of users, queue, workers, direct calls and deaths, every step of which is known: at most one start per task, at most one handler, no active task finished; and at every moment an operation in progress has a started, active task that is not finishing, if and only if every event was harmless when it happened |
| Operations.Center.DeliverUndisturbed | app/modules/change/operations.py:198-270 | After any history, direct calls included, one undisturbed delivery ends the active task and leaves the change idle; an interrupted task fails |
| TextLines.JoinSource | app/modules/config/viewer.py:25-27 | Splitting into physical lines loses nothing |
| TextLines.SourceOfJoin | app/modules/config/viewer.py:25-27 | Proper lines are what their text splits into |
| Sections.HaproxySections | app/modules/config/viewer.py:30-50 | The sections cover the text without gap or overlap, each holding its header, and give it back |
| Sections.Ranges | app/modules/config/viewer.py:53-58 | Ends and preamble close every list of starts into ranges |
| Sections.ScanOrder | app/modules/config/viewer.py:30-50 | A marker moves a start upward, but never to or above the previous header |
| Sections.SectionsPartition | app/modules/config/viewer.py:30-58 | start <= header < end for every section of every text, consecutive from 0 to the last line |
| Sections.MarkersNamed | app/modules/config/viewer.py:34-48 | In every text a section begins at the marker right above it that names it, if there is one, and otherwise at its header |
| Sections.EveryHeader | app/modules/config/viewer.py:34-48 | Every header line has its section, with its title |
| Sections.LineKinds | app/modules/config/viewer.py:34-46 | Blank lines and comments never begin a section; a header begins with a keyword, and its next word names it unless that is a comment |
| Sections.PartitionLossless | app/modules/config/viewer.py:30-58 | The texts of the sections in order are the text |
| Sections.RewriteSection | app/modules/config/section.py:79-94 | Refused exactly for a range outside the file; else every other line is as before, and between them is the section, plus a newline only if it ended without one |
| Sections.RewriteKeeps | app/modules/config/section.py:79-94 | The lines before and after the replaced ones are again lines of the result, whatever the section holds |
| Sections.RefusedIff | app/modules/config/section.py:59-76 | A section is extracted exactly if one section has the name and header line |
| Sections.ExtractRewrite | app/modules/config/section.py:59-94 | The extract is the text of the named section, and putting it back is the identity |
| Sections.FreshStart | app/modules/config/viewer.py:34-48 | What begins on its first line does not depend on the lines before |
| Sections.BodyScan | app/modules/config/viewer.py:30-50 | Between header and end of a section nothing begins |
| Sections.SplicedOthers | app/modules/config/section.py:79-94 | Replacing body lines by neutral ones keeps all titles and the lines of all other sections |
| Sections.RewriteBody | app/modules/config/section.py:79-94 | The same for the text that the editor produces, including the newline it adds |
| WafPattern.EncodeInert | app/modules/config/waf_wizard.py:168-182 | No byte of a value can end a quoted argument, start a macro or mean something to the engine |
| WafPattern.EncodeEscapes | app/modules/config/waf_wizard.py:168-177 | Every backslash is followed by an x: none is doubled, and none stands at the end |
| WafPattern.DecodeEncode | app/modules/config/waf_wizard.py:172-176 | The engine reads the bytes back |
| WafPattern.ParsePattern | app/modules/config/waf_wizard.py:172-181 | The engine reads back operator and value |
| WafPattern.PatternMeans | app/modules/config/waf_wizard.py:168-182 | The pattern finds exactly the values that equal, begin with or contain the bytes |
| WafPattern.PatternInjective | app/modules/config/waf_wizard.py:172-181 | Different conditions have different patterns |
| WafDirectives.QuotableIff | app/modules/config/waf_wizard.py:182-182 | An argument is read back from between quotes if and only if it holds no quote, no double backslash and no final one |
| WafDirectives.ReadActText | app/modules/config/waf_wizard.py:185-193 | Every action is read back from its text, numbers and parameter names included |
| WafDirectives.LineIff | app/modules/config/waf_wizard.py:204-214 | A directive is read back from its line if and only if its operator is quotable |
| WafDirectives.LinesIff | app/modules/config/waf_wizard.py:204-214 | So are several, in order |
| WafWizard.ConditionInert | app/modules/config/waf_wizard.py:168-182 | What a condition puts between quotes holds neither quote nor macro, if and only if its network list holds none; every other value, whatever it is, is harmless, and the variable stays one word |
| WafWizard.OperatorQuotable | app/modules/config/waf_wizard.py:168-182 | An operator survives its quotes, exactly unless it is a network list with a quote, a double backslash or a final one |
| WafWizard.OperatorMeans | app/modules/config/waf_wizard.py:168-182 | The emitted operator is the condition's test |
| WafWizard.VariableMeans | app/modules/config/waf_wizard.py:22-23 | The variable of a condition stands for address, path, method, header or argument of that name, in phase 2 and, but for arguments, in phase 1 |
| WafWizard.LinkMeans | app/modules/config/waf_wizard.py:204-214 | In the phase chosen for its group a link matches exactly if its condition holds of the whole request |
| WafWizard.LinkActs | app/modules/config/waf_wizard.py:185-193 | Only the starter of a rule denies and logs, only the last link of an exclusion removes |
| WafWizard.GroupMeans | app/modules/config/waf_wizard.py:204-214 | A chain takes its effect exactly if all conditions of its group hold |
| WafWizard.UpgradeMeans | app/modules/config/waf_wizard.py:142-149 | A specification of the first version keeps its meaning when upgraded; upgrading again changes nothing |
| WafWizard.CompilationMeans | app/modules/config/waf_wizard.py:142-215 | The directives take their effect exactly when the all or any list holds, for every request, whatever phase 1 knows of its arguments; an empty list always does |
| WafWizard.RenderGroup | app/modules/config/waf_wizard.py:204-214 | The loop over a group writes the lines of its chain |
| WafWizard.Render | app/modules/config/waf_wizard.py:196-215 | Exactly the invalid specifications are refused; the engine reads the emitted lines back as the directives if and only if the network lists are quotable, and then they deny, log or remove exactly for the requests whose address, path, method, headers and arguments meet the specification |
| WafWizard.TextIff | app/modules/config/waf_wizard.py:196-215 | Identifiers, phases, messages, removals and operators of all emitted lines are read back, exactly if the network lists are quotable |
| WafWizard.ScopeBreaksLine | app/modules/config/waf_wizard.py:53-59 | A valid rule on the address with a quote as its IPv6 scope is emitted as lines that are not read back as it |
| WafWizard.EmittedOnce | app/modules/config/waf_wizard.py:152-154 | Every condition is tested once, in order; the identifiers are consecutive, distinct, and each carried once |
| WafWizard.IdentifiersFit | app/modules/config/waf_wizard.py:95-111 | All identifiers are from 1 to 99999, an exclusion removes none of its own, and it runs in phase 1 |
| WafWizard.FindBlock | app/modules/config/waf_wizard.py:160-164 | The lowest free block of a range, if there is one |
| WafWizard.AvailableId | app/modules/config/waf_wizard.py:157-165 | The lowest free block from 10000 on, else the lowest of all; refused exactly if 1 to 99999 has none |

## Left out

- Certificates: staging to disk or reloading only, passive cluster members, journals of other paths for the same crt-list, the size limit of a PEM, and the text of HAProxy's socket replies. SSH, process identity checks and configuration checks are calls that can fail.
- CertificateUpdate.RetryCompletes: only before a rollback began, as the program promises it; a creation can be retried even after that.
- ConfigTransaction.Transaction.Execute: file metadata, container mounts and line-ending normalisation are not modelled; the check before a replacement and the replacement are one step.
- LogCursor.ReadLog: when the `limited` flag is set, the ModSecurity record format, the scan of the directory for rotated names, and the order in which files are listed: a listing is any files that exist, the active one among them. Copies of a truncated file are modelled as far as the program tells them by their anchor.
- LogFollower.Follower.Follow: files are appended to and renamed; truncation, inode numbers used again, a second rotation within one poll, and files created and listed within one poll are not in it.
- LogDrain.DrainFiles: files that do not change; how long a writer can keep a reader behind is not said.
- Validation, approval, scheduling, drift checks and cancellation of a change are not in `Rollout`; their statuses are in `Operations`. The lazy creation of nodes for changes older than the rollout tables is not modelled, nor is the branch of a resume that meets a pending pause inside a worker, which the protocol in `Operations` rules out.
- Rollout.Worker.CalmRun: excludes crashes and commands on single nodes, after which reconciliation can turn a node with the candidate back to pending and out of reach of the next automatic rollback.
- Rollout.Worker.RollbackAll: it also rolls back excluded nodes of a deployed change, as the program does, so nothing is claimed about these being left alone.
- Rollout.Worker.RunAtOnce: the number of deployments that run at the same time is not bounded, since no promise depends on it.
- Operations.Center.HandlerEnds: that a handler returns with nothing in progress is part of what makes an event harmless; `Rollout` proves it for its commands, validation and drift checks are not modelled.
- Operations.Center.DirectWrites: a direct call is an arbitrary status at an arbitrary moment; its effect on files while another command runs is not modelled.
- Rollout.Worker.Run: one command at a time; a handler that the REST API calls while another runs is outside it. It begins with excluded nodes whose rows are not marked as worked on.
- Operations.Center.Judge: access rights, topology and payload checks are one verdict.
- Events, notifications and webhooks, which follow the workflow and do not steer it.
- Sections.RewriteBody: the header line keeps its own newline if there is a body; an editor text that joins header and body on one line changes the header. The Apache, nginx and Keepalived viewers are not modelled.
- WafWizard.Render: the comments and the metadata line around the directives are left out. Input is typed, stripped and normalised already: length limits in characters and the parsing of networks are not part of its validity, so every network list counts as valid. The lines are the bytes of the file, one character each, and are read byte by byte. Everything but the arguments is known from phase 1 on. Effects are a set, so the order in which the engine stops after a denial plays no role.
- WafPattern.PatternMeans: `$` stands for the very end of a value, as in an engine set up that way; UTF-8 encoding is done before.
