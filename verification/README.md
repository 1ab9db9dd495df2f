# Verification of the call recorder

A radio-call archive: an uploader watches a directory of recordings, spools each one durably and sends it to a
server, which stores one call with one audio file per recording. This project models the parts of it whose
correctness depends on what happens between two statements, or across many of them, and proves what those parts are
for.

## What is modelled

- **The durable spool of the uploader** (`Spool` and the `Spool*` files, `DurableSpoolObject`). Memory and disk are
  separate; a `fate` of each operation says where among its disk effects it fails or the process dies.
  `DurableSpoolObject` is the object with its maps and files, updated in place; each method is proved to end in
  the state that the value machine in `Spool` gives for the fate. `SpoolSteps` says over files and lines what single
  operations leave, `SpoolSafety`, `SpoolOrigins`, `SpoolFairness` and `SpoolBackoff` what holds over runs.
- **The upload protocol of the server** (`Ingestion` and the `Ingestion*` files). Every SQL statement, file effect and
  transaction of `createUpload`, `receiveAudio` and the periodic clean-up is one step over upload rows, calls, files
  and live handlers; a run is any interleaving of such steps, with crashes. `IngestionFrames` says what each kind of
  step changes at most, `IngestionSteps` over the columns what single steps demand, change and answer; `IngestionRaces`
  and `IngestionExamples` hold concrete runs, with the default configuration. `UploadServerObject` is the same code in
  its own form, methods that update the tables and the audio directory, proved to take only steps of the machine when a
  request runs undisturbed; `UploadStages` says what a request has done at each stage and leaves at its end, and
  `UploadConditions` over the columns of the tables when it does what.
- **Uploader and server together** (`EndToEnd`, `EndToEndProgress`, `EndToEndUploads`, `EndToEndExamples`): workers, lost
  replies, aborted handlers, restarts of either side.
- **A destructive retention run** (`Retention`, `RetentionRun`): move to trash, delete rows, restore or purge, with every
  file and database failure as an input and every intermediate state recorded.
- **Segmentation and transcript checks** (`Segments`, `Transcript`), over real numbers.
- **Conversation grouping** (`Conversations`): the window query over the ordered table.
- **Tag and frame parsing** (`Id3`, `Mp3`), after sections 3.1 and 3.3 of the ID3v2.3.0 informal standard and section
  2.4.1.3 of ISO/IEC 11172-3.
- **The rate limiter, the call-list filter and the receiver status table** (`Limiter`, `Filters`, `FilterQueries`,
  `ReceiverStatus`).
- `Basics` and `Text` hold what several of them share.

## Assumptions

Disk: a ledger line append, a directory rename and a directory removal are each atomic; nothing but the spool writes
into its pending directory. SHA-256 is injective, and a digest is modelled as its content.

Server: the idempotency read of `createUpload` and the update or insert after it are one step; a handler finishes
before its lease runs out; the expiry answer of `receiveAudio` does not hit a row that is owned or quarantined by the
time it is written (`Ingestion.Timely`; the two lemmas on the expiry answer say exactly what happens otherwise); an
error of a commit means that the transaction was rolled back; random ids and tokens are fresh; requests arrive already
validated and normalised; calls are not deleted by anything else meanwhile. The timing assumptions are the run
condition `InTime`. Only ownership, one call per arbitrary key, and quarantine itself (that it was due, and that it
stays) need it; files, source ids, failure counters, replies, stored bytes and what `EndToEndUploads` states are proved
of every run without it.

Retention: ids and paths of the selected calls are unique, ids hold no dot, and the trash directory of the run is new.
Whether a path passes the safety check is an input, and the empty path does not.

Requests reach the limiter in the order of their clock readings, except where a lemma says otherwise.

## Where the code does less than it seems to promise

Each of these is shown by a concrete run or input or stated with its exact condition, beside what does hold.

- `receiveAudio` answers an expired token from the row as it was looked up, and its update spares only completed and
  duplicate rows. When the row has been taken over meanwhile, the update expires it under its owner, and two calls can be
  stored for one idempotency key (`IngestionRaces.StaleExpiryStoresTwice`). A key that is also the source id, as the
  uploader's keys are, is stored once all the same (`EndToEndUploads.OneCallPerUpload`). When the row is quarantined, the
  update reopens it (`IngestionExamples.QuarantineUndone`).
- Two overlapping uploads of near-duplicate calls are both stored: the duplicate check is not part of the transaction
  (`IngestionExamples.NearCallsStoredTwice`, `IngestionPacking.ArchiveIsPacked`).
- A quarantined upload is acknowledged like a duplicate. If a legacy request comes with the token of an upload of the
  uploader, the uploader completes it although no call exists (`EndToEndExamples.CompletedWithoutCall`); without such
  legacy requests a completed upload always had a call or a near call, whatever the timing
  (`EndToEndUploads.LedgerMeansCall`).
- A retention run that meets an unsafe path, or whose transaction does not begin, leaves what it had moved in the trash,
  and a restoring rename that fails is ignored (`RetentionRun.UnfinishedRun`, `RetentionRun.BeginFailureStrands`). The
  audio of a deleted row whose id could not be scanned is brought home and stays there without a row
  (`RetentionRun.FinishedRun`).
- `Queue` itself accepts a recording without a sender, after which the spool does not open again
  (`SpoolOrigins.NoSenderNoReopening`). Its caller names a sender, and then it always opens
  (`SpoolOrigins.AlwaysReopens`).
- The limiter allows 600 requests per window, and so up to 1200 in some minute (`Limiter.BoundReached`). It reads the clock
  before it takes its lock; requests served out of order can be admitted after a sweep that would be rejected without it
  (`Limiter.OutOfOrderRun`).
- Conversation ids join identifiers with a separator that identifiers may hold (`Conversations.SeparatorCollides`,
  `Conversations.SharedIdExactly`).
- Alignment loses the last word when the dropped end is at least one word's share (`Segments.LastWordLost`,
  `Segments.CoversEveryWord`).
- Some branches never run: the five-minute cap of the retry delay (`Spool.RetryDelayDoubles`), the branch of `Queue` for a
  pending id with an unknown fingerprint, the guard on a cut that does not advance, the guard on frames shorter than four
  bytes, and the error for an MP3 file without a complete frame.

## Model

| member | source | states |
|---|---|---|
| DurableSpoolObject.DurableSpool.Open | uploader/proscan-windows/spool.go:46-133 | Opening with a fate leaves memory and disk as the value machine says: ledger read, perhaps compacted, item directories loaded, or refused with nothing in memory |
| DurableSpoolObject.DurableSpool.LoadPending | uploader/proscan-windows/spool.go:85-103 | Loading succeeds if and only if every item directory has a complete manifest, and then gives exactly the items and fingerprints on disk |
| DurableSpoolObject.DurableSpool.Queue | uploader/proscan-windows/spool.go:147-187 | Queueing with any failure or crash between its disk effects ends as the value machine says, reply included |
| DurableSpoolObject.DurableSpool.ClaimDue | uploader/proscan-windows/spool.go:189-210 | The claim picks a waiting due item with none before it in (next attempt, creation) order, and marks exactly it; nothing only if nothing is due |
| DurableSpoolObject.DurableSpool.Retry | uploader/proscan-windows/spool.go:212-227 | Retry bookkeeping in memory and on disk, failing or crashing at each point |
| DurableSpoolObject.DurableSpool.Complete | uploader/proscan-windows/spool.go:229-254 | Ledger append, sync and removal of the directory, failing or crashing at each point |
| DurableSpoolObject.DurableSpool.Remember | uploader/proscan-windows/spool.go:256-272 | A fingerprint is appended once, failing or crashing at each point |
| Spool.RetryDelayDoubles | uploader/proscan-windows/spool.go:311-320 | Two seconds at the first attempt, doubled with each up to the eighth, 256 seconds from then on; the cap of five minutes is never reached |
| SpoolSafety.ItemIdInjective | uploader/proscan-windows/spool.go:147-160 | Two recordings share an item directory if and only if idempotency key and fingerprint agree |
| SpoolSafety.CompactionKeepsLedger | uploader/proscan-windows/spool.go:107-133 | Compaction, in any order of lines, keeps the set of recorded fingerprints |
| SpoolSafety.QueueReachesDisk | uploader/proscan-windows/spool.go:150-160 | The branch for an id already pending under an unknown fingerprint is dead |
| SpoolSafety.AcceptedIsNew | uploader/proscan-windows/spool.go:147-187 | A queued fingerprint was unknown, is durable afterwards, and its directory holds the recording's manifest and bytes |
| SpoolSafety.StepKeeps | uploader/proscan-windows/spool.go:46-272 | Every operation with every fate keeps the invariant on disk, memory, workers and granted fingerprints, and forgets nothing durable |
| SpoolSafety.CrashSafety | uploader/proscan-windows/spool.go:46-272 | So does every run, crashes and restarts included |
| SpoolSafety.QueuedOnceAndKept | uploader/proscan-windows/spool.go:46-272 | In every run from an empty disk each queued fingerprint is pending or in the ledger and was queued once over all restarts; no item is held by two workers and in-flight ids are items |
| SpoolSafety.RecordingsSurvive | uploader/proscan-windows/spool.go:147-254 | A recording on disk keeps its bytes and request until its fingerprint is in the ledger |
| SpoolSafety.ReopenRebuilds | uploader/proscan-windows/spool.go:46-133 | Reopening after any run rebuilds known as ledger and pending fingerprints and the items as saved; it fails if and only if a pending manifest has no sender |
| SpoolSteps.OpensExactly | uploader/proscan-windows/spool.go:46-133 | Opening succeeds if and only if a compaction that was tried worked and each item directory holds a manifest with fingerprint, audio file and sender |
| SpoolSteps.OpenedKnows | uploader/proscan-windows/spool.go:73-105 | What is then known are exactly the fingerprints of ledger lines and item directories, the items are exactly the directories, and none is in flight |
| SpoolSteps.OpeningKeepsFiles | uploader/proscan-windows/spool.go:107-133 | Opening changes nothing on disk but the order of ledger lines, and a compacted ledger repeats none |
| SpoolSteps.RefusalLeavesOnlyStaging | uploader/proscan-windows/spool.go:162-187 | A refused recording changes no memory and nothing on disk but its staging directory; only a crash after the rename leaves an item directory, with everything in it |
| SpoolSteps.RetriesExactly | uploader/proscan-windows/spool.go:212-227 | A failed attempt is one manifest with attempts, error and next attempt, on disk if and only if it was saved, the audio beside it untouched |
| SpoolSteps.CompletesExactly | uploader/proscan-windows/spool.go:229-254 | The line comes before the removal and the removal before forgetting; short of that the item waits again |
| SpoolSteps.RemembersExactly | uploader/proscan-windows/spool.go:256-272 | Remembering writes one line at most; the fingerprint is known afterwards if and only if it was before or the line was written and synced |
| SpoolSteps.KnownIsLeftAlone | uploader/proscan-windows/spool.go:150-153 | Queueing a known fingerprint is no error and changes nothing |
| SpoolSteps.NothingToDo | uploader/proscan-windows/spool.go:212-236 | Retrying or completing an item that is not there only takes it out of flight |
| SpoolOrigins.OnlyQueuedIsPending | uploader/proscan-windows/spool.go:147-254 | In every run each item directory holds the request and bytes of a recording that was queued |
| SpoolOrigins.AlwaysReopens | uploader/proscan-windows/app.go:297-311 | When every queued recording names its sender, as the caller sees to, the spool opens again after every run |
| SpoolOrigins.NoSenderNoReopening | uploader/proscan-windows/spool.go:280-293 | A concrete run that queues a recording without a sender and cannot be reopened |
| SpoolFairness.StepShifts | uploader/proscan-windows/spool.go:189-254 | Each claim of another item shrinks what waits ahead of a due item; only an item handed back by a failed completion, or one queued with the same instants, joins it |
| SpoolFairness.BoundedOvertaking | uploader/proscan-windows/spool.go:189-254 | Under a clock that does not go back a due item sees at most as many other claims as items were ahead of it, plus one for each such joining |
| SpoolBackoff.FailuresCount | uploader/proscan-windows/spool.go:212-227 | In every run in which the process stays up each failed attempt of an item is counted, after the n-th it is due min(2^n, 256) seconds later with its error noted, nothing else of it changes, and the manifest saved with the last failure agrees with memory |
| SpoolBackoff.ClaimedAfterTheWait | uploader/proscan-windows/spool.go:189-227 | In every such run the next claim of an item that failed is no earlier than the end of that wait |
| SpoolBackoff.ClaimableFromThen | uploader/proscan-windows/spool.go:189-210 | From that instant on a free worker can claim it, or an item that comes before it |
| SpoolBackoff.QueuedIsDue | uploader/proscan-windows/spool.go:147-187 | A queued recording is an item without attempts, due at once, with source, fingerprint, request and bytes as given |
| IngestionSteps.LookedExactly | backend/cmd/server/main.go:850-882 | By the row as the lookup found it a request is answered as settled or as expired, or may claim the row while it waits, has failed or lapsed |
| IngestionSteps.GuardedUpdates | backend/cmd/server/main.go:884-974 | The updates that give a row back, count a failure or set audio aside touch that row alone, only under upload, and an ignored error changes nothing |
| IngestionSteps.GivenBack | backend/cmd/server/main.go:883-961 | A row given back waits without a lease and is otherwise as it was |
| IngestionSteps.RepliesExactly | backend/cmd/server/main.go:764-1049 | Every step gives exactly the reply of its branch, or none that could be taken for success |
| IngestionOwnership.StepKeeps | backend/cmd/server/main.go:764-1049 | Every timely step keeps: one live token per row, one row per key, owners with live leases and no rivals, commits that match completed rows |
| IngestionOwnership.RunKeeps | backend/cmd/server/main.go:764-1049 | So does every run, and completed, duplicate and quarantined rows never change again |
| IngestionOwnership.OneCallPerKey | backend/cmd/server/main.go:785-804 | In every timely interleaving one (sender, idempotency key) is committed at most once |
| IngestionSources.OneCallPerSource | backend/migrations/001_initial.sql:17 | In every interleaving, timely or not, a sender's non-empty source id is committed at most once |
| IngestionSources.OneCallPerSourceKey | backend/cmd/server/main.go:785-804 | A key that every request for it gives as its source id is committed at most once, whatever the timing |
| IngestionLegacy.QuarantineNeedsLegacy | backend/cmd/server/main.go:860-945 | In every interleaving only rows whose token came with a legacy request are ever quarantined |
| IngestionOwnership.OneOwnerPerRow | backend/cmd/server/main.go:873-888 | In every timely interleaving a row has at most one live handler that owns it, under a lease that has not run out |
| IngestionOwnership.LiveTokens | backend/cmd/server/main.go:838-850 | A token finds a row if and only if it is the row's current one, and no two rows share one |
| IngestionOwnership.RenewedTokenClaims | backend/cmd/server/main.go:785-801 | From every row that is neither settled nor under upload, `createUpload` hands out a token with which a new request comes to own the row; the old token finds nothing |
| IngestionOwnership.ExpiryAnswerExact | backend/cmd/server/main.go:854-859 | The expiry answer keeps ownership intact if and only if its row has no owner |
| IngestionOwnership.ExpiryUnsettles | backend/cmd/server/main.go:854-859 | It leaves settled rows alone if and only if its row is not quarantined |
| IngestionOwnership.QuarantineStays | backend/cmd/server/main.go:945-960 | In every timely interleaving a row that was ever quarantined is quarantined still |
| IngestionExamples.QuarantineUndone | backend/cmd/server/main.go:854-859 | With the default configuration a concrete run, in time, reaches a quarantined row, and one expiry answer then makes it renewable |
| IngestionRaces.StaleExpiryStoresTwice | backend/cmd/server/main.go:838-859 | With the default configuration a concrete interleaving, outside the timing assumption, commits two calls for one key |
| IngestionFiles.StepKeeps | backend/cmd/server/main.go:889-1049 | Every step, timely or not, keeps the agreement of calls, working files and final files |
| IngestionFiles.CallsHaveTheirFiles | backend/cmd/server/main.go:983-1049 | At every point of every interleaving each call's file is at its path with recorded size and digest; a final file without a call is in a handler's hand, or was left by a crash or failed removal there |
| IngestionBytes.CallsFit | backend/cmd/server/main.go:896-918 | In every interleaving, timely or not, each stored call has at least one byte and at most as many as are allowed |
| IngestionPacking.ArchiveIsPacked | backend/cmd/server/main.go:969-1049 | When check-to-commit stretches of a sender do not overlap, of any two of its calls that agree in system, talkgroup, radio, site, voice and type either the starts or the durations differ by more than their own tolerance |
| IngestionPacking.CommitPacksExactly | backend/cmd/server/main.go:1010-1049 | One commit keeps the packing if and only if no call of the sender is near the new one at that moment |
| IngestionPacking.OverlapBreaksPacking | backend/cmd/server/main.go:969-1049 | Two near uploads past the check both commit and break it, unless they share a source id |
| IngestionExamples.NearCallsStoredTwice | backend/cmd/server/main.go:969-1049 | With the default configuration a concrete run, in time, after which two near calls with different source ids are stored |
| IngestionQuarantine.RunLengthExact | backend/cmd/server/main.go:922-930 | The run length counts exactly the trailing failures with one digest |
| IngestionQuarantine.StepKeepsCounts | backend/cmd/server/main.go:919-924 | Every step, timely or not, keeps each row's counter, first time and digest equal to its trailing run |
| IngestionQuarantine.CountersAreRuns | backend/cmd/server/main.go:919-924 | In every interleaving, timely or not, and over token replacements, the counter is the length of the trailing run of one digest, and the first time that of the run's first failure |
| IngestionQuarantine.StepKeepsDue | backend/cmd/server/main.go:929-945 | Under the ownership invariant every step keeps a handler's decision to quarantine, and each quarantined row, due by the row's own counter |
| IngestionQuarantine.QuarantineCountsRealRuns | backend/cmd/server/main.go:919-945 | In every timely interleaving a quarantined row has a trailing run of the required length that began the grace period ago |
| IngestionReplies.StepKeepsReplies | backend/cmd/server/main.go:764-1049 | Every step, timely or not, keeps every reply that confirms an upload backed: a call of the row, a near call for what was submitted, or a quarantine |
| UploadServerObject.UploadServer.FindDuplicate | backend/cmd/server/main.go:3187-3194 | Answers a call of the sender that agrees in the six channel fields, starts within the one tolerance and lasts within the other, one with the latest start; or none if there is none |
| UploadServerObject.UploadServer.CreateUpload | backend/cmd/server/main.go:764-823 | Takes the machine's steps; each reply says what holds: a near call, a settled row of the key, a live upload, or a waiting row under the new token and nothing else changed |
| UploadConditions.AnsweredExactly | backend/cmd/server/main.go:771-823 | An answer other than a known call is, over the columns, a settled row of the key, a row of it under a live claim, or one row that now waits for the time tokens live, taken over or new |
| UploadServerObject.UploadServer.Begin | backend/cmd/server/main.go:838-888 | From token to claim: the row is claimed if and only if the token is live, the row free and the request admitted; otherwise rows stay, but for an expired one |
| UploadServerObject.UploadServer.RejectAudio | backend/cmd/server/main.go:919-968 | Undecodable audio is set aside if and only if quarantine is due with this failure and every operation works; otherwise the row waits again and no file is left |
| UploadServerObject.UploadServer.StoreAudio | backend/cmd/server/main.go:969-1049 | Valid audio is stored if and only if nothing near was stored, its source id is free and every operation works; otherwise no call is touched and no file is left |
| UploadServerObject.UploadServer.ReceiveAudio | backend/cmd/server/main.go:825-1059 | The whole request: exactly when it stores a call and what that changes, exactly when it sets audio aside, that its duplicates are near, and that nothing else is touched |
| UploadConditions.StorableExactly | backend/cmd/server/main.go:825-1049 | The condition under which a call is stored, over the columns of its row and of the stored calls |
| UploadConditions.ShelvableExactly | backend/cmd/server/main.go:919-968 | The condition under which audio is set aside, counting this failure |
| UploadConditions.ClaimLastsTenMinutes | backend/cmd/server/main.go:873-882 | For ten minutes after a claim no second request can claim the row, and its key is answered with a conflict before their end and with a new token from then on |
| UploadConditions.TokenLastsItsTime | backend/cmd/server/main.go:781-859 | A token claims its row up to the last instant of its configured time; after it the request is answered as expired and the clean-up expires the row |
| UploadConditions.FilesByDay | backend/cmd/server/main.go:983 | Stored and set-aside audio lies under the UTC day on which the call started |
| UploadStages.EndsAbandoned | backend/cmd/server/main.go:883-895 | Abandoned at any stage, a request leaves its row waiting and no file, as far as the clean-up works |
| UploadStages.EndsStored | backend/cmd/server/main.go:1010-1049 | From the rename the commit makes the row's call of the received audio, and nothing else |
| UploadServerObject.UploadServer.CleanUp | backend/cmd/server/main.go:2113-2124 | Afterwards no waiting row is past its expiry and no lapsed lease holds an unexpired row; waiting rows were expired, held ones freed, and every other row is as it was |
| EndToEnd.StepKeeps | uploader/proscan-windows/app.go:341-394 | Every step of worker, spool or server, timely or not, keeps the joint invariant |
| EndToEnd.AtMostOnceAndConfirmed | uploader/proscan-windows/app.go:341-394 | In every interleaving with lost replies and restarts every ledger line was remembered or written by a completion whose request had a call, a near call, or a quarantine; in a timely one a key has at most one call |
| EndToEndProgress.MetadataAnswerIsTaken | uploader/proscan-windows/client.go:47-72 | A worker that asked can take a duplicate or settled answer as confirmation, and a token to send its audio under |
| EndToEndProgress.TokenSendsTheFile | uploader/proscan-windows/client.go:70-89 | With a token the worker sends the audio that lies in its item's directory |
| EndToEndProgress.AudioAnswerIsTaken | uploader/proscan-windows/client.go:73-94 | A worker that sent can take each of the four good answers to its audio as confirmation |
| EndToEndProgress.OnlySuccessConfirms | uploader/proscan-windows/client.go:47-94 | Nothing else confirms an item: an unconfirmed worker is confirmed only by such an answer that the server gave |
| EndToEndProgress.ConfirmedIsCompleted | uploader/proscan-windows/app.go:366-390 | Completing a confirmed item puts its fingerprint into the ledger, removes its directory and frees the worker |
| EndToEndProgress.DuplicateLeavesTheSpool | uploader/proscan-windows/app.go:366-390 | So a recording that the server calls a duplicate leaves the spool in two steps |
| EndToEndProgress.AnsweredAudioLeavesTheSpool | uploader/proscan-windows/app.go:366-390 | So does one whose audio was stored or found settled |
| EndToEndProgress.FailedIsRetried | uploader/proscan-windows/app.go:362-369 | At every point of an upload the attempt may fail, and then the item waits again with the error noted |
| EndToEndUploads.CompletedHadCall | uploader/proscan-windows/client.go:47-94 | In every interleaving every completed upload had a call or a near call, unless a legacy request used its row and it was quarantined, as it still is in a timely one |
| EndToEndUploads.LedgerMeansCall | uploader/proscan-windows/app.go:341-394 | Without legacy requests, and whatever the timing, every ledger line was remembered or written for an upload of which a call, or a near-duplicate, has existed |
| EndToEndExamples.CompletedWithoutCall | backend/cmd/server/main.go:850-853 | With the default configuration a concrete run, in time, in which ten legacy requests have an upload quarantined and the uploader completes it without any call |
| EndToEndUploads.OneCallPerUpload | uploader/proscan-windows/proscan.go:80-87 | A key that requests also give as source id has at most one call in every interleaving of both sides, whatever the timing |
| EndToEndUploads.StoredIsRecorded | uploader/proscan-windows/client.go:73-89 | When the bodies under a key's tokens are the files that workers sent with them, however late they arrive, every call of the key has the digest of a recording queued under it |
| Retention.TrashNamesDiffer | backend/cmd/admin/retention.go:169 | Trash names of different calls differ |
| Retention.TrashNameSays | backend/cmd/admin/retention.go:169 | A trash name is the id with the extension of the path, if its last element has one |
| Retention.ExtIsLastDot | backend/cmd/admin/retention.go:169 | The extension is the suffix from the last dot of the last path element, and empty only if that has none |
| Retention.LayoutUnique | backend/cmd/admin/retention.go:162-226 | The spots of the candidates determine the files completely |
| RetentionRun.Stage | backend/cmd/admin/retention.go:162-186 | The staging loop stops where it must, remembers what it moved and what was missing, and at every instant audio of a live row is at home or in the trash |
| RetentionRun.RollBack | backend/cmd/admin/retention.go:176-182 | The restoring loop brings home everything but what could not be renamed |
| RetentionRun.Settle | backend/cmd/admin/retention.go:223-236 | After the commit each spared file goes home and each deleted one goes, failures counted exactly |
| RetentionRun.Run | backend/cmd/admin/retention.go:162-237 | The exit, the rows and the place of every file as functions of what failed, and audio kept at every instant, a crash included |
| RetentionRun.EndsExactly | backend/cmd/admin/retention.go:162-237 | The run ends at the first unsafe path or file that cannot be moved, past all of them at a transaction that does not begin or commit, and otherwise finishes, counting as failures the missing files and the deleted ones that could not be removed |
| RetentionRun.RowsExactly | backend/cmd/admin/retention.go:191-222 | The rows that go are the candidates still deletable, and only if the run finishes |
| RetentionRun.FinishedRun | backend/cmd/admin/retention.go:223-237 | After a commit a surviving row's file is at its path unless its restoring rename failed; of a deleted row whose id was scanned nothing is left unless its removal failed; the file of one whose scan failed comes home like a survivor's |
| RetentionRun.UnfinishedRun | backend/cmd/admin/retention.go:166-222 | A run that did not commit leaves exactly the starting files if and only if it had moved none, or rolls back and every rename works |
| RetentionRun.BeginFailureStrands | backend/cmd/admin/retention.go:187-190 | A transaction that does not begin leaves every moved file in the trash |
| Segments.BreaksOf | backend/cmd/admin/datasets.go:426-436 | The breaks are exactly the middles of a silence end and the latest start before it |
| Segments.MiddlesAre | backend/cmd/admin/datasets.go:426-436 | Every line that ends a silence gives the middle between it and the latest start before it |
| Segments.BreaksAreMiddles | backend/cmd/admin/datasets.go:426-436 | Nothing else is a break |
| Segments.VadRanges | backend/cmd/admin/datasets.go:419-457 | The ranges join up from zero; each ends at the last break in its window, or after 30 s, and at most 0.05 s is dropped |
| Segments.CutAt | backend/cmd/admin/datasets.go:437-456 | The cutting loop meets that description for any sorted breaks |
| Segments.SegmentedUnique | backend/cmd/admin/datasets.go:437-456 | The description admits one segmentation only |
| Segments.SegmentedAtUnique | backend/cmd/admin/datasets.go:426-457 | So the detector's marks and the duration determine the ranges |
| Segments.Bounded | backend/cmd/admin/datasets.go:439-455 | Every range is at most 30 s and all but the last are longer than 3 s |
| Segments.CutsWhileLong | backend/cmd/admin/datasets.go:437-456 | Cutting goes on exactly while more than 30 s are left; then more than 0.05 s are a last range, and less are dropped |
| Segments.CutsAtTheLastBreak | backend/cmd/admin/datasets.go:439-446 | Of several breaks more than 3 s and at most 30 s on, the last is taken |
| Segments.HardCutsOnlyWithoutBreaks | backend/cmd/admin/datasets.go:440-446 | A cut is at a break, or at 30 s where no break lies in the window |
| Segments.AlignText | backend/cmd/admin/datasets.go:465-499 | The text of overlapping timed segments, or exactly the words that overlap the range by proportion |
| Segments.QuotedExactly | backend/cmd/admin/datasets.go:475-481 | A timed segment is quoted if and only if it ends after the start of the range and starts before its end |
| Segments.QuotesAreJoined | backend/cmd/admin/datasets.go:476-484 | What is quoted are the texts in order, one space between, without outer spaces |
| Segments.CoversEveryWord | backend/cmd/admin/datasets.go:487-498 | No word is lost if and only if n times the dropped end is below the total |
| Segments.LastWordLost | backend/cmd/admin/datasets.go:437-498 | A concrete input, 30.04 s without silence and 800 words, that loses its last word |
| Segments.NeighboursShareOneWord | backend/cmd/admin/datasets.go:487-498 | A word is in two neighbouring ranges if and only if the cut falls inside it |
| Transcript.JoinedBlocks | backend/cmd/admin/datasets.go:527-528 | Comparing joined blocks is comparing their words |
| Transcript.FindRepeat | backend/cmd/admin/datasets.go:525-533 | Found if and only if some block of two to five words stands three times in a row |
| Transcript.BlocksAreRepeats | backend/cmd/admin/datasets.go:525-533 | Such a repeat is a block of two to five words, written three times between other words |
| Transcript.RepeatsAreBlocks | backend/cmd/admin/datasets.go:525-533 | And every such block is a repeat |
| Transcript.Validate | backend/cmd/admin/datasets.go:501-535 | Each warning if and only if its condition holds |
| Conversations.SameGroupExactly | backend/cmd/server/v1_handlers.go:301-312 | Two calls of a talker are in one group if and only if no pause between neighbours exceeds five minutes |
| Conversations.GroupsAreOfOneTalker | backend/cmd/server/v1_handlers.go:309-311 | A group holds calls of one system, talkgroup and radio only |
| Conversations.CloseCallsTogether | backend/cmd/server/v1_handlers.go:305-312 | Calls of a talker within five minutes are in one group |
| Conversations.GroupsBeginApart | backend/cmd/server/v1_handlers.go:309-313 | Different groups of a talker begin at different times |
| Conversations.IdIsTheGroup | backend/cmd/server/v1_handlers.go:312-314 | With an unambiguous talker, equal ids before hashing if and only if one group |
| Conversations.SourceSays | backend/cmd/server/v1_handlers.go:312-314 | What is hashed are system, talkgroup, radio and the start of the first call of the group, with the separator between |
| Conversations.OneSplitPerConversation | backend/cmd/server/v1_handlers.go:315-317 | A conversation goes to one split, whatever the hashes are |
| Conversations.SplitShares | backend/cmd/server/v1_handlers.go:315-317 | Of any hundred consecutive hashes ninety give training, five validation and five the test, and a hash goes with its negative |
| Conversations.SharedIdExactly | backend/cmd/server/main.go:3205-3219 | A talker shares its source with another accepted talker if and only if its identifiers hold the separator where it can be read another way |
| Conversations.SeparatorCollides | backend/cmd/server/v1_handlers.go:312-314 | A concrete pair of talkers with one id |
| Id3.SyncSafeRoundTrip | uploader/proscan-windows/proscan.go:260-265 | The 28-bit size comes back from its four bytes |
| Id3.ParseId3 | uploader/proscan-windows/proscan.go:106-146 | The loops compute the specification, errors included |
| Id3.OnlyTheTagIsRead | uploader/proscan-windows/proscan.go:113-146 | Inputs that agree up to the tag's end parse alike |
| Id3.HeaderExactly | uploader/proscan-windows/proscan.go:106-117 | A tag is read if and only if its version is 3 and its size, seven bits to a byte, is positive and fits; otherwise the error says which |
| Id3.NoHeader | uploader/proscan-windows/proscan.go:107-109 | The header is missing if and only if there are less than ten bytes or they do not begin with the three letters |
| Id3.FirstByteWeighsMost | uploader/proscan-windows/proscan.go:124 | Sizes are read with the first byte weighing most, eight bits to a byte in a frame and seven in the tag |
| Id3.NoMarkNoFields | uploader/proscan-windows/proscan.go:135-138 | Without a mark there are no fields |
| Id3.FramesComeBack | uploader/proscan-windows/proscan.go:118-134 | The frame loop reads back the text of all printed text frames, passes over the others, and stops where no frame follows |
| Id3.BlockIsFound | uploader/proscan-windows/proscan.go:135-144 | The search finds the custom block exactly where it was written, and reads its fields past parts that are none |
| Id3.RoundTrip | uploader/proscan-windows/proscan_test.go:114-149 | Parsing undoes printing, whatever audio follows: frames of any four upper-case letters or digits, in any encoding and with any flags, texts that do not end in NUL, fields without NULs and no colon in the key, and no mark before the block |
| Id3.ScannerTag | uploader/proscan-windows/proscan_test.go:114-149 | The five frames TSEE, TRDA, TIT2, TPE1 and TPE2 with any values that do not end in NUL or hold the mark, and any fields, come back |
| Mp3.DecodedLength | uploader/proscan-windows/proscan.go:333-362 | Every decoded frame length lies in 24..1441 |
| Mp3.HeaderRoundTrip | uploader/proscan-windows/proscan.go:333-362 | A header printed bit field by bit field decodes to its fields, and reserved fields are refused |
| Mp3.NoSynchronisation | uploader/proscan-windows/proscan.go:333-336 | Without eleven set bits, or with less than four bytes, nothing is decoded |
| Mp3.FrameIsItsTime | uploader/proscan-windows/proscan.go:345-361 | A frame has 1152 or 576 samples at the sample rate of its version, and as many whole bytes as its bit rate gives in their time, with one for padding |
| Mp3.SyntheticRecording | uploader/proscan-windows/proscan_test.go:136-144 | A synthetic recording of any number of frames after any tag is measured as exactly those frames |
| Mp3.FindFrame | uploader/proscan-windows/proscan.go:321-331 | The first position from the start at which a complete frame lies, or none if there is none |
| Mp3.Measure | uploader/proscan-windows/proscan.go:296-315 | The walk starts at the first frame, moves by the length of each frame that continues it, stops at the first that does not, and reports their count and duration |
| Mp3.WalkIsExact | uploader/proscan-windows/proscan.go:301-308 | On complete frames and a tail that does not continue them the walk visits exactly those frames |
| Mp3.TailsThatStop | uploader/proscan-windows/proscan.go:301-308 | The walk stops at too few bytes, no header, an incomplete frame, or another sample rate or sample count |
| Mp3.MeasuresExactly | uploader/proscan-windows/proscan.go:296-315 | So a file of a tag, k such frames and a tail counts exactly k and ends at the sum of their lengths |
| Limiter.Ingestion.Allowed | backend/cmd/server/main.go:3125-3148 | Counts, sweeps and decides as the sweeping machine |
| Limiter.SweepingIsInvisible | backend/cmd/server/main.go:3140-3146 | For requests in order the sweeping limiter decides as the one that keeps every window |
| Limiter.SweepExactly | backend/cmd/server/main.go:3140-3146 | More than ten thousand windows are swept of those a minute old, and no other window is lost |
| Limiter.OutOfOrderRun | backend/cmd/server/main.go:3125-3147 | A concrete sequence of requests of one sender from ten thousand and one addresses, one out of order, on which the sweeping limiter decides differently |
| Limiter.AtMost1200 | backend/cmd/server/main.go:3134-3147 | In any minute the sweeping limiter admits at most 1200 requests of one key |
| Limiter.BoundReached | backend/cmd/server/main.go:3134-3147 | In some minute it admits 1200 |
| Filters.Multi | backend/cmd/server/main.go:2933-2946 | The loops give the distinct trimmed parts in order, joined |
| Text.TrimExactly | backend/cmd/server/main.go:2938 | Trimming keeps exactly what lies between the outer spaces |
| Text.SpacesAre | backend/cmd/server/main.go:2938 | The spaces are the Unicode white space characters |
| FilterQueries.ListedExactly | backend/cmd/server/main.go:2933-2946 | A part is listed if and only if it is what lies, without its outer spaces and not blank, between commas of some value |
| FilterQueries.ListGrows | backend/cmd/server/main.go:2933-2946 | A further part is listed last, if it is new |
| Filters.FilterFromQuery | backend/cmd/server/main.go:2932-2985 | Parses and checks as the specification, errors included |
| FilterQueries.ListsAreTheQuery | backend/cmd/server/main.go:2947 | Each list field of the filter lists the parts of its own parameter |
| FilterQueries.TextsAreTheQuery | backend/cmd/server/main.go:2947 | Each text field is what its own parameter says first, without outer spaces where the code trims |
| FilterQueries.ChoicesAreTheQuery | backend/cmd/server/main.go:2947-2955 | Group, order and flags are those named, and the defaults otherwise |
| FilterQueries.PagesAreTheQuery | backend/cmd/server/main.go:2975-2983 | Page and page size are taken when they are whole numbers of the right kind, however signed or padded with zeros, and are 1 and 50 otherwise |
| FilterQueries.RefusedExactly | backend/cmd/server/main.go:2956-2974 | A query is refused if and only if a date, time of day or duration is given and is not one, the first such kind being named |
| Filters.LinkValues | backend/cmd/server/main.go:1209-1251 | The link holds exactly the parameters with something to say, once each |
| FilterQueries.LinkSaysTexts | backend/cmd/server/main.go:1209-1251 | The link holds each text of the filter under its own parameter, and nothing for an empty or dropped one |
| FilterQueries.LinkSaysOthers | backend/cmd/server/main.go:1228-1246 | It holds flags, order, page size and page when they are not the default |
| FilterQueries.Decimal | backend/cmd/server/main.go:1241-1246 | The numbers in it are decimal |
| Filters.JoinedComesBack | backend/cmd/server/main.go:2933-2946 | Reading back a joined list gives the list |
| Filters.AcceptedIsCanonical | backend/cmd/server/main.go:2932-2985 | Every accepted filter has one canonical form and passes the checks again |
| Filters.LinkRoundTrip | backend/cmd/server/main.go:1209-1251 | For every accepted query, reading the written link gives the filter and page back, and dropping a parameter resets exactly what it says |
| ReceiverStatus.Table.Record | backend/cmd/server/main.go:1029-1034 | A view faithful to the calls of the key is faithful to them with the new one, is shown, and no other entry changes |
| ReceiverStatus.StepFaithful | backend/cmd/server/main.go:1029-1034 | Every event keeps every entry faithful to its calls |
| ReceiverStatus.Table.DismissOne | backend/cmd/server/v1_handlers.go:75-84 | Hides exactly a shown stale entry, and says whether it did |
| ReceiverStatus.Table.DismissAllStale | backend/cmd/server/v1_handlers.go:96-98 | Hides exactly the shown entries older than a week |
| ReceiverStatus.Table.RestoreOne | backend/cmd/server/v1_handlers.go:175-182 | Shows exactly a hidden entry again, and says whether it did |
| ReceiverStatus.FaithfulView | backend/cmd/server/main.go:1028-1035 | Through every mix of events an entry counts the commits of its key, holds their latest start, and while dismissed remembers that start |
| ReceiverStatus.OnlyStaleIsHidden | backend/cmd/server/v1_handlers.go:75-98 | An entry becomes hidden only by a dismissal for which it is stale |
| ReceiverStatus.ButtonsExactly | backend/cmd/server/v1_handlers.go:75-182 | Dismissing and restoring change nothing of an entry but who hid it at which call, and a restore always shows it |

## Left out

- HTTP, PostgreSQL, ffmpeg, file watching and the Windows service: only their outcomes appear, as inputs of steps.
- Sessions, login, roles, key hashing, templates and everything else of the user interface.
- Interleaving inside the methods of `UploadServerObject`: they show one request running alone; interleavings are those of `Ingestion`.
- UploadServerObject.UploadServer.ReceiveAudio: time stands still during one undisturbed request; the clock moves between steps in `Ingestion`.
- Metadata that only travels along (names, tags, frequency, notes, transcript, patches) and the length limits on fields.
- The ingestion tables do not shrink: retention and administrative rewrites of calls are not steps of `Ingestion`.
- EndToEndUploads.StoredIsRecorded: that a worker sends its item's file unchanged is a condition of the run; the transport is not modelled.
- SpoolFairness.BoundedOvertaking: holds while the process stays up; a restart forgets which items were in flight.
- deleteUploadedSource and the recovery of an interrupted copyUploadedSource: a failing copy or deletion is a failed upload attempt here.
- Dry retention runs, several policies in one run, the run's summary counts of bytes and deleted files, and removal of the empty trash directory.
- Segments.VadRanges: exact real arithmetic; floating-point rounding and the rounding of the written segment times are not modelled.
- Mp3.Measure: the duration is an exact quotient; truncation to nanoseconds is not modelled.
- Id3.ParseId3: bytes are characters below 256, and trimming is a parameter, so that Unicode spaces in fields are covered by whatever trimming does.
- Filters.FilterFromQuery: dates, times of day and durations are checked by parameters; percent-encoding of the link is not modelled.
- Conversations.IdIsTheGroup: MD5 and the hash of the split are arbitrary functions, so two different conversations may still share a hash.
- Notification delivery, the transcription queue and the migrations.
