# SafeFileHub, verified

SafeFileHub keeps three stores in step: SQLite rows, `.part` staging files of resumable uploads and opaque objects. Requests, managers, recovery passes and processes act on them at once, any call can fail, and any process can die between two calls. This project models that protocol and the smaller protocols around it, and proves what they keep. `dafny verify dfyconfig.toml` checks all of it.

## How it is built

- `Hub.dfy` is the protocol as a state machine. The state is the tables, the directories among them, the files, the clock and the place of every actor in its program; there is one event for every repository or storage call, with its failures, and `Quit` for an actor that returns or dies. `HubInvariant.dfy` proves what every event keeps, `HubFrame.dfy` what the events of others leave alone.
- `UploadSafety.dfy`, `PublicationSafety.dfy` and `UploadClient.dfy` state what follows for every run of any number of actors, the browser's chunk loop and a lossy network included.
- `HubStore.dfy` is the repository and the object store as an object that is updated in place; each method takes effect as one event of the machine or fails. `UploadManager.dfy`, `UploadRecovery.dfy` and `PublishedService.dfy` are the managers' and handlers' methods over it, branch by branch. Wherever a method calls `Yield`, everybody else may do anything the machine allows; the contracts hold regardless. `hist` is the history of the store, and `Own(me)` the outcomes that one actor has brought about in it. Where a contract says more, it is for a `quiet` store: no faults, nobody else at work.
- The remaining files are protocols of their own: `Md5Queue.dfy` and `Md5Worker.dfy`, `DirectoryTree.dfy`, `PathPolicy.dfy`, `Authorization.dfy`, `ArchiveManager.dfy` and `ArchiveService.dfy`, `Sessions.dfy`, `UploadLimiter.dfy`. Each has a machine or a reference definition, and methods proved against it.

## Where the code falls short of a tempting statement

Each of these is a lemma, with the exact condition beside it.

- A recorded MD5 digest can belong to an earlier file: ids of `files` come back, and claims carry no token (`Md5Queue.ReusedIdGetsTheOldDigest`, `Md5Queue.DigestsAreRightIff`).
- A pending task at `max_attempts` that is first in line makes every claim fail (`Md5Queue.StuckHeadBlocksEveryClaim`, `Md5Queue.StuckHeadIsReachable`).
- An empty directory can be undeletable because LIKE matches too much (`DirectoryTree.EmptyIsDeletable`, `DirectoryTree.PlainIsDeletable`, `DirectoryTree.UnderscoreBlocksDeletion`); the parent check races (`DirectoryTree.ParentCheckRaces`); a rename can put a file on a directory's path (`DirectoryTree.RenameKeepsKinds`, `PublicationSafety.ApartIffNoSuchRename`).
- The listing test counts the root as its own child (`PathPolicy.DirectChildIsOneLonger`).
- A failed `os.Stat` leaks an archive for good, and a create that is given up leaves a running job until shutdown (`ArchiveManager.LeakFreeIff`, `ArchiveManager.LeakIsReachable`, `ArchiveManager.StrandedStays`).
- Recovery of published files settles exactly the items whose object still exists; the others stay listed for good, and one crash is enough for such an item (`PublishedService.Published.Recover`, `PublicationSafety.StuckForever`, `PublicationSafety.StuckJobIsReachable`, `PublicationSafety.StuckTombstoneIsReachable`).
- A clean MD5 batch can leave a task due that it has just failed (`Md5Worker.RunOnce`, `Md5Worker.RefusalThenFailure`).

## Model

| member | source | states |
|---|---|---|
| `UploadSafety.CommittedPrefix` | internal/upload/session.go:118-160 | in every reachable state a row's offset is the total length of its successful writes, and an existing staging file begins with exactly those bodies in order |
| `UploadSafety.ChunksAreDisjoint` | internal/upload/session.go:129-157 | two successful writes of one session never cover a common byte, whatever happens in between |
| `UploadSafety.CompletePublishesHashedBytes` | internal/upload/session.go:166-217 | the object a successful Complete records begins with the bytes that were hashed, which are the accepted bytes, although the lock is free in between; it is exactly those bytes if no writer dies or fails to roll back in the gap |
| `UploadSafety.UploadedFileHoldsItsBytes` | internal/upload/session.go:193-214 | in every reachable state the object of a file that came from an upload begins with the bytes the session accepted, and the row's size is their number |
| `UploadSafety.RefusalUndoesPublication` | internal/upload/session.go:206-214 | publish, refused transaction and restore leave rows, staging, objects, files and jobs as they were |
| `UploadSafety.RefusedSessionKeepsItsBytes` | internal/upload/session.go:202-214 | with any other events in between the restore still succeeds: the refused session has its row and bytes back and nothing names the object |
| `UploadSafety.OneFilePerTarget` | internal/db/migrations/001_initial.sql:18-28 | in every reachable state two files rows never share root and path |
| `UploadSafety.OneWinner` | internal/db/repository.go:895-942 | after one session has become the file at a path, no other session for that path commits, until a rename or deletion |
| `UploadSafety.RowLife` | internal/upload/session.go:243-265 | one step moves a row's status and offset only forwards; a row disappears only by publication while active, unexpired and full, or by cleanup after its staging file is gone |
| `UploadSafety.GoneForever` | internal/db/repository.go:944-957 | a session whose row is gone never has a row again |
| `UploadSafety.OrphanRemovalSparesSessions` | internal/upload/session.go:382-409 | a staging name found without row under its lock, with no Create of it under way, never belongs to a session later |
| `HubInvariant.StepKeeps` | internal/upload/session.go:51-265 | every event of every actor, crashes and failing calls included, keeps the invariant over rows, staging files, objects, jobs and program positions |
| `HubFrame.RunUnmoved` | internal/upload/session.go:88-117 | while an actor holds a lifecycle lock, no run of other actors changes the session's row, staging file or accepted bytes, nor an object it has made and not recorded |
| `UploadManager.StoreKeepsCommittedBytes` | internal/upload/session.go:118-160 | the committed-prefix property for any history of the store that the methods below change |
| `UploadManager.Manager.Create` | internal/upload/session.go:51-73 | negative length is refused without effect; success inserts exactly one active, empty row; a failed insert removes the staging file again |
| `UploadManager.Manager.Get` | internal/upload/session.go:74-84 | only a live row is returned; a dead one is not found and, undisturbed, cleaned up |
| `UploadManager.Manager.Enter` | internal/upload/session.go:88-117 | the section runs on the row read under the lock; a missing row is not found and no lock is kept |
| `UploadManager.Manager.Write` | internal/upload/session.go:118-160 | success is exactly one commit of exactly this body at this offset and returns the offset behind it; failure commits nothing; undisturbed, the outcome of every branch is given in full |
| `UploadManager.Manager.Append` | internal/upload/session.go:132-157 | from the accepted offset on: normalizing truncate, copy, and one commit or a rollback to the old offset |
| `UploadManager.Manager.CopyBody` | internal/upload/session.go:138-149 | one byte more than the session's room is read at most; a failure rolls back |
| `UploadManager.Manager.Commit` | internal/upload/session.go:150-157 | the offset moves once, by the body's length, or the file is cut back |
| `UploadManager.Manager.Complete` | internal/upload/session.go:166-217 | success is exactly one publication: no row, a file whose object begins with the accepted bytes, whose SHA-256 is the wanted digest if one is given; undisturbed, a live, full and whole session is refused for its digest if and only if that is malformed or another, otherwise completed if and only if no file, tombstone or directory is at its path, and a failure changes nothing |
| `UploadManager.Manager.HashSection` | internal/upload/session.go:168-188 | what was hashed is the whole staging file of Length bytes; the lock is free afterwards |
| `UploadManager.Manager.PublishSection` | internal/upload/session.go:195-216 | nothing is published from the earlier snapshot: row, status, expiry and offset are read again |
| `UploadManager.Manager.RecordOrRestore` | internal/upload/session.go:206-214 | the row becomes a file, or the object becomes the staging file again |
| `UploadManager.Manager.CleanupLocked` | internal/upload/session.go:243-265 | success leaves neither row nor staging file; without faults it succeeds from any status it can meet |
| `UploadManager.Manager.Cancel` | internal/upload/session.go:229-241 | a later fault-free call finishes whatever an earlier cleanup left; the row goes in one deletion after the file |
| `UploadManager.Manager.CleanupExpired` | internal/upload/session.go:230-241 | a session that is live again under the lock is left alone; a dead one is removed |
| `UploadRecovery.Recovery.Recover` | internal/upload/session.go:323-412 | kept + cancelled + orphans <= checked <= limit <= 64; success accounts for every row read; each such row is gone for good or was, in this run, live with exactly Offset bytes; only removals are committed, none in a dry run; undisturbed, the report and the tables left are given in full, the report the same for dry and real |
| `UploadRecovery.Recovery.CheckRow` | internal/upload/session.go:350-371 | a kept row is active, unexpired and has exactly Offset bytes; any other is gone |
| `UploadRecovery.Recovery.CheckRows` | internal/upload/session.go:346-371 | the loop over the page: kept + cancelled rows, each kept one recoverable when checked and each cancelled one gone |
| `UploadRecovery.Recovery.PeekRows` | internal/upload/session.go:346-349 | the dry loop over the page: it commits nothing and, undisturbed, counts the same |
| `UploadRecovery.Recovery.CheckNames` | internal/upload/session.go:373-410 | the loop over the staging names: rows of the page and rows outside it are passed over, orphans counted and, for real, unlinked |
| `UploadRecovery.Recovery.CheckName` | internal/upload/session.go:373-410 | a name counts as orphan only without row before and under its lock; a dry run unlinks nothing |
| `UploadRecovery.Recovery.UploadSessions` | internal/db/repository.go:824-847 | the page is the first limit ids in order |
| `UploadRecovery.PageIsUnique` | internal/db/repository.go:824-847 | one table has one page |
| `UploadRecovery.DryRunReportsTheSame` | internal/upload/session.go:346-371 | a dry and a real pass from one state, given one directory listing, report the same |
| `UploadRecovery.KeptCounts` | internal/upload/session.go:366-370 | the kept count is the number of rows of the page that are active, unexpired and whole |
| `UploadRecovery.OrphansCount` | internal/upload/session.go:378-398 | the orphan count is the number of listed names without a row |
| `HubStore.Store.UpdateUploadOffset` | internal/db/repository.go:860-873 | compare-and-swap on the offset: one row moves, or nothing |
| `HubStore.Store.UpdateUploadStatus` | internal/db/repository.go:877-890 | compare-and-swap on the status |
| `HubStore.Store.CompleteUpload` | internal/db/repository.go:895-942 | deletes the active, unexpired session and inserts the file, both or neither; a file, a tombstone or a directory at the path refuses |
| `HubStore.Store.DeleteUploadSession` | internal/db/repository.go:944-957 | one row or not found |
| `HubStore.Store.UploadSessionByID` | internal/db/repository.go:849-858 | the row or not found |
| `HubStore.Store.PublishStaging` | internal/storage/objects_unix.go:417-453 | the staging file becomes a fresh object; an error may leave it moved or not |
| `HubStore.Store.RestorePublished` | internal/storage/objects_unix.go:486-510 | the object becomes the staging file again, or nothing moves |
| `HubStore.Store.RemoveStaging` | internal/storage/objects_unix.go:364-382 | afterwards the file is absent; its absence is no error |
| `HubStore.Store.LockStagingLifecycle` | internal/storage/objects_unix.go:307-332 | exclusive per upload id among all actors |
| `HubStore.Store.HashAndSyncStaging` | internal/storage/objects_unix.go:389-413 | returns the bytes of the whole file |
| `PublicationSafety.RowsAndJobsAgree` | internal/httpapi/published.go:154-179 | in every reachable state an active row's object exists and no cleanup job names an object a row holds |
| `PublicationSafety.ErasureSparesTheLiving` | internal/publishedrecovery/recovery.go:21-60 | an erasure from a list of any age never takes an object that an active row names or that somebody is about to record or restore |
| `PublicationSafety.LiveObjectIsImmutable` | internal/db/repository.go:562-589 | the bytes behind an active row never change |
| `PublicationSafety.OnlyRenamesGoAstray` | internal/db/migrations/007_published_lifecycle.sql:11-16 | in every reachable state a file on a directory's path has been put there by a rename |
| `PublicationSafety.ApartIffNoSuchRename` | internal/db/repository.go:546-560 | a run keeps files and directories apart throughout if and only if none of its renames takes a directory's path |
| `PublicationSafety.StuckForever` | internal/storage/objects_unix.go:252-272 | a job or tombstone whose object is gone, with nobody about to settle it, stays listed in every later run |
| `PublicationSafety.StuckJobIsReachable` | internal/httpapi/published.go:158-170 | a run from the empty store that ends with such a job: a crash between removal and settlement |
| `PublicationSafety.StuckTombstoneIsReachable` | internal/httpapi/published.go:402-414 | the same for a tombstone |
| `PublishedService.StoreKeepsItsObjects` | internal/httpapi/published.go:402-414 | both properties for any history of the store that the methods below change |
| `PublishedService.Published.CreateFile` | internal/httpapi/published.go:146-179 | success is one row of size 0 with its object; undisturbed, it succeeds if and only if no file, tombstone or directory has the path, and a failure leaves files, objects and jobs as they were |
| `PublishedService.Published.Compensate` | internal/httpapi/published.go:158-170 | the cleanup job is written before the object is removed, and dropped after it |
| `PublishedService.Published.DeleteFile` | internal/httpapi/published.go:402-414 | tombstone first, then object, then row; undisturbed, all are gone if the file was active, else nothing changes |
| `PublishedService.Published.Recover` | internal/publishedrecovery/recovery.go:21-60 | completed <= checked <= limit, one settlement for each completed item; undisturbed, the lists are the oldest jobs and the first tombstones of the tables, nothing but their objects is erased, exactly those whose object exists are settled and the others stay |
| `PublishedService.RemovableCounts` | internal/publishedrecovery/recovery.go:27-40 | the completed count is the number of listed items whose object is there |
| `PublishedService.Published.Sweep` | internal/publishedrecovery/recovery.go:27-40 | the loop over one list: a failed removal is skipped, a failed settlement ends the pass |
| `PublishedService.Published.DeletingFiles` | internal/db/repository.go:619-636 | tombstones in the order of their ids, none left out that comes before, all of them if fewer than the limit |
| `PublishedService.Published.ObjectCleanupJobs` | internal/db/repository.go:603-618 | queued keys by age, none left out that is older, all of them if fewer than the limit |
| `PublishedService.Published.BeginFileDelete` | internal/db/repository.go:562-575 | hides the row with exactly this id and key if it is active |
| `PublishedService.Published.FinalizeFileDelete` | internal/db/repository.go:576-589 | deletes exactly the tombstone with this id and key |
| `PublishedService.Published.EnqueueObjectCleanup` | internal/db/repository.go:592-596 | adds one job |
| `PublishedService.Published.Remove` | internal/storage/objects_unix.go:252-272 | an absent object is an error; an error may hide a removal |
| `UploadClient.CommittedIsPrefixOfFile` | web/app.ts:184-217 | however requests and replies are lost, repeated or reordered and however many runs compete, the committed bytes are a prefix of the file |
| `UploadClient.CompletedHoldsTheFile` | web/app.ts:184-217 | completion commits only with the whole file accepted, into an object that begins with it |
| `UploadClient.Selected.Run` | web/app.ts:184-217 | the requests of a pass lie end to end from the server's offset, each a chunk or the rest; complete is sent at most once and only after every byte behind that offset; if every request succeeds and nobody pauses, it is sent and the item completed |
| `UploadClient.TilesCover` | web/app.ts:198-206 | such requests together carry the file from the first offset to the end of the last |
| `UploadClient.TilesAreSlices` | web/app.ts:200-202 | each carries the slice of the file at its own offset |
| `Md5Queue.StatusesAgree` | internal/db/repository.go:1121-1202 | in every interleaving a file is ready, failed, awaiting or disabled exactly as its task is complete, failed, open or missing |
| `Md5Queue.RecordedDigestsAreRight` | internal/checksum/worker.go:139-166 | every recorded digest is that of the file's object in every run that gives no id out again while a worker holds it |
| `Md5Queue.DigestsAreRightIff` | internal/db/repository.go:1135-1163 | for every run: all digests are right all the time if and only if every recording completion meets the object its worker has read, or one of the same digest |
| `Md5Queue.CompletionIsRightIff` | internal/db/repository.go:1135-1163 | where digests differ, a completion records the right digest if and only if the row still has the key the worker opened |
| `Md5Queue.ReusedIdGetsTheOldDigest` | internal/db/migrations/001_initial.sql:18-19 | a run in which the newest id is deleted, given out again and gets the earlier object's digest |
| `Md5Queue.MeasureDecreases` | internal/db/repository.go:1121-1202 | 2*(max_attempts - attempts) + (1 if computing) falls with every change of a task; only a claim counts an attempt |
| `Md5Queue.FailureGivesUpAtMaximum` | internal/db/repository.go:1165-1187 | a failure gives task and file up exactly at max_attempts; before that the task is due again at once |
| `Md5Queue.GivenUpHasUsedItsAttempts` | internal/db/repository.go:1165-1187 | in every run a task that is given up has used all its attempts |
| `Md5Queue.ClaimsAreBounded` | internal/db/migrations/009_site_settings_md5.sql:41-46 | in any run a task is claimed at most max_attempts - attempts times |
| `Md5Queue.ClaimsAreSeparated` | internal/db/repository.go:1165-1202 | between two claims of a task lies a fail or a requeue of it |
| `Md5Queue.StuckHeadBlocksEveryClaim` | internal/db/repository.go:1121-1134 | a claim by anybody succeeds if and only if the first due task is below max_attempts |
| `Md5Queue.StuckHeadIsReachable` | internal/db/repository.go:1191-1202 | a run from the empty queue, three claims whose leases expire, after which nobody can claim anything |
| `Md5Worker.Tables.ClaimMD5Task` | internal/db/repository.go:1121-1134 | claims the due task that is first by available_at and id; an error claims nothing: none due, or the first one at its maximum |
| `Md5Worker.Tables.RequeueComputingMD5Tasks` | internal/db/repository.go:1191-1202 | releases exactly the oldest expired claims, at most limit |
| `Md5Worker.Tables.CompleteMD5Task` | internal/db/repository.go:1135-1163 | a valid digest of a computing task sets task and file together; otherwise neither changes |
| `Md5Worker.Tables.FailMD5Task` | internal/db/repository.go:1165-1187 | a computing task goes back, or to failed at its maximum, and its file with it |
| `Md5Worker.Worker.Call` | internal/checksum/worker.go:139-166 | one call of process: only this file's row and task change, only FailMD5Task can make a task due, and undisturbed it stays on the way to recording the digest of the file's object |
| `Md5Worker.Worker.Process` | internal/checksum/worker.go:139-166 | with anybody at work between its calls all digests stay right; undisturbed, the task of a file with its object ends complete and the file ready with the MD5 of that object, one without its object goes back or is given up at its maximum, and a file that is gone or being deleted is left alone |
| `Md5Worker.RunOnce` | internal/checksum/worker.go:83-138 | with goroutines and claim loop interleaved: the oldest expired claims are taken back first, up to the limit; at most MaxTasksPerRun tasks are done; undisturbed, every task handed over whose file and object are there is complete with the MD5 of that object; the claim that ends a clean short batch finds nothing due, and undisturbed whatever is due at the return is a task this batch has claimed and failed; a claim refused by the CHECK means nobody could claim |
| `Md5Worker.ClaimAll` | internal/checksum/worker.go:109-129 | hands over at most MaxTasksPerRun claims; why it ends |
| `Md5Worker.ClaimAndProcess` | internal/checksum/worker.go:88-138 | the same for the part after the requeue: what has not been handed over is as it was |
| `Md5Worker.RefusalThenFailure` | internal/checksum/worker.go:109-138 | a task that is put back after the claim that found nothing due |
| `DirectoryTree.TreeInvariant` | internal/db/migrations/007_published_lifecycle.sql:11-16 | over any interleaving of statements without rename no path is both file and directory, and every nested directory is LIKE-below a directory |
| `DirectoryTree.NonEmptyIsSafe` | internal/db/migrations/007_published_lifecycle.sql:17-19 | a directory with a literal descendant is never deleted |
| `DirectoryTree.LiteralIsLike` | internal/db/migrations/007_published_lifecycle.sql:17-19 | LIKE misses no literal descendant, even when paths hold % or _ |
| `DirectoryTree.EmptyIsDeletable` | internal/db/migrations/007_published_lifecycle.sql:17-19 | a literally empty directory is deleted if and only if no other path falsely matches its pattern |
| `DirectoryTree.PlainLikeIsLiteral` | internal/db/migrations/007_published_lifecycle.sql:17-19 | above a path without % and _ LIKE finds exactly the literal descendants, up to the case of ASCII letters |
| `DirectoryTree.PlainIsDeletable` | internal/db/migrations/007_published_lifecycle.sql:17-19 | a directory with such a path is deleted if and only if no other path of its root lies below it, whatever the case |
| `DirectoryTree.PercentMeans` | internal/db/migrations/007_published_lifecycle.sql:18-18 | % matches any text |
| `DirectoryTree.OneCharMeans` | internal/db/migrations/007_published_lifecycle.sql:18-18 | _ matches any one character, any other character itself up to ASCII case |
| `DirectoryTree.SameToLike` | internal/db/migrations/007_published_lifecycle.sql:18-18 | what is the same up to ASCII case |
| `DirectoryTree.DirDropsLast` | internal/httpapi/published.go:325-325 | path.Dir takes the last segment away |
| `DirectoryTree.NestedHasTwoSegments` | internal/db/migrations/008_published_parent_invariant.sql:7-8 | the trigger asks for a parent exactly where the handler does: from two segments on |
| `DirectoryTree.UnderscoreBlocksDeletion` | internal/db/migrations/007_published_lifecycle.sql:17-19 | an empty /a_b that cannot be deleted beside /axb/c |
| `DirectoryTree.InsertKeepsParents` | internal/db/migrations/008_published_parent_invariant.sql:7-13 | an accepted insert keeps every immediate parent existing if and only if its own exists |
| `DirectoryTree.WholeRequestsKeepParents` | internal/httpapi/published.go:325-345 | if whole requests are atomic every directory's immediate parent exists |
| `DirectoryTree.ParentCheckRaces` | internal/httpapi/published.go:325-345 | between the parent check and the insert the parent can go |
| `DirectoryTree.RenameKeepsKinds` | internal/db/repository.go:546-560 | a rename keeps files and directories apart if and only if no directory has the new path |
| `DirectoryTree.RenameOntoDirectory` | internal/db/repository.go:546-560 | a rename that does not |
| `DirectoryTree.Tables.InsertDirectoryRow` | internal/db/migrations/008_published_parent_invariant.sql:7-13 | inserts exactly when constraint and triggers allow it |
| `DirectoryTree.Tables.DeleteDirectoryRow` | internal/db/migrations/007_published_lifecycle.sql:17-19 | deletes exactly when the trigger finds nothing below |
| `DirectoryTree.Tables.CreateDirectory` | internal/httpapi/published.go:325-355 | created if and only if the parent exists and the path is free; parents stay complete |
| `DirectoryTree.Tables.RemoveDirectory` | internal/httpapi/published.go:437-478 | removed if and only if the trigger allows it: the earlier literal check refuses nothing more |
| `PathPolicy.ParsedShape` | internal/pathpolicy/path.go:67-79 | a parsed path is rooted, its segments are valid and are what its canonical string splits into |
| `PathPolicy.ReparseCanonical` | internal/pathpolicy/path.go:47-79 | parsing a canonical path without its leading slash gives back the same path |
| `PathPolicy.DecodedOnce` | internal/pathpolicy/path.go:29-45 | an accepted escaped path was decoded once: decoding again fails or changes nothing |
| `PathPolicy.UnescapeEscape` | internal/pathpolicy/path.go:37-40 | decoding undoes percent-encoding for all bytes, digits of either case and any choice of characters left alone |
| `PathPolicy.EscapedCanonicalParses` | internal/pathpolicy/path.go:29-45 | a canonical path, encoded in any such way, is parsed back to itself, unless its own text looks encoded, which is refused |
| `PathPolicy.EscapesAreSeen` | internal/pathpolicy/path.go:111-122 | any text with an escape in it looks encoded |
| `PathPolicy.AcceptedSegment` | internal/pathpolicy/path.go:81-109 | exactly which segments are accepted |
| `PathPolicy.DeviceNamesAreRefused` | internal/pathpolicy/path.go:128-152 | a device name in any case, with or without an extension, is refused |
| `PathPolicy.WordsAreAccepted` | internal/pathpolicy/path.go:81-109 | every word of five or more ASCII letters and digits is accepted |
| `PathPolicy.CanonicalPathMeans` | internal/permission/authorize.go:68-83 | canonicalPath gives back what it is given or nothing, and that is rooted and made of valid segments |
| `PathPolicy.MatchesIsPrefix` | internal/permission/authorize.go:84-86 | the permission test, which is also the archive's within, is the prefix relation on segment lists |
| `PathPolicy.SelectedIsPrefix` | internal/httpapi/archives.go:130 | so is the archive selection test |
| `PathPolicy.LiterallyBelowIsProperPrefix` | internal/db/repository.go:711-716 | the emptiness test is the proper prefix relation on segment lists |
| `PathPolicy.DirectChildIsOneLonger` | internal/httpapi/files.go:181-190 | the listing test means one segment longer, except that the root counts as its own child |
| `PathPolicy.SafeLogicalMeans` | internal/archive/archive.go:342-352 | the archive's path check accepts exactly rooted paths without dot segments, backslash and NUL; path.Clean rejects nothing more |
| `PathPolicy.CleanRules` | internal/archive/archive.go:351-351 | path.Clean drops empty and dot segments, resolves dot-dot against the segment before it and drops it at the root |
| `PathPolicy.CanonicalIsSafe` | internal/archive/archive.go:342-352 | every canonical path passes it |
| `PathPolicy.SplitJoin` | internal/pathpolicy/path.go:72-78 | splitting the joined segments gives them back |
| `PathPolicy.JoinSplit` | internal/pathpolicy/path.go:72-78 | joining the split text gives it back |
| `Authorization.Authorize` | internal/permission/authorize.go:30-67 | error if and only if the path or a prefix of the asked action is not canonical; else, with d a matching rule than which none has a longer prefix, allowed if and only if no rule of that action and of d's prefix denies; without a match not allowed |
| `Authorization.LongestPrefixDecides` | internal/permission/authorize.go:45-66 | a rule with the longest matching prefix settles the answer together with the rules of the same prefix |
| `Authorization.LongestExists` | internal/permission/authorize.go:54-63 | where a rule matches there is one with a longest prefix, so the two cases of Authorize are all |
| `Authorization.LongerIsMoreSpecific` | internal/permission/authorize.go:57-63 | of two matching prefixes the longer string is the one with more segments |
| `Authorization.OrderIsIrrelevant` | internal/permission/authorize.go:45-66 | any order of the rows gives the same answer, error or not |
| `Authorization.AddingRule` | internal/permission/authorize.go:54-66 | another allow never revokes, another deny never grants |
| `ArchiveManager.LeavesRunningOnce` | internal/archive/archive.go:195-237 | in any run a job leaves Running at most once |
| `ArchiveManager.SettledIsFinal` | internal/archive/archive.go:293-325 | a settled job never changes until it is dropped, and its id never returns |
| `ArchiveManager.CancelledNeverCompletes` | internal/archive/archive.go:213-219 | a job cancelled while running never completes |
| `ArchiveManager.ArtifactsAreAccountedFor` | internal/archive/archive.go:195-237 | a file on disk belongs to a complete job or a build in progress, one only, if and only if no failed Stat has leaked it |
| `ArchiveManager.CompleteJobHasItsArtifact` | internal/archive/archive.go:302-310 | a complete job's artifact is on disk |
| `ArchiveManager.BuildFindsItsJob` | internal/archive/archive.go:206-212 | the job of a build in progress is there and running: the missing-job branch is dead |
| `ArchiveManager.NothingLeftAfterClose` | internal/archive/archive.go:99-117 | after Close no job and no artifact remains or appears, leaked ones apart |
| `ArchiveManager.LeakFreeIff` | internal/archive/archive.go:228-233 | a run leaks a file if and only if it settles a successful, uncancelled build whose Stat fails |
| `ArchiveManager.LeakIsReachable` | internal/archive/archive.go:228-233 | a run that leaks a file |
| `ArchiveManager.CloseEmptiesTheDisk` | internal/archive/archive.go:99-117 | Close leaves no file if and only if that never happened |
| `ArchiveManager.AbandonStrands` | internal/archive/archive.go:164-173 | a create given up before its send leaves a running job that is no task |
| `ArchiveManager.StrandedStays` | internal/archive/archive.go:311-325 | such a job stays until Close, whatever is cancelled or cleaned up |
| `ArchiveService.Manager.Validate` | internal/archive/archive.go:326-341 | accepts exactly non-empty selections within both limits whose entries are safe, below the root, keyed and of non-negative size |
| `ArchiveService.TotalIsSum` | internal/archive/archive.go:330-339 | the total of a selection is the sum of its sizes, in any order |
| `ArchiveService.AcceptedPartsFit` | internal/archive/archive.go:330-339 | split anywhere, both parts of an accepted selection together stay within the byte and file limits |
| `ArchiveService.AcceptedStaysBelowRoot` | internal/archive/archive.go:326-353 | every accepted path continues the root's segments without dot segments, and no size exceeds the limit |
| `ArchiveService.Manager.Create` | internal/archive/archive.go:130-174 | a job, running and expiring after the TTL, is registered if and only if the selection is acceptable, every path authorized and the manager open; it is queued, or cancelled if the caller gives up; any other error changes nothing |
| `ArchiveService.Manager.FinishBuild` | internal/archive/archive.go:204-237 | cancelled, failed or complete, and what happens to the temporary file in each case |
| `ArchiveService.Manager.Cancel` | internal/archive/archive.go:281-292 | cancels a running job only |
| `ArchiveService.Manager.Cleanup` | internal/archive/archive.go:311-325 | drops exactly the expired jobs that are not running, with their artifacts, and counts them |
| `ArchiveService.Manager.BeginClose` | internal/archive/archive.go:100-107 | no later job, and every job there is cancelled |
| `ArchiveService.Manager.EndClose` | internal/archive/archive.go:107-116 | no job and no artifact is left, leaked ones apart |
| `Sessions.CollectionIsInvisible` | internal/auth/session.go:150-188 | at every moment of every run the store answers for every id as if nothing had ever been collected |
| `Sessions.CallAnswersLikeReference` | internal/auth/session.go:132-141 | a UserID call answers as the reference does at its lookup, or at its clock reading when that finds the session expired |
| `Sessions.OneCollector` | internal/auth/session.go:150-172 | at most one collector is active |
| `Sessions.MemorySessionStore.DeleteExpired` | internal/auth/session.go:263-280 | deletes only expired sessions, at most limit, and all of them if fewer |
| `Sessions.MemorySessionStore.RunGC` | internal/auth/session.go:165-188 | a fault-free drain removes exactly the expired sessions in floor(expired/64) + 1 passes |
| `Sessions.MemorySessionStore.DeleteForUser` | internal/auth/session.go:255-261 | deletes exactly the user's sessions |
| `Sessions.SessionManager.UserID` | internal/auth/session.go:132-141 | accepts exactly the sessions granted, not revoked and unexpired; deletes an expired one |
| `Sessions.SessionManager.ScheduleGC` | internal/auth/session.go:150-160 | starts a collector if and only if none runs and the manager is open |
| `Sessions.SessionManager.RevokeUser` | internal/auth/session.go:127-130 | no session of the user is accepted afterwards |
| `UploadLimiter.CapsHold` | internal/limits/limiter.go:40-82 | at every step each counter is its live leases within its cap and never a stored zero; both sums are the live leases, which the occupied slots cover within the capacity |
| `UploadLimiter.ReceiveNeverBlocks` | internal/limits/limiter.go:65-82 | giving a slot back never blocks |
| `UploadLimiter.Limiter.TryAcquire` | internal/limits/limiter.go:40-63 | grants if and only if all three limits have room, and then counts one slot, one for the user and one for the IP; else changes nothing |
| `UploadLimiter.Lease.Release` | internal/limits/limiter.go:65-82 | the first call frees all three counts, later ones change nothing |

## Left out

- HTTP decoding, status codes, middleware, cookies, logging, audit, metrics, pages: no invariant of their own.
- System calls, flock, fsync and SQLite are atomic steps that take effect or fail; an error of the repository means that nothing was committed. The files of `internal/storage/objects_windows.go` are not part of this model.
- The checks right after a locked re-read (status, expiry, presence and length of the staging file) are one step with it. The flock and the in-process mutex are one lock.
- Upload ids, session ids, ticket numbers and object keys are fresh. SHA-256 and MD5 are arbitrary functions; NFC and UTF-8 validity are arbitrary but for what `PathPolicy.Lawful` asks of NFC.
- Integers are unbounded: lengths and offsets stay within int64 by the checks that are modelled.
- Leak freedom: a crash between publication and its transaction leaves an object without a row, as in the code.
- Recovery's directory listing is any list of staging names within the limit; two runs are compared given the same listing.
- HubStore.Store.RestorePublished: an fsync error after the rename counts as success, because only the returned text differs.
- UploadManager.Manager.Create: the expiry is computed before the staging file is made rather than after it.
- UploadManager.Manager.Get: what a disturbed cleanup of a dead session leaves is not stated, because the code ignores its error.
- The ticker loop around a batch of MD5 tasks; the context is checked where the claim loop checks it, not inside a call.
- Sessions.SessionManager.UserID: lookup and clock reading at one moment; apart they are the subject of `Sessions.CallAnswersLikeReference`.
- Sessions: graceful shutdown with its timeout is not modelled, `Close` only stops later collectors.
- UploadLimiter.Limiter.TryAcquire: the call runs without interruption; its single steps interleave in the machine.
- ArchiveManager: removing an artifact succeeds; the contents of the ZIP file and its context checks are one result, failed or not.
- The preflight checks of createFile and createDirectory on parents and paths outside `DirectoryTree`: the statements behind them decide.
- DirectoryTree: tombstones count as files in both checks, `FileByRootAndPath` would miss them before the trigger refuses; patterns over SQLite's LIKE length limit are not modelled.
- UploadClient.Selected.Run: the retry queue and its pause states around the loop; a chunk size is positive.
- Passwords, bootstrap, site settings and assets, ranges, log rotation: easier members only.
