# CloudBox, verified

A Dafny model of the state machines inside CloudBox's Go backend: the
deduplicated object store with its folder forest, the chunked upload protocol,
the background job queue, the virus-scan gate, and the limits on public shares.
`dafny verify dfyconfig.toml` checks everything.

## How it is modelled

*Tables* are maps. One SQL statement or one transaction is one function on the
tables (`Tables`, `JobQueue`, `ShareSlots`, `Collections`); the classes
`FileRepository`, `JobRepository`, `FileService`, `FolderService`,
`ShareService`, `Upload`, `AccessControl` and `RedisAccessControl` carry the Go
methods, statement by statement with their loops, and are proved against those
functions. What the functions themselves do is stated again without them, in terms of
the tables: `FileCalls` and `FolderTree` for files and folders, `MayHave` and its kin in
`ShareServices` for what a visitor may have, `WaitedLongest` for the queue.

*Concurrency* is a deterministic `Step` over a state and an event, and `Run` over
a sequence of events. Every call has a program counter; each statement, storage
call, clock reading or handler run is a step of its own, and events pick whose
step comes next, so a theorem about all event sequences is a theorem about all
interleavings. A call that is left alone does what the service call is for
(`UploadProgress`, `UploadAlone`, `ObjectStoreAlone`, `ScanGateAlone`,
`JobWorkers.TurnAloneIsTheCall`, `ShareSlots.SaveAlone`), and an event whose call is
accepted takes effect (`RunSteps`). An event that does not apply leaves the state alone. Fields marked
as history in comments are read by no step.

*SHA-256* is a function value, taken as free of collisions only where a lemma says
`Injective`. Ids are never reused (both schemas number them with AUTOINCREMENT or
IDENTITY); uuid paths and share tokens are fresh.

| module | what it covers |
|---|---|
| `RateLimit`, `Lockout`, `LockoutRaces`, `AccessControls` | the download window and the password lockout, in process and as Redis scripts, and visits that interleave |
| `Chunking`, `Uploads`, `UploadClients`, `UploadProtocol`, `UploadProgress`, `UploadAlone` | slices and merging, one client's upload, chunks in any order, every interleaving on one task, and calls left alone |
| `Tables`, `References`, `FileCalls`, `FileRepositories`, `FileServices` | file tables, exact reference counts, what each call leaves in the tables, the repository and the service |
| `ObjectStore`, `ObjectStoreProofs`, `ObjectStoreResults`, `ObjectStoreAlone` | uploads, instant uploads, batches, thumbnails and permanent deletes interleaved, and that a call left alone is the service call |
| `Folders`, `FolderTree`, `FolderSizes`, `FolderMoves` | the forest, the folder calls, the recursive size query, what a move does to all sizes |
| `Usage`, `BatchQuota` | quota, usage and its cache, and the quota test of a batch |
| `JobQueue`, `JobWorkers` | jobs, and any number of workers |
| `ScanGate`, `ScanGateProofs`, `ScanGateAlone` | scans and everything that opens content |
| `ShareSlots`, `Collections`, `ShareServices` | download slots, collections, looking, opening and saving |
| `RunSteps` | that the events of the runs take effect |
| `Options`, `Totals` | options, results, sums over tables |

## Where the code and its description differ

* README.md of the repository allows 20 downloads per minute. The window is fixed,
  not sliding: 39 can fall into one minute (`RateLimit.ThirtyNineInOneMinute`), and
  never more (`RateLimit.SlidingMinuteBound`). `RateLimit.TwentyPerMinuteIff` says
  when the next minute is bounded by 20.
* The Redis lockout forgets failures after ten minutes and the in-process one does
  not; they disagree exactly as `Lockout.FiveInARow` and
  `Lockout.FailureKeepsAgreementIff` say, and the bounds are 8 and 5 failures.
* Storage is not at every moment exactly what rows name and calls hold:
  `CreateFileObject` inserts and selects in two statements, so an upload may delete
  a path that a permanent delete has already taken over
  (`ObjectStoreResults.StorageIsNotAlwaysExact`). A run is exact throughout if and
  only if no upload does so (`ObjectStoreResults.ExactIffNeverTakenBack`); nothing is
  lost or leaked by it.
* A retry waits from the clock read before the failure is recorded
  (`JobWorkers.RetriesBackOff`), so counted from the record it can come early
  (`JobWorkers.ClaimedAgainAtOnce`, `JobWorkers.DueEarlyIffClockMoved`).
* A resumed upload is matched by name, size and folder, not by content; it yields the
  chosen file exactly when the parts already there are its slices
  (`Uploads.ResumedIsTheFileIff`), and a task begun with another file of the same size
  is accepted and does not (`UploadClients.ResumeWithAnotherFile`; two bytes are enough,
  `UploadClients.TwoBytesAreMixedUp`).
* The documented quota counts trash. Single uploads keep it
  (`Usage.SingleCallsKeepQuota`); a batch save leaves trash out. Every batch the code
  accepts keeps a user within quota if and only if the user's trash holds no bytes
  (`BatchQuota.BatchQuotaIffNoTrash`; `BatchQuota.BatchPassesQuota` is a failing one).
* Visits that interleave can clear a live lock, which visits one at a time never do:
  an admitted visit that tested the lock before the fifth failure clears what that
  failure locked, exactly as `LockoutRaces.AdmittedVisitClearsALiveLockIff` says
  (`LockoutRaces.InterleavedClear` is a run of it). With Redis a lock outlives every
  clear (`Lockout.RedisLockSurvives`).
* A collection is checked and then inserted. It comes out whole if and only if no
  member is in trash or gone at the insert (`Collections.CreatedIsWholeIff`,
  `Collections.TrashBetweenCheckAndInsert`).
* Two folder moves that both pass their checks can make a cycle
  (`Folders.TwoMovesCanMeet`); a move keeps the forest exactly as
  `Folders.MoveKeepsForestIff` says.

## Model

| member | source | states |
|---|---|---|
| RateLimit.SlidingMinuteBound | internal/share/access_control.go:96-113 | in any key's history under a clock that never goes back, every half-open minute holds at most 39 allowed downloads |
| RateLimit.ThirtyNineInOneMinute | internal/share/access_control.go:96-113 | a concrete history with 39 allowed downloads in one minute, so the documented 20 is not a sliding bound and 39 is the best one |
| RateLimit.TwentyPerMinuteIff | internal/share/access_control.go:96-113 | from any window of a key, whatever comes in the minute that starts now is bounded by 20 exactly when no window opened earlier with room left is still running |
| RateLimit.FirstTwentyAreAllowed | internal/share/access_control.go:96-113 | of the requests in the minute from the one that opens a window exactly the first twenty are allowed, however they are spread |
| RateLimit.KeysAreIndependent | internal/share/access_control.go:96-113 | requests of other keys change neither the answers nor the counts of a key |
| RateLimit.RedisAnswersAlike | internal/share/access_control.go:159-168 | the INCR/EXPIRE script gives the same answers as the in-process window to every sequence of requests |
| Lockout.LockoutBound | internal/share/access_control.go:115-138 | in process, any ten minutes without a clear count at most 5 failures of a key |
| Lockout.RedisLockoutBound | internal/share/access_control.go:170-184 | with the Redis script, whose failure count expires, at most 8 |
| Lockout.EightFailuresInTenMinutes | internal/share/access_control.go:170-184 | a history in which Redis does count 8, so the bound is the best one |
| Lockout.FiveInARow | internal/share/access_control.go:170-184 | five failures lock in process; they lock in Redis if and only if the first has not expired by the last |
| Lockout.FailureKeepsAgreementIff | internal/share/access_control.go:122-138 | one more failure keeps both controllers in agreement if and only if the failure count has not just expired |
| Lockout.LiveLockIsHonoured | internal/share/service.go:520-543 | calls taken one at a time never clear a live lock: every visit before its end is turned away and changes nothing |
| Lockout.VisitIsJudged | internal/share/service.go:520-543 | outside a lock the fifth wrong password locks for ten minutes, an earlier one counts once more, other refusals change nothing, an admission forgives |
| LockoutRaces.AdmittedVisitClearsALiveLockIff | internal/share/service.go:520-543 | with lock test and update of an admitted visit as separate steps and any visits in between, the clear removes a live lock if and only if a fifth failure came in between, nothing cleared after it, and its ten minutes still run |
| LockoutRaces.ShortVisitClearsALiveLockIff | internal/share/service.go:520-543 | in a visit shorter than a lock, if and only if the wrong passwords counted since the last clear have come to five |
| LockoutRaces.InterleavedClear | internal/share/service.go:520-543 | a run from an untouched key in which an admitted visit clears a lock set a moment before |
| AccessControls.AccessControl.AllowDownload | internal/share/access_control.go:96-113 | the map after the call is the window function's, for this key and unchanged for all others |
| AccessControls.AccessControl.PasswordLocked | internal/share/access_control.go:115-120 | locked exactly while the key's lock time lies ahead |
| AccessControls.AccessControl.RecordPasswordFailure | internal/share/access_control.go:122-138 | one failure recorded for the key, other keys untouched |
| AccessControls.AccessControl.ClearPasswordFailures | internal/share/access_control.go:140-145 | the key's entry is gone, all others stay |
| AccessControls.KeysNeverCollide | internal/share/access_control.go:230-240 | the Redis keys of different kinds, tokens or IP hashes differ |
| AccessControls.RedisAccessControl.AllowDownload | internal/share/access_control.go:159-168 | the script on raw keys is the counter function of the pair |
| AccessControls.RedisAccessControl.RecordPasswordFailure | internal/share/access_control.go:170-184 | the script on raw keys is the failure function of the pair |
| AccessControls.RedisAccessControl.ClearPasswordFailures | internal/share/access_control.go:223-228 | only the failure count is deleted, never the lock |
| Chunking.ChunkBounds | internal/upload/service.go:234-240 | every expected chunk size lies in 1..chunkSize and no intermediate value leaves int64 |
| Chunking.SliceHasExpectedSize | web/src/api/client.ts:257-264 | each slice the client cuts has the size the server expects |
| Chunking.SlicesMakeTheFile | web/src/api/client.ts:257-264 | the slices in order are the content, for any content and chunk size |
| Chunking.SizesAddUp | internal/upload/service.go:381-455 | expected sizes add up to the file size without int64 overflow |
| Chunking.NumbersAreAllPresent | internal/upload/service.go:403-410 | N distinct sorted chunk numbers below N are 0..N-1, so the merge's number check never fires |
| Chunking.MergeChunks | internal/upload/service.go:381-455 | merging succeeds exactly when every part has its recorded size and hash, and then yields their concatenation; the checks on chunk number and total size are dead |
| Uploads.MergeableIffAllPresent | internal/upload/service.go:275-290 | a task's chunk rows can be merged exactly when all chunks are there |
| Uploads.Upload.UploadChunk | internal/upload/service.go:152-232 | a chunk is taken exactly when the task is open, its number in range and its size as expected, and replaces an earlier body of the same number |
| Uploads.Upload.Complete | internal/upload/service.go:242-325 | completes exactly when all chunks are there and the declared hash, if any, matches; otherwise the task is open again |
| Uploads.Upload.Cancel | internal/upload/service.go:327-347 | an open task fails for good and its chunks go |
| Uploads.SendMissing | web/src/api/client.ts:257-264 | the client's loop sends exactly the slices the server does not list |
| Uploads.ResumedIsTheFileIff | web/src/api/client.ts:236-249 | a resumed upload yields the chosen file if and only if the parts already there are its slices |
| Uploads.UploadFile | web/src/api/client.ts:221-266 | from any state of an open task the upload completes unless a declared hash or the save refuses it, and yields the parts already there and the file's slices for the rest |
| UploadClients.InitInFolder | internal/upload/service.go:87-150 | a task is made exactly for a name, positive sizes, a folder of the user and room in the quota, and is what all later calls on it rely on |
| UploadClients.UploadNewFile | web/src/api/client.ts:211-266 | a file uploaded as a new task comes out as it is, whatever the sizes; only the first checks, a wrong declared hash or the save stop it |
| UploadClients.ResumeWithAnotherFile | web/src/api/client.ts:230-241 | a two-chunk task whose first chunk came from another file of the same size is accepted and does not yield the chosen file |
| UploadClients.AnyOrderMakesTheFileIff | internal/upload/service.go:152-232 | after any chunks in any order, repeated or refused, all chunks are there exactly when each number was taken once, and make the file exactly when the last body taken for each number is its slice |
| UploadClients.UploadInAnyOrder | internal/upload/service.go:152-325 | chunks sent so and then completed: the file comes out exactly in that case, unless a declared hash or the save refuses it |
| UploadProtocol.RunKeepsInv | internal/upload/service.go:152-379 | what every interleaving of UploadChunk, Complete, Cancel and CleanupExpired on a task keeps |
| UploadProtocol.OneCallOwnsTheTask | internal/upload/service.go:242-325 | at most one call owns `completing`, and the temp directory is there while it merges |
| UploadProtocol.FinalTransitionAlwaysSucceeds | internal/upload/service.go:311-319 | the owner's last compare-and-set always succeeds, so its failure branch is dead |
| UploadProtocol.TerminalIsForever | internal/upload/repository.go:161-179 | failed and completed are never left again |
| UploadProtocol.AtMostOneFileIsCreated | internal/upload/service.go:300-325 | at most one user file per task, and none unless the task completes |
| UploadProtocol.CreatedFileIsMadeOfWholeBodies | internal/upload/service.go:177-218 | each chunk inside a created file is one single call's body, never a mix of concurrent writers of one temp file, and a declared hash is the file's |
| UploadProtocol.OnlyTheFileComesOut | internal/upload/service.go:381-455 | when all bodies sent are slices of one content, any created file is that content |
| UploadProgress.CompleteAloneSucceeds | internal/upload/service.go:242-325 | a Complete of an open task that nothing disturbs, whatever each read transfers, ends it with the file of the stored parts if all are there, a declared hash fits and the file is accepted; otherwise the task is open again with all it had |
| UploadProgress.CancelAloneIsTheCall | internal/upload/service.go:327-347 | a Cancel that nothing disturbs fails an open task and removes its directory, and leaves any other as it is |
| UploadAlone.RunKeepsDisk | internal/upload/service.go:177-208 | in every reachable state no temp file shares its inode with a part or another temp file |
| UploadAlone.ChunkAloneIsTheCall | internal/upload/service.go:152-232 | in every reachable state an UploadChunk call left alone, whatever each write transfers, stores exactly its body and records its size and hash when the task is open, the chunk fits and the connection holds; otherwise rows and parts stay as they were |
| UploadAlone.SentIsTaken | internal/upload/service.go:152-232 | after any chunk calls one by one the machine holds the rows and parts that the service class holds |
| UploadAlone.SentChunksMakeTheFile | internal/upload/service.go:152-325 | chunk calls in any order, repeated or refused, then a Complete: one file comes of it exactly when every number was taken, a declared hash fits and the file is accepted; it is made of the last bodies taken, and is the content exactly when these are its slices; otherwise the task is open as before |
| FileRepositories.FileRepository.FindFileObjectByHash | internal/file/repository.go:701-726 | finds the one object with the hash, if there is one |
| FileRepositories.FileRepository.CreateFileObject | internal/file/repository.go:681-699 | inserts a new object with no reference and reads that row back, or, when the hash exists, changes nothing |
| FileRepositories.FileRepository.CreateWithObjectInFolder | internal/file/repository.go:741-795 | one file and one reference more, or a full rollback |
| FileRepositories.FileRepository.InsertReferences | internal/file/repository.go:854-889 | the insert loop equals the recursive batch, row by row, and stops at the first failure |
| FileRepositories.FileRepository.CreateManyWithObjectsInFolder | internal/file/repository.go:800-895 | all rows of the batch with consecutive ids, or the tables exactly as before, with the reason |
| FileRepositories.FileRepository.SumActive | internal/file/repository.go:842-845 | the sum over the user's active files, trash left out |
| FileRepositories.FileRepository.SoftDeleteWithShareOption | internal/file/repository.go:347-382 | the file is in trash, its collections are gone, its shares too unless kept; or nothing changed |
| FileRepositories.FileRepository.PermanentlyDeleteDeleted | internal/file/repository.go:437-547 | succeeds on exactly the files in their owner's trash, returns the paths to remove when the last reference went; the count guard is dead |
| FileRepositories.FileRepository.CreatePendingFileScan | internal/file/repository.go:137-160 | a pending row for an object without one, an existing row kept, refused without the object |
| References.InsertObjectKeeps | internal/file/repository.go:681-699 | hashes and paths stay unique, counts exact |
| References.AddReferenceKeeps | internal/file/repository.go:741-795 | the count grows with the file, even when the caller's snapshot is stale |
| References.AddReferencesKeep | internal/file/repository.go:854-889 | counts stay exact when one batch names an object several times |
| References.AddReferencesAppend | internal/file/repository.go:854-889 | one new row per item, in order, and no other row changes |
| References.FileUpdatesKeep | internal/file/repository.go:347-435 | trash, restore, move and rename touch no reference |
| References.PurgeKeeps | internal/file/repository.go:493-537 | counts, hashes, paths and previews stay consistent over a permanent delete |
| References.PurgeDropsExactlyTheLast | internal/file/repository.go:493-537 | the count guard never fails, and the object row goes exactly when no other file is on it |
| FileCalls.TrashedFile | internal/file/repository.go:347-382 | a trash happens exactly to an own active file, takes its shares unless they are kept and the collections that hold it, and no other share, collection or file |
| FileCalls.RestoredFile | internal/file/repository.go:412-435 | a restore happens exactly to an own trashed file and changes nothing but its status and time |
| FileCalls.MovedOrRenamedFile | internal/file/repository.go:1048-1100 | a move or rename happens exactly to an own active file, the move to a folder that is there, and changes its place or its name alone |
| FileCalls.PurgedFile | internal/file/repository.go:437-547 | a permanent delete happens exactly to an own trashed file: the file, its shares and its places in collections go, the object loses one reference, and goes with preview and scan exactly with its last file; nothing else changes |
| FileCalls.UploadedFile | internal/file/service.go:168-248 | an upload is accepted exactly with a name, an own folder or the root and room in the quota, and adds one file of this owner, place, name, size, path and type on the object with the content's hash, known or new |
| FileCalls.InstantFile | internal/file/service.go:657-705 | an instant upload is accepted exactly with a name and the hash of an object that is there, likewise, and adds one file on that object |
| FileCalls.BatchIsAcceptedIff | internal/file/repository.go:800-895 | when a batch is accepted: something asked for, names and known hashes, an own folder or the root, room beside the active bytes |
| FileCalls.BatchedFiles | internal/file/repository.go:800-895 | an accepted batch adds one file per input, in order, on the object with its hash, and changes no other file |
| FileServices.FileService.EnsureStorageQuota | internal/file/service.go:963-982 | allowed exactly when the user's active and trashed bytes leave room |
| FileServices.FileService.UploadIntoFolder | internal/file/service.go:168-248 | the upload's new tables; the bytes are kept exactly when the content is new; a refused upload leaves tables, storage and cache alone |
| FileServices.FileService.InstantUploadIntoFolder | internal/file/service.go:657-705 | one more file on existing content, or nothing changed |
| FileServices.FileService.InstantUploadManyIntoFolder | internal/file/service.go:707-756 | all inputs saved in order, or nothing changed |
| FileServices.FileService.PermanentlyDelete | internal/file/service.go:594-629 | rows, then the object's and its preview's bytes, exactly when the last reference went |
| FileServices.FileService.CleanupDeletedBefore | internal/file/service.go:631-651 | exactly the files in trash whose time of deletion lies before the given one go, and every other file stays as it is |
| FileServices.FileService.GenerateThumbnail | internal/file/thumbnail.go:113-168 | a first preview is saved and linked, anything else leaves tables and storage alone |
| FileServices.FileService.GetStorageUsage | internal/file/service.go:920-955 | reports the true usage from a cache that is true, and keeps it true |
| ObjectStoreProofs.OtherSurvives | internal/file/service.go:188-236 | no step of one call invalidates what another call knows or holds |
| ObjectStoreProofs.RunKeepsInv | internal/file/service.go:188-236 | what every interleaving of uploads, instant uploads, batches, thumbnails and permanent deletes keeps |
| ObjectStoreResults.LiveFilesKeepTheirBytes | internal/file/service.go:452-483 | in every reachable state each file row, trashed or not, has its bytes, of the recorded hash and size, so verification never fails on them |
| ObjectStoreResults.CountsAreExact | internal/file/repository.go:741-795 | reference_count is the number of files on the object, in every reachable state |
| ObjectStoreResults.StoredIsNamedOrHeld | internal/file/service.go:594-629 | every named path is stored; every stored path is named by a row or held by a call in flight |
| ObjectStoreResults.NothingLeaksAtRest | internal/file/service.go:594-629 | when all calls have returned, storage is exactly what the rows name |
| ObjectStoreResults.CallsEnd | internal/file/service.go:168-248 | every step of a call shortens what it has left, so each call returns whatever the others do |
| ObjectStoreResults.ExactUnlessTakenBack | internal/file/service.go:208-226 | from a state where storage is exactly named and held paths, a step keeps it so if and only if it is not an upload deleting a file it had given to a row that is gone |
| ObjectStoreResults.ExactIffNeverTakenBack | internal/file/service.go:208-226 | over a whole run storage is exactly the named and held paths at every moment if and only if no event of the run is such a deletion |
| ObjectStoreResults.StorageIsNotAlwaysExact | internal/file/repository.go:681-699 | a reachable state in which a permanent delete still holds a path the upload has removed |
| ObjectStoreAlone.UploadAloneIsTheCall | internal/file/service.go:168-248 | an upload of the interleaved machine, left alone, ends with the tables of the service call and keeps its bytes exactly when accepted with new content |
| ObjectStoreAlone.InstantAloneIsTheCall | internal/file/service.go:657-705 | the same for an instant upload |
| ObjectStoreAlone.PurgeAloneIsTheCall | internal/file/service.go:594-629 | the same for a permanent delete, bytes of object and preview included |
| ObjectStoreAlone.BatchAloneIsTheCall | internal/file/service.go:707-756 | the same for a batch: all lookups, then the transaction, or nothing |
| ObjectStoreAlone.ThumbnailAloneIsTheCall | internal/file/thumbnail.go:113-168 | a thumbnail call left alone saves the image and makes it the preview, exactly of an active image or video file without one |
| ObjectStoreAlone.RunIsAlone | internal/file/service.go:168-248 | events that advance one call only are that call left alone |
| Folders.NoLoop | internal/file/service.go:862-902 | two folders below each other are the same |
| Folders.SubtreeMovesAlong | internal/file/repository.go:1128-1152 | a moved folder keeps its descendants, all of them and no others |
| Folders.MoveKeepsForestIff | internal/file/repository.go:1128-1152 | the UPDATE keeps the table acyclic if and only if the new parent is not the folder or one of its descendants at that moment |
| Folders.TwoMovesCanMeet | internal/file/service.go:862-902 | two moves that both pass their checks first make a cycle |
| FolderTree.FolderService.HasSibling | internal/file/service.go:776-782 | the loop finds a taken name exactly when there is one |
| FolderTree.FolderService.CreateFolder | internal/file/service.go:758-785 | creates or refuses exactly as required: name, parent, siblings, in this order |
| FolderTree.FolderService.RenameFolder | internal/file/service.go:834-860 | renames unless a sibling has the name |
| FolderTree.FolderService.MoveFolder | internal/file/service.go:862-902 | the ancestor walk ends and reports a cycle exactly when the destination is the folder or a descendant; an accepted move gives the folder this parent and changes no other row |
| FolderTree.CreatedFolder | internal/file/service.go:758-785 | a folder is created exactly for a name that is free in an own folder or the root, and one new row with this owner, parent and name is all that changes |
| FolderTree.RenamedFolder | internal/file/service.go:834-860 | a rename happens exactly for an own folder and a name no sibling has, and changes the name alone |
| FolderTree.MovedFolder | internal/file/service.go:862-902 | a move happens exactly for an own folder, to the root or an own folder outside its subtree where its name is free; the folder gets this parent, is listed there and nowhere else, and nothing else changes |
| FolderTree.DeletedFolder | internal/file/service.go:904-918 | a delete happens exactly for an own folder that holds nothing and that no upload task refers to; the folder goes and nothing else |
| FolderTree.FolderService.DeleteFolder | internal/file/service.go:904-918 | only a folder without subfolders and without files, trashed ones included, goes |
| FolderTree.RunKeepsTree | internal/file/service.go:758-918 | over every run of folder and file calls: a forest without dangling or foreign parents, unique sibling names, every file in an existing folder of its owner |
| FolderTree.RestoreBringsItBack | internal/file/repository.go:347-435 | trash, any run of other calls, restore: the record is exactly as before and its folder is there |
| FolderSizes.Descendants | internal/file/repository.go:939-991 | the recursive UNION ALL ends, and its rows are exactly the folders of each subtree, each once |
| FolderSizes.ListFolders | internal/file/repository.go:930-1000 | each listed size is the sum of the active files in or below the folder |
| FolderSizes.SizeIsOwnPlusChildren | internal/file/repository.go:939-991 | a folder's size is its own files' plus its subfolders' sizes |
| FolderSizes.RootSizesAddUp | internal/file/repository.go:939-991 | root folder sizes plus active root files are all of the user's active bytes |
| FolderSizes.MovePreservesSizes | internal/file/service.go:862-902 | a legal move keeps the moved folder's size and the total of the root folders |
| FolderMoves.MoveShiftsSizes | internal/file/service.go:862-902 | an accepted move takes the folder's size from every folder above its old place, gives it to every folder above its new one, and leaves all other listed sizes as they were |
| Usage.QuotaTestIsExact | internal/file/service.go:976-979 | the subtraction form decides used + additional <= quota without overflow |
| Usage.CacheStaysTrue | internal/file/service.go:920-961 | after any run of calls each cached usage is the sum of active and trashed sizes |
| Usage.UpdatesKeepBytes | internal/file/repository.go:347-435 | trash, restore, move and rename leave every user's usage as it was |
| Usage.PurgeFreesBytes | internal/file/repository.go:437-547 | a permanent delete frees the file's size for its owner alone |
| Usage.SingleCallsKeepQuota | internal/file/service.go:963-982 | any run of single uploads, instant uploads, trash, restore, move, rename and permanent delete stays within fixed quotas |
| Usage.BatchKeepsActiveQuota | internal/file/repository.go:842-852 | an accepted batch leaves the active bytes within the quota |
| BatchQuota.BatchMeetsQuotaIff | internal/file/repository.go:842-852 | an accepted batch leaves the user within the documented quota if and only if the test of single uploads would have let its sizes through |
| BatchQuota.BatchQuotaIffNoTrash | internal/file/repository.go:842-852 | from consistent tables with the user within quota, every batch the code accepts leaves the user within quota if and only if the trash holds no bytes |
| BatchQuota.CopiesAreAccepted | internal/file/repository.go:842-889 | an object that is there, even a trashed file's, can be saved as often as the active bytes leave room |
| BatchQuota.BatchPassesQuota | internal/file/repository.go:842-852 | consistent tables and a batch of two that is accepted and passes the documented quota |
| JobQueue.DelayDoublesUpTo32 | internal/job/runner.go:186-195 | the delay after attempt k is min(2^(k-1), 32) seconds |
| JobQueue.FirstHasWaitedLongest | internal/job/repository.go:62-68 | the first of the order is exactly a due job such that no due job is due earlier, nor created earlier among those due at the same moment |
| JobQueue.JobRepository.ClaimNext | internal/job/repository.go:62-79 | claims a job that is due and has waited longest, by due time and then creation, exactly when any job is due |
| JobQueue.JobRepository.Fail | internal/job/repository.go:100-124 | a running job is queued again, or failed after its last attempt |
| JobQueue.JobRepository.ProcessNext | internal/job/runner.go:104-161 | one turn leaves the due job that has waited longest succeeded, queued at least a second later, or failed after its last attempt, and no other job changed |
| JobWorkers.EachRunningJobHasOneHolder | internal/job/runner.go:104-161 | with any workers each running job has exactly one holder whose update applies, queued jobs have attempts left, failed jobs have none |
| JobWorkers.LongestWaitingIsClaimed | internal/job/repository.go:62-79 | with any workers a claim takes effect exactly for a due job that has waited longest by the clock its worker has read, and a worker goes idle exactly when nothing is due |
| JobWorkers.TurnAloneIsTheCall | internal/job/runner.go:104-161 | a turn of the interleaved machine left alone leaves the job succeeded, queued for its backoff or failed after its last attempt, and no other changed |
| JobWorkers.ClaimsAreBounded | internal/job/repository.go:62-79 | a job is claimed exactly as often as its attempts say, at most max_attempts, and all claims together at most the sum of the limits |
| JobWorkers.RetriesBackOff | internal/job/runner.go:120-135 | any later claim reads a clock at least the delay past the one read at the failure |
| JobWorkers.DueEarlyIffClockMoved | internal/job/runner.go:124-128 | counted from the record, a job can be due early if and only if the clock moved between the reading and the record |
| JobWorkers.ClaimedAgainAtOnce | internal/job/runner.go:124-128 | a run in which a job is claimed again at the moment its failure is recorded |
| ScanGateProofs.KnownSurvives | internal/file/service.go:350-450 | what a call has read and checked stays good however it is overtaken |
| ScanGateProofs.RunKeepsInv | internal/file/service.go:485-553 | what every interleaving of scans, reads, thumbnails, uploads and deletes keeps |
| ScanGateProofs.OnlyCleanObjectsAreRead | internal/file/service.go:350-450 | whoever reads, privately or by share, reads an object that a scan found clean and that is clean for as long as it lives, although it may be trashed or deleted between check and open; the bytes are content a scan cleared, or a thumbnail of it |
| ScanGateProofs.OnlyCleanObjectsAreDecoded | internal/file/thumbnail.go:113-168 | a thumbnail job opens, decodes and links nothing but such an object |
| ScanGateProofs.OneScanAtATime | internal/file/repository.go:162-185 | at most one scan of an object is in flight, and its row is `scanning` while the object lives |
| ScanGateProofs.VerdictsAreFinal | internal/file/repository.go:187-233 | clean and infected stay for as long as the object lives, and are what the scanner said |
| ScanGateAlone.ScanAloneRecordsTheVerdict | internal/file/service.go:485-553 | a scan of an own active file left alone, whose object is not claimed or judged, ends with the scanner's verdict in the row: clean, infected, or failed when there is none or no bytes; a clean image or video without a preview has its thumbnail job |
| ScanGateAlone.ScanAloneOfAJudgedObject | internal/file/service.go:485-553 | an object that is being scanned or judged is left as it is |
| ScanGateAlone.ReadAloneOpensCleanFiles | internal/file/service.go:350-450 | a private read left alone hands out the stored bytes exactly of an own active file whose object is clean |
| ScanGateAlone.SharedAloneOpensCleanFiles | internal/share/service.go:520-559 | a shared read likewise, whoever asks |
| ScanGateAlone.PreviewAloneOpensCleanFiles | internal/share/service.go:424-446 | the preview of a clean object likewise, to the owner or by share |
| ScanGateAlone.ThumbAloneIsTheCall | internal/file/thumbnail.go:113-168 | a thumbnail job left alone makes the preview exactly of an active image or video file with stored bytes and none yet |
| ScanGateAlone.ScanDecidesTheRead | internal/file/service.go:485-553 | after such a scan the owner and a visitor of the share read the file exactly when it was found clean |
| ScanGateAlone.UploadedScannedRead | internal/file/service.go:485-553 | a run from empty tables in which a file is uploaded, scanned, and read exactly when the scanner has found it clean |
| ShareSlots.StepKeepsInv | internal/share/service.go:465-518 | what every step of interleaved downloads, saves, creation and removal keeps |
| ShareSlots.CountsBalance | internal/share/repository.go:104-126 | download_count is reserved minus released, is delivered plus in flight, and stays within 0..max_downloads |
| ShareSlots.ReleaseIsExact | internal/share/repository.go:342-348 | the release guard and the clamp never take effect |
| ShareSlots.ReserveIff | internal/share/repository.go:104-126 | slots are reserved exactly in time and with room for them, and releasing them restores the count |
| ShareSlots.DownloadAlone | internal/share/service.go:465-518 | a download left alone takes its slots for good exactly when they are there |
| ShareSlots.SaveAlone | internal/share/service.go:570-657 | a save takes its slots before it saves and keeps them exactly when the save succeeds |
| Collections.TrashKeeps | migrations/014_share_collections.sql:21-28 | the trigger leaves no collection with a trashed member, shares kept or not |
| Collections.PurgeKeepsCollections | internal/file/repository.go:437-547 | a permanent delete shrinks no collection |
| Collections.CollectionsStayWhole | internal/share/service.go:177-224 | over every run each collection has two or more members, all active and its owner's |
| Collections.CreatedCollection | internal/share/service.go:177-224 | a collection is made exactly of two or more different own active files, with an expiry ahead and a positive limit or none; its row holds these files, the user, this limit and no download, and nothing else changes |
| Collections.CreatedIsWholeIff | internal/share/service.go:193-224 | with any run of calls between the checks and the insert, the new collection is refused exactly when a member is gone, and whole exactly when no member is in trash or gone at the insert |
| Collections.TrashBetweenCheckAndInsert | internal/share/service.go:193-224 | a run in between that trashes a member: the collection is inserted and is not whole |
| ShareServices.ShareService.CheckAccess | internal/share/service.go:680-703 | passes exactly in time, with the right password or none set, and with a slot where one is wanted; a wrong password given in time is refused as such and counts against this key alone, passing forgives it |
| ShareServices.ShareService.FindAccessibleFile | internal/share/service.go:520-559 | the file is found exactly by a visitor who is not locked out, comes in time with the right password, where a slot is wanted while there is one, and whose file is active and clean; else the first failing check |
| ShareServices.ShareService.GetPublicFile | internal/share/service.go:394-418 | the file's public face exactly to such a visitor; a wrong password is refused and counted; no slot is taken, no table changes and the limiter is not asked |
| ShareServices.ShareService.OpenPublicPreview | internal/share/service.go:424-446 | the stored preview likewise, if there is one; no slot is taken, no table changes and the limiter is not asked |
| ShareServices.ShareService.AdmitToSave | internal/share/service.go:577-626 | a save is admitted exactly to a visitor who is not locked out, comes in time, with the right password, while there is a slot, whose file is active and clean, and whom the limiter allows; other visitors' entries stay |
| ShareServices.ShareService.OpenForDownload | internal/share/service.go:465-518 | the stored content goes out exactly to a visitor who is not locked out, comes in time, with the right password, while there is a slot, whose file is active and clean, and whom the limiter allows, against exactly one slot; a wrong password is refused and counted; every refusal is the first failing check and takes none |
| ShareServices.ShareService.SaveToUserFiles | internal/share/service.go:570-657 | one more file on the shared object against one slot, for exactly such a visitor unless the upload itself is refused; otherwise the first failing check with tables and cache unchanged; a wrong password is refused and counted |
| ShareServices.ShareService.InsertCollection | internal/share/repository.go:18-41 | the transaction: a row for the collection and one per member, or nothing when the token is taken or a member is gone |
| ShareServices.ShareService.CreateCollection | internal/share/service.go:177-224 | a collection of the distinct requested files with the requested limit, made exactly when they are two or more own active files and the expiry, limit and token will do, or the first failing check |
| ShareServices.ShareService.FindCollection | internal/share/service.go:355-386 | a collection is found exactly by a visitor who is not locked out and comes in time with the right password; a wrong password is refused and counted |
| ShareServices.ShareService.GetPublicCollection | internal/share/service.go:226-243 | every active member exactly once, as stored, to exactly such a visitor; no slot is taken, no table changes and the limiter is not asked |
| ShareServices.ShareService.OpenCollectionFile | internal/share/service.go:245-288 | a member's stored content exactly to such a visitor whom the limiter allows, if the member is active and clean and a slot is left, against exactly one slot of this collection; otherwise the first failing check and no table changed |
| ShareServices.ShareService.Gather | internal/share/service.go:299-324 | a save goes on exactly for such a visitor whom the limiter allows and when all members are active and clean, and its listing shows every member exactly once |
| ShareServices.ShareService.SaveCollection | internal/share/service.go:294-353 | for exactly such a visitor, and with room for all members, saves one copy of every member on the member's own object against as many slots of this collection, unless the batch itself is refused; otherwise no file and no slot changes |
| ShareServices.SaveAllCopiesEveryMember | internal/file/repository.go:854-889 | the saved files are copies of the members, one each, on the members' own objects |

## Left out

- HTTP handlers, routing, sessions, configuration, metrics and logging: no invariant of their own.
- Accounts, invitations and administration: single-row updates.
- Local disk, MinIO, the Redis client, ffmpeg and clamd: atomic storage calls, atomic scripts, and outcomes chosen by events.
- Database, storage and cache faults, and process crashes: for instance an error on the last transition of Complete after the file exists.
- bcrypt, SHA-256 and token generation: function parameters and fresh values.
- Trimming of names, content types and hashes: they arrive trimmed, and content types in lower case.
- Access audits: taken to succeed; a slot taken before a failing audit stays reserved.
- Availability shown after an upload, and the lookups behind it.
- Search, listing order, previews' dimensions and image decoding.
- Job handlers' payload decoding and context cancellation: a handler is one step with an outcome.
- Quotas come from the users table; the fixed default used without a quota provider is the same value for all.
- In ObjectStore other services change folders and users arbitrarily, since no path depends on them.
- FolderTree, Usage, Collections, FileServices and ShareServices take service calls one at a time, and UploadClients the calls of one client; the races named above have theorems of their own.
- A claim is one atomic statement; PostgreSQL's second look under concurrent claims, which can come back empty, is not modelled.
- In ScanGate a share or collection download starts where its token has led to its file; tokens lead to one file for life.
- ShareServices.ShareService.OpenForDownload: one clock reading per call, so the code's second look that tells an expired share from an exhausted one is not reached.
- UploadClients.UploadNewFile: the browser sends files of at most 5 MiB in one request instead, which FileServices.FileService.UploadIntoFolder covers.
- Uploads.Upload.Complete: whether UploadIntoFolder accepts the merged file is a parameter.
- FileServices.FileService.UploadIntoFolder: the second look after a refused insert is dead when calls do not interleave; ObjectStore covers it.
