# Verified model of the revisioned file store and its protocols

This project models the hard core of the MySync server in Dafny 4.11: the file store with its blob and
temporary directories, the folder operations that work on byte ranges of a sorted index, chunked uploads,
manifest and listing pages, the browser grants, device enrollment, replay protection, the editor's save
protocol and the parser for TPM signing keys.

Three state machines carry the main results.

* **The store** (`Storage`, `StorageSafety`, `Runs`, `Handlers`). A state holds the SQL tables, both
  directories, the names in each directory that were changed since its last sync, the open commit, the blobs
  awaiting their unlink, the held upload guards, and a history of names, published contents and acknowledged
  bytes. SQL transactions are atomic; renaming, syncing, committing and unlinking are separate steps that may
  interleave with every other request. A crash may happen at any step: it keeps or loses each unsynced
  directory change, and turns the bytes past an upload's recorded offset into anything. A commit that reports an
  error may or may not have taken effect. The class `FileServer` holds the same fields and updates them in
  place as the handlers do; each method is proved against an effect on the state, and `Handlers` proves each
  effect to be a sequence of steps of the machine. `Runs.RequestsAreRun` turns any sequence of such requests,
  crashes and recoveries into one run of the machine, so what holds for every run holds for them. A folder
  operation is one transaction; its loop is proved iteration by iteration.
* **Browser grants and enrollment** (`Grants`, `Enrollment`), each with a class whose methods are proved equal
  to the steps, under a clock that is passed to each step. `WebUploads` puts the grants beside a run of the store.
* **The editor protocol** (`Editor`), a client whose replies may be lost against a compare-and-set server.
  `EditorStore` puts it beside a run of the store: each step of the store is, for one path, a step of that server,
  the commit of an editor's save is its accepting step, and the editor's guarantee is stated of that commit.

What the steps mean is stated field by field, apart from the functions that define them: `Transactions` and `Effects`
say what each transaction and each handler changes and what it leaves alone, `GrantLaws` and `EnrollmentLaws` say
which earlier steps of a run every grant, upload, ticket, verification and approval rests on, and
`Transactions.ContentLostExactly` is the conservation law of the store.

Conventions: paths are byte strings in `memcmp` order; UUIDs and random secrets are names not used before;
SHA-256 is an arbitrary function parameter, and the one result that needs injectivity states the colliding pair
as its alternative; times are integers; integers are unbounded except where the eight-byte encodings of a
snapshot make the 64-bit range matter.

Where a property fails, the exact condition is proved. Replay protection needs each request to record its nonce
less than 30 seconds after its own freshness check; `Nonces.DelayBoundIsExact` shows that 30 is the largest
bound that works. The editor does not give back every file it loads: `Editor.RoundTripsWhenUniform` shows that
the bytes return if and only if all line breaks are of the kind chosen for the file, and
`Editor.MixedFileChanges` gives a file where they do not; the editor's guarantee is therefore about the text after
its line breaks are normalised.

A chunk request that is cancelled releases its guard while a write or a truncation may still be on its way, and a
rename does not keep it from landing. The store's machine has no such step; what its theorems say of file contents
holds of the program when nothing lands after its guard is free, and `LateWrites` and `LateStore` say exactly what
happens otherwise. Acknowledged bytes can be lost (`LateWrites.LateWriteLosesAcknowledged`), and a published file
can end up empty although every check passed (`LateWrites.LateCutEmptiesPublishedFile`). At a quiet moment the
acknowledged bytes are safe if and only if everything on its way is harmless
(`LateWrites.SafeExactlyWhenHarmless`); what `finish_upload` publishes survives if and only if, at its hash check, no
truncation is on its way and every write on its way repeats what is there
(`LateWrites.PublishedSurvivesExactlyWhenClean`); and in every reachable state of the store all rows find their
contents, whatever lands in whatever order, if and only if each upload behind a row was clean in that sense
(`LateStore.ContentSurvivesExactlyWhenClean`).

## Model

| member | source | states |
|---|---|---|
| Paths.RangeIsBelow | src/server.rs:376-393 | For all byte strings, lying in `[p/, p0)` is the same as lying strictly below `p` at a component boundary |
| Paths.AncestorsAreAbove | src/server.rs:376-385 | The walk over a path's slashes visits exactly the folders the path lies below |
| Paths.SplitJoin | crates/protocol/src/model.rs:75-89 | Splitting at slashes is compatible with joining two paths, so components can be reasoned about separately |
| Paths.BaseIsValid | crates/protocol/src/model.rs:75-89 | The last component of a valid path is itself accepted as a new folder name |
| Paths.SplitUndoesJoin | crates/protocol/src/model.rs:75-89 | Splitting at slashes undoes joining components that have none |
| Paths.JoinUndoesSplit | crates/protocol/src/model.rs:75-89 | Joining undoes splitting, and no part has a slash |
| Paths.ValidPathExactly | crates/protocol/src/model.rs:75-89 | The valid paths are exactly the joins, within the length limit, of usable component names, reserved names spelled out |
| Paths.SiblingInverse | src/server/web_files/directories.rs:230-236 | Replacing the last component and then putting the old one back gives the original path |
| Paths.SiblingApart | src/server/web_files/directories.rs:230-241 | A folder and its renamed sibling have no path below both, and neither lies below the other |
| Server.FileServer.CheckPathNamespace | src/server.rs:375-398 | The ancestor walk and the range probe together succeed exactly when no live file is above or below the path |
| Tables.PublishKeeps | src/server.rs:400-410 | Publishing a fresh blob at a clear path keeps distinct revisions, the antichain of live files and single ownership of blobs |
| Tables.BuryKeeps | src/server/web_files/directories.rs:214-219 | Burying a path keeps the invariant and leaves its blob named by no row |
| Tables.DiscardKeeps | src/server.rs:1030-1055 | Moving content to the trash and burying its path keeps the invariant |
| Tables.FilesSpec | src/server/web_files/directories.rs:94-116 | The scan returns each live file below the folder exactly once, with its revision and content |
| Tables.FilesUnique | src/server/web_files/directories.rs:94-116 | A list has exactly the live files below a folder, once each, in path order, with their revisions and contents, if and only if it is the scan |
| Tables.Scan | src/server/web_files/directories.rs:94-103 | The limited scan is the whole folder unless the folder is too large to change, and then it shows that |
| Transactions.ApplyKeeps | src/server.rs:664-718 | Each of commit, delete, restore, both purges, folder rename and folder delete keeps the table invariant, and every changed row gets a revision above the old generation |
| Transactions.ApplyHeld | src/server.rs:1089-1181 | No transaction names content that was not named before, except the committed file |
| Transactions.DroppedUnheld | src/server.rs:1142-1181 | What a caller unlinks after its commit was named before the transaction and is named by no row after it |
| Transactions.CommitRows | src/server.rs:686-696 | A commit puts its file at its path under the next revision, drops the uploads it names, and changes nothing else |
| Transactions.DeleteRows | src/server.rs:1030-1055 | A deletion leaves a tombstone under the next revision and one new trash row with the content for 30 days, and changes nothing else |
| Transactions.RestoreRows | src/server.rs:1109-1135 | A restoration puts the trash row's content back at its path under the next revision; only that row leaves the trash |
| Transactions.PurgeRows | src/server.rs:1142-1159 | A purge takes exactly the rows whose time has come, and has exactly their blobs unlinked |
| Transactions.PurgeItemRows | src/server.rs:1161-1181 | Purging one item takes that trash row, has its blob unlinked, and changes nothing else |
| Transactions.ClearIsNeeded | src/server.rs:375-398 | Publishing at a path keeps live files off each other if and only if the namespace check passes |
| Transactions.ContentLostExactly | src/server.rs:1009-1181 | Conservation: a named content stops being named exactly when a commit at its path replaces it or its trash row is purged; deleting, restoring and folder operations lose nothing |
| Transactions.RevisionNeverReused | src/server.rs:400-410 | If two states of one history show the same revision, it is the same row of the same path |
| Transactions.GenerationNamesEntries | src/server.rs:400-410 | Two states of one history with one generation have the same entries |
| Transactions.NoLostUpdate | src/server.rs:678-696 | An accepted compare-and-set replaces exactly its base, and no later state accepts another one on that base |
| Folders.MoveAllRows | src/server/web_files/directories.rs:242-252 | The rename loop leaves consecutive pairs of revisions: a tombstone at each old path and the same content at its destination; no destination is a source; all else untouched |
| Folders.MoveAllKeeps | src/server/web_files/directories.rs:237-252 | After every iteration of the rename loop no live file is above another and the whole table invariant holds |
| Folders.RenameMovesTree | src/server/web_files/directories.rs:221-256 | The live tree under the new name is the old tree under the old name, every other row is unchanged, the generation grows by twice the file count, trash and uploads stay |
| Folders.RenameBySuffix | src/server/web_files/directories.rs:237-252 | What was at `dir/rest` is at `target/rest` with its content, nothing else is there, and nothing stays at `dir/rest` |
| Folders.RenameBack | src/server/web_files/directories.rs:221-256 | After any accepted rename the reverse rename is accepted and restores the live content of every path |
| Folders.DiscardAllRows | src/server/web_files/directories.rs:264-276 | The delete loop buries each file and adds one trash row with its content; all else untouched |
| Folders.DeleteEmptiesFolder | src/server/web_files/directories.rs:258-278 | Deleting a folder empties it, keeps every row outside it, and the rows name exactly the same contents as before |
| Snapshot.EncodeInjective | src/server/web_files/directories.rs:118-126 | The length-prefixed encoding determines every path and revision in the list |
| Snapshot.Fingerprint | src/server/web_files/directories.rs:118-126 | Feeding the hash field by field hashes exactly the encoding of the list |
| Snapshot.SnapshotPinsFolder | src/server/web_files/directories.rs:189-212 | A snapshot that still matches proves that no file below the folder was added, removed or changed, or exhibits a hash collision |
| Snapshot.UnchangedFolderMatches | src/server/web_files/directories.rs:189-212 | An unchanged folder always matches its snapshot |
| Manifest.FullIsManifest | src/server.rs:522-535 | The manifest has exactly one entry for each row, in path order, telling the row's revision, whether it is deleted, and the digest and size of a live file |
| Manifest.GetPage | src/server.rs:505-555 | A page holds the first rows after the cursor up to the page size nearest to the one asked for, each told as the table has it, and names the first omitted path exactly when rows remain |
| Manifest.PagingTerminates | src/server.rs:505-555 | However the store changes between requests, a client makes at most one request per row of the last state plus one |
| Manifest.PagesFormManifest | src/server.rs:505-555 | Pages that all carry one generation together have exactly one entry for each row of that generation, in path order, telling its revision, deletion, digest and size |
| StorageSafety.RequestStepKeeps | src/server.rs:751-1007 | Receiving, resuming, interrupting, finishing and dropping uploads keep the store's invariant |
| StorageSafety.PrepareKeeps | src/server.rs:697-706 | Renaming a staged file under a fresh name keeps the invariant, and the blob is what the row will promise |
| StorageSafety.CommitSqlKeeps | src/server.rs:704-718 | Ending the SQL transaction of a commit keeps the invariant, whether success or an error is reported |
| StorageSafety.UnlinkKeeps | src/server.rs:707-712 | Unlinking a replaced or purged blob, at any later moment, removes nothing that a row names |
| StorageSafety.CrashKeeps | src/server.rs:697-710 | A crash that undoes any unsynced directory change loses no content that a row promises and no acknowledged byte still on disk |
| StorageSafety.StepKeeps | src/server.rs:664-718 | Every step of the store keeps: one holder per blob, promised content on disk with its digest and size, nothing awaiting unlink referenced, upload files consistent with their rows |
| Runs.ContentNeverLost | src/server.rs:664-718 | In every reachable state each blob named by a row is named by that row alone and is on disk with the recorded digest and size; no live file is above another |
| Runs.HeldUntilReplacedOrPurged | src/server.rs:664-718 | Along a run a named content stays named and on disk until a step replaces it by a commit at its path or purges it from the trash; no deletion, restoration, folder operation or crash ends it |
| Runs.UnlinkedNeverNamedAgain | src/server.rs:1153-1157 | A blob that awaits its unlink at some moment is named by no row in any later state |
| Runs.AcceptedAtMostOnce | src/server/web_files/editor.rs:248-267 | For each path and base revision at most one upload, edit or effective delete is accepted in a whole run, and it replaces exactly that version |
| Runs.RevisionsStrictlyIncrease | src/server.rs:400-410 | Along a run a path keeps its row or gets a revision above everything issued before; no revision is shared or reused, and none exceeds the generation |
| Runs.PagedManifest | src/server.rs:505-555 | A client paging at any moments of a run, with pages of one generation, has the full manifest of each of those moments |
| Runs.MatchingSnapshot | src/server/web_files/directories.rs:189-212 | Along a run a still-matching folder snapshot means an unchanged folder or a hash collision |
| Runs.RevisionNamesContent | src/server.rs:400-410 | A path and revision name one row and one content in all states of a run that show them |
| Runs.ChunkAnswers | src/server/web_files.rs:456-506 | A pinned chunk is answered exactly while its revision is live, its size within the web limit and the offset within the file, with the bytes there, as many as fit |
| Runs.DownloadNeverMixes | src/server/web_files.rs:456-506 | Chunks of a download pinned to one revision, taken at any moments of a run, are a prefix of that one content |
| Runs.DownloadComplete | web/atlas.js:607-617 | A download as long as the recorded size is that revision's content and hashes to its digest |
| Runs.UploadHoldsAcknowledged | src/server.rs:847-936 | Across accepted, rejected and interrupted chunks, resumes and crashes, the recorded offset counts the acknowledged bytes, never exceeds the declared size, and an existing temporary file starts with them |
| Runs.DeclaredAtInsert | src/server.rs:820-845 | Every upload with acknowledged bytes was begun earlier in the run, and its row and its checked file still carry the digest and size declared then |
| Runs.PublishesAcknowledged | src/server.rs:954-1007 | A published upload is exactly the concatenation of its acknowledged chunks, with the digest and size declared when it was begun, even if its row has gone since |
| Runs.ReachesKeeps | src/server.rs:664-718 | Whatever sequence of steps a request executes keeps the invariant and leads to a later state |
| Runs.RunExtended | src/server.rs:664-718 | What a request executes at the end of a run makes a longer run that ends in its effect |
| Runs.RequestsAreRun | src/server.rs:1209-1275 | The states between any requests that follow each other from the first start are states of one run, in order |
| Runs.PagesBetweenRequests | src/server.rs:505-555 | Manifest pages served between any requests, with one generation, are the full manifest of each of those moments |
| Runs.RequestsLoseNothing | src/server.rs:664-718 | After any requests, crashes and recoveries every row's content is on disk with its digest and size, and is that row's alone |
| Server.FileServer.CheckCommit | src/server.rs:672-690 | Which error a commit is refused with, and exactly when it may proceed |
| Server.FileServer.CommitUpload | src/server.rs:664-718 | The reply and the whole new state for each outcome of the SQL commit; a refused commit changes nothing |
| Server.FileServer.RemoveBlobs | src/server.rs:707-712 | The unlink loop removes exactly the given blobs |
| Server.FileServer.DeleteFile | src/server.rs:1009-1061 | Compare-and-set deletion, its conflicts, and the repeated deletion that changes nothing |
| Server.FileServer.RestoreFile | src/server.rs:1089-1140 | Restores exactly when the item is unexpired and its path valid, clear and not live; otherwise nothing changes |
| Server.FileServer.PurgeExpiredTrash | src/server.rs:1142-1159 | Drops exactly the expired rows, then unlinks exactly their blobs, and counts them |
| Server.FileServer.CheckedFiles | src/server/web_files/directories.rs:189-212 | Answers the folder's files exactly when it is valid, not empty, within the limit and still matches the snapshot |
| Server.FileServer.RenameFolderTo | src/server/web_files/directories.rs:221-256 | Accepts exactly the allowed renames and applies the rename transaction; otherwise nothing changes |
| Server.FileServer.MoveFiles | src/server/web_files/directories.rs:242-252 | The loop equals the recursive specification of moving each file in turn |
| Server.FileServer.DeleteFolderTree | src/server/web_files/directories.rs:258-278 | Accepts exactly the allowed deletions and applies the folder transaction; otherwise nothing changes |
| Server.FileServer.BeginUpload | src/server.rs:751-845 | Each refusal, the choice of the upload to resume, the replacement of one whose file is lost, the limit per device, and the new state of each case |
| Server.FileServer.FindPrior | src/server.rs:771-791 | Finds the most recently touched upload of the same device, path, base, size and digest, if there is one |
| Server.FileServer.UploadChunk | src/server.rs:847-936 | A chunk is acknowledged exactly when it continues the recorded offset and fits; otherwise only bytes past that offset may be gone |
| Server.Receive | src/server.rs:886-909 | The body loop keeps all pieces exactly when together they fit the limit |
| Server.FileServer.FinishUpload | src/server.rs:954-1007 | Reply and state for incomplete, corrupt, conflicting, failed and published uploads |
| Server.FileServer.PurgeUploads | src/server.rs:1183-1207 | Removes exactly the stale uploads that no request is using, with their files, and counts them |
| Server.FileServer.RecoverStorage | src/server.rs:197-231 | Both directories lose exactly the regular files with generated names that no row references |
| Server.Sweep | src/server.rs:208-228 | One directory's loop visits every name once and removes exactly the unreferenced generated regular files |
| Handlers.CommitReached | src/server.rs:697-710 | A commit, with any outcome, is a sequence of steps of the store |
| Handlers.SqlReached | src/server.rs:1009-1140 | Deletion, restoration and folder changes are steps of the store |
| Handlers.PurgeReached | src/server.rs:1142-1159 | The trash purge is a transaction followed by unlink steps |
| Handlers.BeginReached | src/server.rs:751-845 | Beginning or resuming an upload, in every case, is a sequence of steps of the store |
| Handlers.BeginAnswersAcknowledged | src/server.rs:772-801 | The answered upload has the requested device, path, base, size and digest and is a device's own; the offset is the number of bytes acknowledged so far, and the temporary file holds all of them |
| Handlers.BeginIsNeeded | src/server.rs:772-815 | A new upload is begun only where none for the same device, path, base, size and digest has its temporary file |
| Handlers.BeginKeepsNoTwins | src/server.rs:772-845 | Beginning never makes two uploads of devices for the same request |
| Handlers.StepKeepsNoTwins | src/server.rs:847-1007 | Nor does any other step of the store |
| Handlers.BeginKeepsLimit | src/server.rs:802-814 | Beginning never takes a device above sixteen uploads |
| Handlers.AppendedReached | src/server.rs:847-936 | An accepted chunk is a sequence of steps of the store |
| Handlers.TruncatedReached | src/server.rs:880-936 | A rejected or interrupted chunk is a sequence of steps of the store |
| Handlers.FinishReached | src/server.rs:954-1007 | Finishing an upload, whatever comes of it, is a sequence of steps of the store |
| Handlers.FinishPublishesAcknowledged | src/server.rs:954-1007 | At the end of any run a successful finish leaves at the path that the upload was begun for a readable file that is exactly the chunks acknowledged in that run, with the digest and size declared at its beginning, and the run goes on from there |
| Handlers.BegunUploadIsPublishedAtItsPath | src/server.rs:751-1007 | Whenever a begin answered an upload for a path, a later successful finish of it publishes at exactly that path, under the next revision, with the digest and size asked for |
| Handlers.StaleReached | src/server.rs:1183-1207 | The purge of stale uploads is a sequence of steps of the store |
| Handlers.RecoveryReached | src/server.rs:197-231 | Startup recovery is a sequence of steps of the store |
| Handlers.RecoveryExact | src/server.rs:197-231 | After a crash at any step of any run recovery keeps every referenced blob and surviving upload file, removes only unreferenced generated names, leaves none, and does nothing a second time |
| Effects.CommitDone | src/server.rs:686-718 | A reported commit changes exactly its row, the generation, the uploads it drops and its temporary file |
| Effects.CommitDoneBlobs | src/server.rs:697-712 | Of the blobs, the new one comes with the staged content, the replaced one goes, and all others stay |
| Effects.CommitNotDone | src/server.rs:702-706 | A commit that reports an error removes no blob, and changes either no row or just what the commit would |
| Effects.AppendedChunk | src/server.rs:878-936 | An accepted chunk keeps the bytes up to the offset, follows them, and moves the offset by its length; no other upload or row changes |
| Effects.TruncatedChunk | src/server.rs:908-912 | A refused chunk changes no row and keeps the bytes up to the offset |
| Effects.FinishRefused | src/server.rs:972-1003 | A corrupt or conflicting upload goes with its file, and nothing is published or changed besides |
| Effects.FinishFailed | src/server.rs:985-1005 | After a failed SQL commit the upload keeps its row |
| Effects.PriorIsNewest | src/server.rs:776-785 | Among a device's own uploads for one path, base, size and digest the one last touched is resumed |
| Effects.ResumedUpload | src/server.rs:791-798 | A retried request resumes at the recorded offset, and is not idle any more |
| Effects.NewUpload | src/server.rs:815-845 | A new upload starts empty, beside all others, below the limit |
| Effects.FinishDone | src/server.rs:985-1005 | A published upload is gone as an upload, its row is the one published under the answered revision |
| Effects.FinishDoneElsewhere | src/server.rs:985-1005 | All other uploads stay, with their files and whatever is under way on them |
| Effects.FolderErrors | src/server/web_files/directories.rs:189-212 | Which error answers which folder, and exactly which folders are accepted |
| Effects.ChunkErrors | src/server.rs:847-936 | A conflict means that the upload is in use or stands elsewhere, not found that it is not the device's; what the other errors mean |
| Effects.FinishErrors | src/server.rs:954-971 | Which error answers an upload that cannot be finished yet |
| Effects.NameErrors | src/server/web_files/directories.rs:232-246 | A conflict is answered exactly for a good name that is taken |
| Effects.CrashMayUndoAnyBlob | src/server.rs:697-710 | The crashes considered include every choice of lost and kept unsynced directory changes |
| Effects.CrashMayChangeUnacknowledged | src/server.rs:878-909 | They include any bytes past an upload's recorded offset |
| Effects.PurgedUploads | src/server.rs:1197-1206 | The purge of uploads takes the given rows and files, and nothing else |
| Effects.StaleUploads | src/server.rs:1186-1195 | A device's upload is purged exactly after a day without progress; a web upload also when its grant is not current |
| Effects.DigestIsHex | src/server.rs:759-766 | A declared digest is any hexadecimal text of 32 bytes |
| Effects.SecretIsPrintedHex | src/server/web_files/directories.rs:189-197 | A snapshot is exactly what 32 bytes print to in lower case |
| Listing.RowsAreChildren | src/server/web_files.rs:254-290 | A listing has a file row for each live child, a folder row for each child with live files below it, and a folder row groups exactly its live descendants |
| Listing.EveryRowIsAChild | src/server/web_files.rs:254-290 | Every row of a listing belongs to an immediate child |
| Listing.FileRow | src/server/web_files.rs:275-290 | A file's row shows that file's size, revision, digest and time |
| Listing.Info | src/server/web_files/directories.rs:128-150 | Refuses exactly an invalid or empty folder, and else answers its count, total size, latest change and snapshot |
| Listing.FolderRowAgreesWithInfo | src/server/web_files/directories.rs:128-150 | A folder row shows the size and the time that the folder's own properties show, and no version |
| Listing.RowsAddUp | src/server/web_files.rs:254-290 | The rows of a folder sum to the folder's total: no file is left out or counted twice |
| Listing.List | src/server/web_files.rs:242-305 | One page is the next part of the walk over the sorted keys, each row with the right totals and version, and its cursor continues that walk |
| Listing.CursorFits | src/server/web_files.rs:242-248 | Every cursor that a page can return is accepted by the next request |
| Listing.Browse | web/atlas.js:357-371 | A client that follows the cursor has each request accepted, comes to an end, and has every row exactly once in key order |
| Bytes.AfterSelects | src/server/web_files.rs:254-290 | Resuming after a cursor keeps exactly the keys greater than it, in order |
| Listing.CursorShowsEverything | src/server/web_files.rs:242-305 | Following the cursor through a fixed store shows every row exactly once in key order |
| LateWrites.LandingStep | src/server.rs:875-909 | An operation that outlives its request keeps the settled bytes exactly when it repeats them or stays behind them |
| LateWrites.HoldsExactlyWhenHarmless | src/server.rs:847-936 | In every run of one upload, cancelled requests included, the file holds the settled bytes throughout if and only if every late operation is harmless when it lands |
| LateWrites.LateWriteLosesAcknowledged | src/server.rs:886-909 | A run in which a late write replaces an acknowledged byte |
| LateWrites.RetriesOfOneFileAreSafe | src/server.rs:847-936 | A client that only sends one file loses nothing to late writes; the file holds the settled bytes throughout if and only if no truncation lands after bytes beyond it were written again |
| LateWrites.SafeExactlyWhenHarmless | src/server.rs:875-909 | At any moment the settled bytes survive every order of what is on its way if and only if each of those operations is harmless at that moment |
| LateWrites.PublishedSurvivesExactlyWhenClean | src/server.rs:954-985 | What a finish publishes keeps its content in every continuation if and only if, at the hash check, no truncation is on its way and every write on its way repeats what is there |
| LateWrites.PublishedFileSurvivesExactlyWithoutCuts | src/server.rs:954-985 | For a client that sends one file of the declared hash, what is published is that file unless the hash collides, and it survives if and only if no truncation is on its way |
| LateWrites.LateCutEmptiesPublishedFile | src/server.rs:879-885 | A run of such a client in which a published file of size one ends up empty |
| LateStore.FinishIsPublication | src/server.rs:697-706 | The state of an upload after its hash check is one that the results about the store speak of |
| LateStore.ContentSurvivesExactlyWhenClean | src/server.rs:664-718 | In every reachable state of the store every row finds its content on disk, whatever late operations land in whatever order, if and only if each upload behind a row was clean at its hash check |
| LateStore.CleanFileReadsTheSame | src/server/web_files.rs:456-506 | Every chunk of a live file reads the same whatever has landed, if the upload behind the file was clean; so the download results hold of such files |
| LateStore.IntactIsReadable | src/server.rs:557-594 | A content that survived has the recorded digest and size |
| Nonces.NonceStore.Record | src/device_auth.rs:93-106 | Purges expired nonces and admits a proof exactly when its nonce is not recorded |
| Nonces.AdmittedAtMostOnce | src/device_auth.rs:603-671 | With a non-decreasing clock and less than 30 seconds from check to recording, one proof is admitted at most once in any run |
| Nonces.FreshExactly | crates/protocol/src/auth_protocol.rs:117-127 | A proof is fresh from 30 seconds before its time to 60 seconds after, if its nonce encodes 32 bytes |
| Nonces.FirstUseIsAdmitted | src/device_auth.rs:93-106 | A nonce that its device has not presented before is admitted |
| Nonces.DelayBoundIsExact | crates/protocol/src/auth_protocol.rs:117-133 | No proof is ever admitted twice if and only if the bound on that delay is at most 30 seconds |
| Nonces.LateReplayIsReplayed | src/device_auth.rs:93-106 | A run of well-formed proofs with a delay of exactly 30 seconds that admits one proof twice |
| Enrollment.StepKeeps | src/device_auth.rs:254-564 | Every enrollment step keeps the row conditions, the deadlines and one open enrollment per device |
| Enrollment.ApprovedIsVerifiedIsBound | src/device_auth.rs:351-361 | In every reachable state approved implies verified implies bound to a key |
| Enrollment.OneApprovedPerDevice | src/device_auth.rs:254-292 | No reachable state has two approved enrollments of one device |
| Enrollment.ApprovalIsTimely | src/device_auth.rs:541-564 | However often a client finishes, approval comes less than 900 + 86400 seconds after the invitation |
| Enrollment.KeyNeverChanges | src/device_auth.rs:493-540 | A bound key, and its challenge while it lasts, is the same in every later state |
| EnrollmentLaws.OtherEnrollments | src/device_auth.rs:254-564 | A step on one enrollment leaves all others alone |
| EnrollmentLaws.InvitedRow | src/device_auth.rs:284-290 | A new invitation is unbound and lasts 900 seconds |
| EnrollmentLaws.BoundRow | src/device_auth.rs:515-538 | Binding sets key, secret and challenge of one row, and nothing else |
| EnrollmentLaws.FinishedRow | src/device_auth.rs:541-564 | The first finish sets time and deadline; later ones change neither |
| EnrollmentLaws.ApprovedRow | src/device_auth.rs:351-361 | Approval sets its time and clears secret and challenge |
| EnrollmentLaws.CancelledRow | src/device_auth.rs:364-375 | Cancelling ends the time and clears secret and challenge |
| EnrollmentLaws.VerifiedWithSecret | src/device_auth.rs:541-564 | A verified enrollment was finished, at that time, with the very secret that the binding of its key made |
| EnrollmentLaws.ApprovedUnderFingerprint | src/device_auth.rs:351-361 | An approved enrollment was approved under the fingerprint of the key bound to it, verified, in time and unrevoked |
| EnrollmentLaws.CancelledIsFinal | src/device_auth.rs:364-375 | A cancelled enrollment is never bound, finished or approved afterwards |
| EnrollmentLaws.RevokedIsFinal | src/server.rs:335-345 | After a revocation no enrollment of that name is invited, bound, finished or approved |
| Enrollment.Registry.InsertInvitation | src/device_auth.rs:254-292 | Accepts exactly when the name is usable, not revoked and has no open enrollment |
| Enrollment.Registry.RegisterPair | src/device_auth.rs:204-225 | A known code changes nothing, and answers its enrollment exactly when that is pending for the same name; an unknown one is an invitation |
| Enrollment.Registry.BindKey | src/device_auth.rs:493-540 | Binds a free invitation, or answers the stored challenge to the same key; that challenge is always present |
| Enrollment.Registry.FinishEnrollment | src/device_auth.rs:541-564 | Accepts exactly an active, unapproved enrollment with the right secret; repeated finishes keep time and deadline |
| Enrollment.Registry.ApproveEnrollment | src/device_auth.rs:351-361 | Approves exactly an active, verified enrollment with the expected fingerprint |
| Enrollment.Registry.CancelInvitation | src/device_auth.rs:364-375 | Cancels exactly an unapproved, not yet cancelled enrollment |
| Grants.StepKeeps | src/server/web_status.rs:30-73 | Every step keeps the grants standing on read grants, the shared expiry and the consistency of challenges |
| Grants.GrantsStandOnReadGrants | src/server/web_status.rs:42-62 | In every reachable state a write, manage, edit or run grant has a read grant of its session, with that grant's and the session's expiry |
| Grants.ReadProofRemovesGrants | src/server/web_status.rs:420-455 | A fresh read proof leaves its session with the read grant alone, renewed together with the session |
| Grants.RemovalIsComplete | src/server/web_files.rs:138-162 | Logout and purge leave nothing of a removed session and touch no other |
| Grants.ConsumedAtMostOnce | src/server/web_status.rs:383-493 | A challenge is consumed at most once in a whole run |
| Grants.RenewalPinsDevice | src/server/web_status.rs:315-340 | A challenge issued as a renewal, or for a scope below a read grant, is consumed by no other device than the one that proved before |
| Grants.SupersededUploadStaysUnusable | src/server/web_files/uploads.rs:404-420 | Once the write proof an upload was begun under is not current, no later state lets any session use the upload |
| WebUploads.NoWebStepAfter | src/server/web_files/uploads.rs:404-420 | Beside any run of the store, no web request acknowledges a chunk of an upload or publishes it once its write proof is superseded |
| WebUploads.SupersededUploadIsFrozen | src/server/web_files/uploads.rs:428-527 | From that moment on the upload's acknowledged bytes are frozen and its file is not renamed for publication, in every later moment, unless the device advances it under its own signed requests |
| WebUploads.PublishedOnlyWhileCurrent | src/server/web_files/uploads.rs:490-527 | While a web upload's commit is under way its write proof is not superseded, so its publication falls under the proof it was begun with |
| WebUploads.PurgeSparesUsable | src/server.rs:1186-1195 | The purge spares every web upload that its owner can still use and has used within a day |
| WebUploads.PurgeTakesSuperseded | src/server.rs:1186-1206 | The purge takes every web upload whose write proof is superseded, unless a request is using it |
| Grants.SupersededTicketStaysUnusable | src/server/web_files/editor.rs:316-348 | Once the run proof a ticket was drawn under is not current, no later state honours the ticket |
| Grants.TicketUsedAtMostOnce | src/server/web_files/editor.rs:316-348 | A ticket yields at most one authorization in a whole run |
| GrantLaws.AcceptableExactly | src/server/web_status.rs:383-419 | A proof is accepted exactly for a pending, unexpired challenge of a live session, from a trusted device it is meant for, matching in binding, ticket and scope |
| GrantLaws.AcceptRecords | src/server/web_status.rs:420-437 | Only the consumed challenge changes, and records who proved and for how long that counts |
| GrantLaws.StatusProofGrantsNothing | src/server/web_status.rs:438-488 | A status proof grants nothing |
| GrantLaws.ScopeProofGrantsItsScope | src/server/web_status.rs:454-488 | A proof of another scope grants exactly that scope to its session, with its challenge, instance and the expiry of the read grant; every other grant, session and ticket stays |
| GrantLaws.ReadProofOpensSession | src/server/web_status.rs:438-453 | A read proof renews session and read grant for half an hour, drops the other grants and tickets of that session, and leaves every other session alone |
| GrantLaws.IssueAddsOneChallenge | src/server/web_status.rs:345-368 | A challenge is issued beside all others, for a minute at most, within its session, for the device that it must come from |
| GrantLaws.DrawAddsOneTicket | src/server/web_files/editor.rs:273-312 | Drawing a ticket adds it, and takes only expired ones away |
| GrantLaws.UseTakesOneTicket | src/server/web_files/editor.rs:316-348 | Using a ticket takes that ticket, and nothing else |
| GrantLaws.BeginAddsOneUpload | src/server/web_files/uploads.rs:107-146 | Beginning records the session and its current write proof as the owner, and nothing else |
| GrantLaws.SessionStarts | src/server/web_status.rs:250-286 | A new session lasts five minutes and starts without any grant or challenge |
| GrantLaws.DistrustEndsUse | src/server/web_files.rs:83-106 | A device that is not trusted any more cannot prove or use what it opened; other devices are not affected |
| GrantLaws.PurgeTakesExpired | src/server/web_status.rs:75-81 | Expired sessions go with their challenges, and only those |
| GrantLaws.GrantsAreProved | src/server/web_status.rs:454-488 | Every grant of a scope in a reachable state rests on an earlier accepted proof of that same scope, within a minute of a challenge issued to that session for that scope |
| GrantLaws.ReadGrantsAreProved | src/server/web_status.rs:438-453 | Every read grant rests on a read proof of its session by its then trusted device, half an hour before it ends |
| GrantLaws.UseNeedsGrants | src/server/web_files/uploads.rs:25-40 | Uploads and tickets are begun exactly while session, read grant and the scope grant last and the device is trusted |
| GrantLaws.UseIsProved | src/server/web_files.rs:83-106 | A session may use a scope only within half an hour of a read proof, after a proof of that scope, with the device still trusted |
| GrantLaws.UploadWasBegun | src/server/web_files/uploads.rs:404-420 | A web upload was begun by its session under the write proof that it names |
| GrantLaws.OwnedExactly | src/server/web_files/uploads.rs:404-420 | An upload can be used exactly by its session, while it may write under the proof that the upload was begun under |
| GrantLaws.TicketIsHonouredForItsReader | src/server/web_files/editor.rs:316-348 | A ticket is honoured only within fifteen seconds of its drawing, for the trusted device that holds the session's read grant, on the instance of the same run proof |
| GrantLaws.TicketIsHonoured | src/server/web_files/editor.rs:316-348 | And it is honoured whenever all that holds |
| Grants.BrowserAuth.PurgeSessions | src/server/web_status.rs:75-81 | Removes exactly the expired sessions with all that cascades from them |
| Grants.BrowserAuth.LogoutSession | src/server/web_files.rs:138-162 | Removes the session with all that cascades from it |
| Grants.BrowserAuth.IssueChallenge | src/server/web_status.rs:298-368 | Issues exactly for a live session with the needed read grant and a still valid previous proof, and records the expected device; a refusal rolls the purge back too |
| Grants.BrowserAuth.VerifiedDevice | src/server/web_status.rs:495-525 | Answers the device of a challenge exactly when this session had it consumed, its presence lasts and its device is trusted |
| Grants.BrowserAuth.CheckProof | src/server/web_status.rs:383-436 | Accepts exactly a pending challenge of a live session, from a trusted device, that matches in every field |
| Grants.BrowserAuth.AcceptProof | src/server/web_status.rs:383-493 | Consumes the challenge and writes the grants of its scope, or changes nothing |
| Grants.BrowserAuth.RunnerAuthorize | src/server/web_files/editor.rs:316-348 | Honours exactly a live ticket of the current run proof on the proving device whose start operation names the file's live revision and digest, and deletes it with that |
| Editor.NormalizeExpand | web/editor-src/controller.js:114-139 | What the editor sends loads back as exactly the draft |
| Editor.RoundTripsWhenUniform | web/editor-src/controller.js:89-109 | Loading and saving gives the same bytes if and only if all line breaks are of the chosen kind |
| Editor.MixedFileChanges | web/editor-src/controller.js:89-109 | A file with mixed line breaks that does not come back |
| Editor.StepKeeps | web/editor-src/controller.js:83-170 | Every step of client, network and server keeps: the saved text is the text of the held revision, and requests name recorded revisions |
| Editor.SavedTextIsHeldText | web/editor-src/controller.js:114-139 | In every reachable state the saved text is the text of the revision the editor holds |
| Editor.RecordedWasHeld | web/editor-src/controller.js:83-170 | Every recorded revision was held at some moment together with its text |
| Editor.SavesReplaceRecordedVersions | src/server/web_files/editor.rs:216-271 | An accepted editor save replaces a version whose text the editor had recorded before |
| Editor.StepKeepsDraft | web/editor-src/controller.js:83-170 | No step but typing changes an unsaved draft |
| Editor.DraftSurvives | web/editor-src/controller.js:83-170 | From one edit to the next a draft is unchanged until it is the saved text, whatever saves, replies, locks, loads and retries come |
| Editor.LockKeepsDraft | web/editor-src/controller.js:286-292 | A lock keeps a draft with its revision and saved text, ends the permission to edit, and reports an error; without a draft it forgets the file |
| Editor.SaveTakesDraft | web/editor-src/controller.js:114-119 | A save takes the draft as it stands, in the file's own line breaks, on top of the revision held |
| Editor.SendRemembersDraft | web/editor-src/controller.js:120-126 | Sending remembers the text with its bytes and base, and puts exactly those on the wire |
| Editor.LoadShowsFile | web/editor-src/controller.js:96-101 | A load shows the file's text under its revision, clean and without an error, unless it is stale or there is a draft |
| Editor.ConfirmedSave | web/editor-src/controller.js:120-139 | A confirmed save takes on the revision with the text sent, and keeps what was typed since |
| Editor.FailedSave | web/editor-src/controller.js:131-137 | A failed save ends, leaves an error unless it belongs to an earlier session, and touches nothing else |
| Editor.RetryReconciles | web/editor-src/controller.js:151-170 | A retry clears the error exactly when the remote file is the held revision or bytes that this editor sent, and never changes the draft |
| Editor.Controller.Persist | web/editor-src/controller.js:114-119 | Starts a save exactly for a dirty, allowed draft without an error and without a save under way |
| Editor.Controller.OnSaveReply | web/editor-src/controller.js:120-139 | A reply about this path, these bytes and a larger revision is taken on with its text, unless a lock or reopen came in between; any other is a failure |
| Editor.Controller.OnSaveFailure | web/editor-src/controller.js:131-137 | A failed save leaves the draft, and an error unless it belongs to an earlier session |
| Editor.Controller.OnLock | web/editor-src/controller.js:286-292 | The handler is the lock of which LockKeepsDraft speaks, and answers whether there is a draft |
| Editor.Controller.OnOpenLoaded | web/editor-src/controller.js:96-101 | A load is taken on unless it is stale or a draft is there |
| Editor.Controller.OnRetryLoaded | web/editor-src/controller.js:151-170 | A retry reconciles a lost acknowledgement and refuses anything else |
| EditorStore.StoreStepIsServerStep | src/server/web_files/editor.rs:216-271 | Every step of the store is, for one path, nothing or one write of the editor's server under a larger revision |
| EditorStore.ViewOk | src/server/web_files/editor.rs:118-161 | One path of a store run meets what the editor's proofs assume of their server |
| EditorStore.EditOfLiveFileAllowed | src/server.rs:677-689 | An edit of a live file is let through exactly when it names the live revision: the namespace check never refuses it |
| EditorStore.StoreAcceptsWhatServerAccepts | src/server/web_files/editor.rs:248-267 | The protocol's server accepts a save exactly when the editor's own check and the store's commit check both pass |
| EditorStore.CommittedEditIsTake | src/server/web_files/editor.rs:240-271 | The store's commit of an editor save is, for its path, the accepting step of the protocol's server, with the bytes that were sent |
| EditorStore.StoreSavesReplaceRecordedVersions | src/server/web_files/editor.rs:216-271 | When the store commits an editor save, the editor had held exactly the revision it replaces, with the text of the bytes that the store has at that path |
| EditorStore.BesideStarts | web/editor-src/controller.js:89-94 | A fresh editor page can be opened at any moment of a run of the store |
| EditorStore.EditorStepFits | web/editor-src/controller.js:83-170 | Whatever the editor does on its own, and a save that is refused, goes on beside the run |
| EditorStore.SaveFits | src/server/web_files/editor.rs:240-271 | The commit of a save that is on its way is taken by the editor's server, and the run goes on |
| EditorStore.StoreStepFits | src/server.rs:664-718 | Every other step of the store is a foreign write for the editor, or nothing, and the run goes on |
| TpmArea.SigningArea | crates/protocol/src/auth_protocol.rs:172-218 | Accepts exactly the canonical encodings, and returns the coordinates that print to the input |
| TpmArea.Header | crates/protocol/src/auth_protocol.rs:190-211 | Consumes exactly the fixed fields of the template |
| TpmArea.ParseEncoded | crates/protocol/src/auth_protocol.rs:172-176 | The hexadecimal form is accepted exactly when it decodes to a canonical area; the length bound excludes none |
| TpmArea.UnhexHex | crates/protocol/src/auth_protocol.rs:172-176 | Decoding undoes printing in lower case |
| TpmArea.HexUnhex | crates/protocol/src/auth_protocol.rs:172-176 | A text without capitals that decodes is the one that its bytes print to |
| TpmArea.PrintInjective | crates/protocol/src/auth_protocol.rs:172-218 | Different coordinates print differently |
| TpmArea.CanonicalPrefixFree | crates/protocol/src/auth_protocol.rs:212-218 | No truncation and no extension of an accepted area is accepted |

## Left out

- Cryptography, HTTP, JSON, base64, cookies, headers, semaphores and timeouts; signature checks appear only as facts about a submission.
- The whole-file `upload` and the web `append`, `cancel` and `commit` handlers as methods of their own: their steps (Stage, Unstage, the chunk steps, DropUpload, RemoveTemp, Prepare with the upload dropped in the same transaction) are in the store, so every result about runs covers them.
- `purge_trash_item` as a method: it is the transaction PurgeItem, covered by the same results.
- Limits on sessions, challenges, failed attempts, pending web uploads and runner operations; PDF ranges.
- Overflow of the 64-bit generation counter; a row is live exactly when it has a blob, a digest and a size, by construction of the Row type.
- Runs.UploadHoldsAcknowledged: no file operation outlives its request in this machine; LateWrites has the exact condition for one upload, without crashes.
- Runs.ContentNeverLost: likewise; LateStore.ContentSurvivesExactlyWhenClean has the exact condition under which it holds with late operations.
- Runs.RequestsLoseNothing: likewise, under the same condition.
- Runs.PublishesAcknowledged: likewise; what is published is what the file holds at the hash check, and it survives under the same condition.
- Handlers.FinishPublishesAcknowledged: likewise, under the same condition.
- Runs.DownloadNeverMixes: likewise; it carries over to files whose upload was clean by LateStore.CleanFileReadsTheSame.
- Runs.DownloadComplete: likewise.
- WebUploads.SupersededUploadIsFrozen: the device routes for chunks and finishing look at the device alone and not at web ownership, so their steps are excepted.
- Tables.FilesSpec: the order of the list and the limit of the query are stated by Tables.FilesUnique and Tables.Scan.
- Grants.BrowserAuth.IssueChallenge: the limits on pending, total and recent challenges are not modelled.
- Directory-descriptor operations, symbolic links and inotify; a directory entry that is not a regular file is `Special`.
- The four tables of write, manage, edit and run grants are one map by session and scope; a device row is identified by its unique name; the clock of enrollment is not negative.
- The order of checks in the request admission middleware other than the freshness check before the nonce record.
- Listing.List: does not model the name search.
- Grants.BrowserAuth.RunnerAuthorize: whether a file can be read as source code (its language, size and encoding) is a parameter.
- Editor.Controller.OnSaveReply: sizes are those of byte strings, the text is not decoded.
- TpmArea.Header: reads the 16-bit constants of the template in one loop, where the program has one check per field; the accepted inputs are the same.
- Conflict copies of refused editor saves, the editor's runner, rendering, scheduling and flush loop.
- Web assets, origin signing, command line, deployment, and the synchronisation client.
