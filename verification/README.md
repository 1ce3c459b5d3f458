# Verified model of lianli-control

`lianli-control` manages copied media, the choice between a user and a system daemon, and the services of a
Linux desktop application. This project models the parts that have to survive interruption, concurrency or
files that change underneath, and proves what they keep. `dafny verify dfyconfig.toml` checks all of it.

**Managed media** (`Names`, `Storage`, `Fingerprint`, `Quota`, `Review`, `Removal`, `Remove`, `Attempt`,
`RemovalRuns`, `Publication`, `PublicationRuns`, `Store`, `Inventory`, `Staging`, `Refusals`, `Selection`,
`Imports`). The store is a value: inodes with bytes, times and link counts; staged and published directories;
receipts; removal journals; and the temporary files of interrupted writes. Every change is one effect, a system
call that happened or did not. The methods work on a `Disk` that stops after an arbitrary number of effects, and
each one is proved to leave exactly a prefix of a plan. The lemmas then follow runs of such calls: an
interrupted removal continues from every point and ends with nothing left, an interrupted publication converges
to one verified directory, a selection leads to files with exactly the bytes that were read, and every reachable
store stays within its quota with every import verified or continuable.

**Switching modes** (`Modes`, `Startup`, `Gate`, `Barrier`, `Locks`, `ServiceAction`). Enabling a service at
boot through a backend that loses, ignores or applies commands; the startup gate owned by one operation; the
two-process publication with its journal barrier, as a state machine over all interleavings; `flock` ownership
over shared open file descriptions; and service actions with their start and stop loops.

**Paths, decoders, units, jobs** (`PathWalk`, `DecoderCache`, `UnitText`, `Units`, `Recogniser`, `Jobs`). The
work-list path resolver against a recursive pathname walk; the decoder cache over files that may change at any
moment; quoting against systemd's reading, the printed units and the recogniser of loaded commands; and the
observers of background jobs.

What the proofs found in the code:

- An interrupted write of a receipt or a journal leaves a temporary file that nothing retires. It stops the
  inventory for good (`Inventory.InterruptedWriteStopsInventory`). Interruptions use up the room for receipts
  (`PublicationRuns.RerunConverges`) and for journals (`RemovalRuns.FullJournalBlocks`), and enough of them block
  publication and removal for good (`InterruptionsBlock` of both modules).
- Whether a printed managed unit is accepted as its own deployment depends on dollar signs: the service manager
  reports them doubled, and the verification compares the doubled text (`Recogniser.PrintedUnitIsVerified`).
- An id must not be used again while its removal is journaled (`Store.ReusedId`). Ids are random in the code.
- Copies refused at their very last check leave their files staged (`Refusals.RefusedCopies`), and many refusals
  exceed the limits of the fingerprint (`Refusals.OverfullStaging`); without refusals the limits hold
  (`Staging.SoundIsAcceptable`). A selection ends at the first refusal.
- "Active" need not name a job that still works. It names the latest job that had made its first write when the
  record was read, which is the worker that was met holding the lock exactly under the condition of
  `Jobs.ActiveAnswer`. Otherwise that job is gone (`Jobs.StaleActivity`), has finished (`Jobs.FinishedActivity`),
  or, for imports only, is the next one at work (`Jobs.OvertakenActivity`).

## Model

| member | source | states |
|---|---|---|
| Names.ReadOrderDoesNotMatter | crates/lianli-control/src/media_removal.rs:309-312 | Whatever order a directory is read in, the sort by path of the review followed by the stable move of aliases to the front is one fixed unlink order of its names: every alias before every object |
| Names.OrderedIsSorted | crates/lianli-control/src/media_removal.rs:309-312 | In the unlink order no object comes before an alias, and names of one kind follow the lexicographic order |
| Names.SortedIsOrdered | crates/lianli-control/src/media_removal.rs:309-312 | The unlink order is determined by the set of names alone |
| Names.NamesAre | crates/lianli-control/src/media_publication.rs:218-230 | A valid name is 64 hexadecimal digits, or these with a dot and 1 to 16 letters and digits |
| Names.HashesAreNumbers | crates/lianli-control/src/media_removal.rs:44-46 | A digest is written as 64 hexadecimal digits |
| Storage.ApplyKeepsContent | crates/lianli-control/src/media_removal.rs:24-34 | No effect of publication or removal changes the bytes or the modification time of any file; only change time and link count move |
| Fingerprint.FingerprintDirectory | crates/lianli-control/src/media_publication.rs:203-300 | Reading the names in any order, the scan succeeds exactly on directories with valid names and sizes, at most 8192 names, at most 4096 objects on distinct inodes within 8 GiB, and every name on the inode of the object with its stem; the result identifies the directory inode and every name with its metadata |
| Fingerprint.SameIdentity | crates/lianli-control/src/media_publication.rs:269-300 | Two directories have the same identity exactly when they are one inode with the same names, and every name is the same inode with the same length, link count, modification time and change time |
| Fingerprint.AcceptableExactly | crates/lianli-control/src/media_publication.rs:203-267 | In numbers, which directories the fingerprint accepts: at most 8192 proper names of files of at most 2 GiB, at most 4096 objects on inodes of their own within 8 GiB, and every other name on the inode of the object its digits name |
| Fingerprint.CountObject | crates/lianli-control/src/media_publication.rs:239-251 | An object is refused only when no acceptable directory contains it: a shared inode, or a broken budget |
| Fingerprint.CheckOwners | crates/lianli-control/src/media_publication.rs:258-267 | After the scan of all names, the alias check succeeds exactly when every name is on the inode of the object with its own digest |
| Quota.CheckCapacity | crates/lianli-control/src/media_publication.rs:166-201 | The quota check succeeds exactly when there are at most 1023 other imports, at most 65536 names in all, and all files, each inode counted once, take at most the limit |
| Quota.Scan | crates/lianli-control/src/media_publication.rs:171-192 | Scanning one directory on top of earlier totals stops exactly when the totals after the whole directory break a limit |
| Review.Verify | crates/lianli-control/src/media_ownership.rs:110-137 | True exactly when the receipt names this imports directory, this directory inode and its present identity; false exactly when there is no receipt; anything else is an error |
| Review.VerifiedWhileUntouched | crates/lianli-control/src/media_ownership.rs:110-137 | A verified import verifies again exactly while it is the same directory with the same names, each with the same inode, length, link count and times |
| Review.VerifyLater | crates/lianli-control/src/media_ownership.rs:130-135 | When a file of a verified import was written to since, verification is an error |
| Review.ReviewDirectory | crates/lianli-control/src/media_ownership.rs:341-427 | Succeeds exactly on acceptable directories, so its own entry, object and byte limits never trip; lists every file once, sorted by path, with size and content digest, and the bytes of the directory counted once per inode; a file matches the catalogue exactly when its name starts with the digest of its content |
| Review.HashFiles | crates/lianli-control/src/media_ownership.rs:352-410 | Each inode is hashed once, and every name gets the digest of its own content; at every name the number listed so far is below the entry limit and the file within the file limit |
| Remove.ReadJournal | crates/lianli-control/src/media_removal.rs:60-108 | No journal is no error; a journal is returned exactly when it is valid for the id |
| Remove.VerifyRemaining | crates/lianli-control/src/media_removal.rs:156-210 | The check before every destructive step succeeds exactly when receipt, directory inode, journal and every remaining file are still those that were recorded; it fails when a remaining name is not in the journal or has another inode number, length or modification time than recorded |
| Remove.IntactExactly | crates/lianli-control/src/media_removal.rs:156-210 | Field by field, when an interrupted removal can be reopened: the journal, the receipt, the directory inode, and inode number, length and modification time of every remaining file |
| Remove.VerifyReview | crates/lianli-control/src/media_removal.rs:212-252 | A review authorises a removal exactly when the removal is intact, the reviewed identity is the present one, and the review lists each remaining file once with the recorded size and digest |
| Remove.AuthorisesExactly | crates/lianli-control/src/media_removal.rs:212-252 | Field by field, when a review authorises going on: it is for this import and the present state, and lists every remaining file once with the recorded digest and size, and nothing else |
| Remove.Resume | crates/lianli-control/src/media_removal.rs:352-379 | An interrupted removal reopens exactly when it is intact, with the directory that is there now; a remaining file that differs from its record is an error |
| Remove.ReviewRemoval | crates/lianli-control/src/media_removal.rs:119-143 | The review of an interrupted removal exists exactly when the remaining files still hold the recorded content; it then authorises the removal and reports exactly the names already gone |
| Remove.OwnReviewAuthorises | crates/lianli-control/src/media_removal.rs:119-143 | A complete review of the remaining directory authorises going on exactly when the remaining content is what the journal recorded |
| Remove.ReviewImport | crates/lianli-control/src/media_ownership.rs:315-339 | A review is offered for exactly three kinds of storage, checked in this order: an interrupted removal that can go on, a receipt without directory, a verified import; its identity is that of the present state, and its list, sizes and missing names are those of the storage |
| Remove.PrepareJournal | crates/lianli-control/src/media_removal.rs:443-511 | A new removal can be journaled exactly when the import is verified, the review has its identity and lists each file once as it is, and the journal directory has room |
| Remove.PreparableExactly | crates/lianli-control/src/media_removal.rs:443-511 | Field by field, when a verified import can be journaled: at most 1023 journals and temporary files, and a review of the present state that lists every file once with its size and a digest of 64 hexadecimal digits |
| Remove.Prepare | crates/lianli-control/src/media_removal.rs:436-528 | Reuses the journal of an interrupted removal exactly when the review authorises it, and otherwise writes the new journal, with the state after an interruption at each write |
| Remove.WrittenJournalIsIntact | crates/lianli-control/src/media_removal.rs:519-527 | Right after the journal is written its own check succeeds |
| Removal.AcceptableAfterUnlink | crates/lianli-control/src/media_removal.rs:310-311 | Unlinking the next name of the order leaves a directory that the fingerprint accepts: no alias ever loses its object |
| Removal.UnlinkKeepsPending | crates/lianli-control/src/media_removal.rs:24-34 | Because only change time and link count move, an unlink invalidates no recorded identity of a surviving name, and the removal can still go on |
| Removal.PendingStep | crates/lianli-control/src/media_removal.rs:305-350 | Any single effect of a removal that can go on leaves a removal that can go on with exactly the rest of the plan, and the last effect leaves no directory, receipt or journal |
| Removal.JournalStep | crates/lianli-control/src/media_removal.rs:456-480 | Writing the journal of a verified import turns it into a removal that can go on |
| Attempt.RemoveWith | crates/lianli-control/src/media_removal.rs:279-350 | An attempt does nothing unless it is authorised, the caller reviewed exactly this state and a needed journal has room; otherwise it performs exactly its plan up to the interruption and never fails in between; a remaining file that differs from its record stops it without any effect |
| Attempt.UnlinkFiles | crates/lianli-control/src/media_removal.rs:308-329 | The unlink loop passes its per-file check at every name and stops only at an interruption |
| Attempt.RemoveAll | crates/lianli-control/src/media_removal.rs:305-350 | Once prepared, the attempt goes through files, directory, receipt and journal in this order; none of its three checks in between ever refuses |
| Attempt.ReviewIsPreparable | crates/lianli-control/src/media_removal.rs:436-511 | A complete review of a verified import can be journaled exactly when the journal directory is not full |
| Attempt.JournaledReview | crates/lianli-control/src/media_removal.rs:305-306 | The review still authorises the removal after its own journal was written |
| RemovalRuns.EveryPrefixIsPending | crates/lianli-control/src/media_removal.rs:279-350 | From every state left by stopping after any effect, the removal reopens and its plan is exactly what was left |
| RemovalRuns.PendingRun | crates/lianli-control/src/media_removal.rs:279-379 | Any sequence of attempts with any reviews, each stopped anywhere, has performed a prefix of one plan: it can go on until the whole plan is done, and nothing is left after |
| RemovalRuns.ReviewedRunCompletes | crates/lianli-control/src/media_removal.rs:279-350 | With fresh reviews the effects of interrupted attempts add up, and the removal is complete exactly when they cover the plan |
| RemovalRuns.HealthyStep | crates/lianli-control/src/media_removal.rs:279-350 | Every attempt keeps an import verified, continuable, a lone receipt or gone; what is left to do never grows, and an attempt that may start strictly shrinks it unless it stopped before its journal was in place |
| RemovalRuns.HealthyIsReviewable | crates/lianli-control/src/media_ownership.rs:315-339 | In every one of those states except gone, a review is offered |
| RemovalRuns.HealthyRun | crates/lianli-control/src/media_removal.rs:279-350 | The same over every run of attempts |
| RemovalRuns.ReviewStaysGood | crates/lianli-control/src/media_removal.rs:287-290 | A review taken during a removal is accepted later exactly when no file and no directory was removed in between: every unlink demands a new review |
| RemovalRuns.FullJournalBlocks | crates/lianli-control/src/media_removal.rs:500-507 | Once journals and leftover temporary files are too many, no sequence of attempts removes an import that is not journaled yet |
| RemovalRuns.InterruptionsBlock | crates/lianli-control/src/media_removal.rs:500-507 | That state is within reach: from any verified import, one more interrupted attempt than there is room left for journals, each authorised and freshly reviewed, leaves an import that is still verified and reviewed but that no later attempt can remove; one attempt fewer does not |
| RemovalRuns.RunLeavesOthers | crates/lianli-control/src/media_removal.rs:279-350 | No run of attempts on one import, in whatever state and stopped anywhere, changes a file, receipt or journal of another |
| RemovalRuns.PerformTry | crates/lianli-control/src/media_removal.rs:279-350 | Connects the runs with the code: one call of the removal leaves exactly the state the runs are about |
| Publication.Record | crates/lianli-control/src/media_ownership.rs:67-107 | The receipt is written when none is there and there is room; the same receipt is accepted again; a different one is refused; with the state after an interruption at each write |
| Publication.Publish | crates/lianli-control/src/media_publication.rs:89-145 | Publication performs exactly receipt and rename when the staged directory is the prepared one, fits and its receipt can be recorded; it reports success without effects exactly when the destination is already there with this identity and the source is gone |
| Publication.PublishSelection | crates/lianli-control/src/media_import.rs:56-157 | Publishing a selection performs exactly receipt and rename when nothing is cancelled and the destination is free; otherwise the staged copy is dropped |
| PublicationRuns.PhaseStep | crates/lianli-control/src/media_publication.rs:89-145 | One attempt, stopped anywhere, moves a publication from phase to phase: nothing, receipt, in place |
| PublicationRuns.RunIsPhases | crates/lianli-control/src/media_publication.rs:89-145 | However often and wherever it is interrupted, the state is one of these phases |
| PublicationRuns.PhasesAdvance | crates/lianli-control/src/media_publication.rs:89-145 | A phase is never undone, and each interrupted receipt write leaves at most one temporary file |
| PublicationRuns.RerunConverges | crates/lianli-control/src/media_publication.rs:89-145 | An uninterrupted rerun completes the publication from every interrupted state, exactly unless leftover temporary files have used up the room of the receipt |
| PublicationRuns.InterruptionsBlock | crates/lianli-control/src/media_ownership.rs:86-105 | The exception is within reach: one more interrupted attempt than there is room for receipts, and no later attempt records the receipt or moves the directory |
| PublicationRuns.CompleteIsVerified | crates/lianli-control/src/media_ownership.rs:110-137 | A complete publication is one directory with one matching receipt and no staged source; ownership verification accepts it and publishing again does nothing |
| PublicationRuns.IncompleteIsRetryable | crates/lianli-control/src/media_publication.rs:97-118 | In the earlier phases the source is still staged and admitted, and a receipt that was left belongs to it |
| PublicationRuns.NeverReplaces | crates/lianli-control/src/media_publication.rs:119-134 | No attempt, in any state, replaces, changes or removes an existing import or its receipt |
| PublicationRuns.Attempt | crates/lianli-control/src/media_publication.rs:89-145 | Connects the phases with the code: one call leaves exactly the state they describe |
| Store.StepKeepsSound | crates/lianli-control/src/media_publication.rs:166-201 | Any staging, publication, selection or removal, with any input and stopped after any effect, keeps every import verified or continuable, files unshared between directories, and the store within 8 GiB, 1024 imports and 65536 names |
| Store.RunKeepsSound | crates/lianli-control/src/media_publication.rs:166-201 | The same in every reachable store |
| Store.EmptyIsSound | crates/lianli-control/src/media_ownership.rs:139-153 | An empty store is such a store |
| Store.ReusedId | crates/lianli-control/src/media_removal.rs:156-167 | A directory published under an id whose removal is still journaled for another directory can never be reviewed, and no sequence of attempts removes it; without a journal it can |
| Store.Select | crates/lianli-control/src/media_import.rs:56-157 | Connects the runs with the code of publishing a selection |
| Inventory.Inspect | crates/lianli-control/src/media_ownership.rs:139-299 | The inventory finishes exactly within its limits and without leftover temporary files; it then lists every known id once, with the bytes counted once per inode and with ownership exactly when verified, resumable or a lone receipt |
| Inventory.ListImports | crates/lianli-control/src/media_ownership.rs:158-208 | The directory and file limits of the first loop trip exactly when there are more than 1024 imports or more than 65536 names |
| Inventory.ListReceipts | crates/lianli-control/src/media_ownership.rs:209-256 | The receipt loop fails exactly on more than 2048 receipts, more than 1024 entries, or a file that is not a receipt |
| Inventory.ListRemovals | crates/lianli-control/src/media_ownership.rs:257-292 | The removal loop fails exactly on more than 1024 journals or entries, or a file that is not a journal; each journaled id is owned exactly when its removal reopens |
| Inventory.SoundInventory | crates/lianli-control/src/media_ownership.rs:162-191 | In every sound store the directory and file limits cannot trip, and every known id is reported as owned and can be reviewed |
| Inventory.RunKeepsDebris | crates/lianli-control/src/media_ownership.rs:100-105 | No operation retires the temporary file of an interrupted receipt or journal write |
| Inventory.InterruptedWriteStopsInventory | crates/lianli-control/src/media_ownership.rs:219-226 | One publication interrupted during its receipt write stops the inventory for good, whatever runs later |
| Staging.Copy | crates/lianli-control/src/media_staging.rs:305-334 | The copy loop succeeds exactly when it is not cancelled and exactly the announced bytes were read from a source whose identity did not change; the content is what was read |
| Staging.MediaStaging.Add | crates/lianli-control/src/media_staging.rs:260-382 | A source is accepted exactly when it is in bounds and its copy goes through; an unchanged source seen before gives the same destination and changes nothing; a refused copy leaves a file exactly when only its last check failed; the new state differs by exactly that file, its alias and its record |
| Staging.AcceptedExactly | crates/lianli-control/src/media_staging.rs:260-334 | In numbers, when a source is accepted: an absolute path of at most 4096 characters to a regular file that did not change since it was copied, or is new within 4096 sources, 2 GiB for itself and 8 GiB in all, and is copied without being cancelled |
| Staging.DestinationsAre | crates/lianli-control/src/media_staging.rs:222-226 | A destination is an absolute path of at most 4000 characters |
| Staging.ExtensionOf | crates/lianli-control/src/media_staging.rs:351-361 | A copy keeps the extension of its source in lower case, when it is 1 to 16 letters and digits after the last dot of a name that has something before it |
| Staging.OtherExtensions | crates/lianli-control/src/media_staging.rs:351-361 | Every other copy is named .bin: without a dot, with the only dot at the start, for a parent directory, and for an empty, long or unusual extension |
| Staging.MediaStaging.PutFiles | crates/lianli-control/src/media_staging.rs:339-376 | A new content becomes one object and adds to the stored bytes; an existing one is reused; the alias is a hard link to it |
| Staging.MediaStaging.constructor | crates/lianli-control/src/media_staging.rs:244-254 | A new staging area is empty and sound |
| Staging.PlacedSound | crates/lianli-control/src/media_staging.rs:339-381 | Placing a copy keeps every staged name valid and linked to the object of its digest, and the stored bytes equal to the objects, whether or not the copy is recorded in the end |
| Staging.SoundIsAcceptable | crates/lianli-control/src/media_publication.rs:239-267 | What any sequence of copies builds has exactly the stored bytes in its objects, within 8 GiB, and the fingerprint accepts it exactly while it has at most 4096 objects and 8192 names, which is always so unless copies were refused after they were placed |
| Staging.StagedContent | crates/lianli-control/src/media_staging.rs:339-381 | Every source path maps to a destination whose staged file holds exactly the bytes read, and two sources share an inode exactly when their contents are equal, for any digest without a collision among the contents in play |
| Staging.PreservedExactly | crates/lianli-control/src/media_staging.rs:339-381 | When only listed contents are staged, every source keeps exactly the bytes read if and only if no two different listed contents have the same digest |
| Staging.DigestExists | crates/lianli-control/src/media_staging.rs:339 | For any contents, up to 10^64 of them, there is a digest without a collision among them, so the assumption of the content lemmas can always be met |
| Staging.CopyTwo | crates/lianli-control/src/media_staging.rs:260-382 | Two steady sources with any contents within the limits are copied into a staging area that holds nothing else, and a digest that tells the two apart meets the assumption of the content lemmas there |
| Refusals.RefusedCopies | crates/lianli-control/src/media_staging.rs:372-381 | Each copy that is refused at its last check leaves an object and no record; with more than 4096 objects the fingerprint refuses the directory |
| Refusals.OverfullStaging | crates/lianli-control/src/media_staging.rs:372-381 | A staging area whose 4097 refused copies make it unacceptable is within reach |
| Selection.Dependencies | crates/lianli-control/src/media_import.rs:241-280 | A dependency list exists exactly for 1 to 4096 absolute references of at most 4096 bytes, and lists each referenced path once, in order |
| Selection.DedupIsSet | crates/lianli-control/src/media_import.rs:277-278 | Sorting and removing adjacent duplicates removes all duplicates and nothing else |
| Selection.StageAll | crates/lianli-control/src/media_import.rs:293-303 | Either exactly the dependencies are staged with their bytes, or the first one that is cancelled, does not open or is not accepted ended it with exactly those before it staged |
| Selection.RewriteAll | crates/lianli-control/src/media_import.rs:304-314 | Every reference that was copied is replaced in place by its destination, and no other |
| Selection.PrepareFrom | crates/lianli-control/src/media_import.rs:282-323 | Success means an acceptable staged directory and every reference of every display and template leading to a staged file with exactly the bytes of the source it named, for any digest without a collision among the bytes of those sources; failure has one of the listed reasons |
| Imports.ValidateWith | crates/lianli-control/src/media_import.rs:168-212 | Validation succeeds exactly when every reference leads into the staging area, the decoder accepts the staged files behind them, and the directory is acceptable with the same identity before and after |
| Imports.DecodedCopies | crates/lianli-control/src/media_import.rs:190-200 | What the decoder is asked for is the staged copy of the bytes read from the source the reference named, for any digest without a collision among the contents in play |
| Imports.PublishedSelection | crates/lianli-control/src/media_import.rs:113-150 | After publication the import is verified and every reference leads to a file of it with exactly the bytes read from its source, for any digest without a collision among the contents in play |
| Imports.ImportStays | crates/lianli-control/src/media_removal.rs:269-350 | Over every run of the store, a published import keeps its files, receipt and identity until a removal of that very import is attempted |
| PathWalk.Resolve | crates/lianli-control/src/protected_path.rs:7-51 | The work-list loop ends on every file system and computes the recursive walk with at most 40 links |
| PathWalk.WalkAppend | crates/lianli-control/src/protected_path.rs:35-44 | Putting the components of a link in front of the work list is resolving the link completely first |
| PathWalk.WalkIsSafe | crates/lianli-control/src/protected_path.rs:15-50 | Wherever a walk ends, it ends under the boundary, on no link, with every directory on the way trusted |
| PathWalk.ResolutionIsSafe | crates/lianli-control/src/protected_path.rs:7-51 | Every prefix of a resolved path lies under the boundary, is not a link and passed the trust check |
| PathWalk.ResolvedIsProtected | crates/lianli-control/src/protected_path.rs:62-80 | No account outside the trusted owners can write a file at a resolved path, remove or rename any component of it, or remove an entry that is not its own from a directory on the way; all it may do is create names in a sticky directory of its group |
| PathWalk.PlainComponent | crates/lianli-control/src/protected_path.rs:23-48 | Exactly when a component that is no link is refused, in its owner, its write bits, the sticky bit and its kind |
| PathWalk.BoundaryIsChecked | crates/lianli-control/src/protected_path.rs:13-14 | The boundary is accepted exactly as a directory with a trusted owner that others may not write, nor its group unless it is sticky |
| PathWalk.WalkIsGuardedPosix | crates/lianli-control/src/protected_path.rs:15-50 | The walk is pathname resolution as in section 4.13 of IEEE Std 1003.1-2017 at every step that passes the trust and boundary checks, and a failure otherwise |
| PathWalk.ResolutionIsPosix | crates/lianli-control/src/protected_path.rs:7-51 | Resolution under a real boundary leads to the same place as resolving the whole path from the root, or fails exactly when a step is not guarded |
| PathWalk.CycleFails | crates/lianli-control/src/protected_path.rs:32-35 | Every walk into a cycle of relative links of one directory fails, whatever its link budget |
| Startup.Run | crates/lianli-control/src/service_startup.rs:225-256 | For all hidden layers and any commands lost, refused or applied without an answer: the requests are the plan up to the first unanswered one, every enable request met a machine whose other mode had no layer, no step has both modes enabled unless the start had, success means the desired policy was observed, and a reliable backend reaches every valid policy from every state |
| Startup.DisableModes | crates/lianli-control/src/service_startup.rs:230-236 | Clearing requests only what has to change, and reliably leaves the policy that is then demanded |
| Startup.EnableModes | crates/lianli-control/src/service_startup.rs:241-255 | Enabling starts only from the demanded policy, so it never meets the other mode enabled |
| Startup.EnablesFollowDisables | crates/lianli-control/src/service_startup.rs:229-250 | The plan holds at most one enable request, its last, and both layers of the other mode are clear by then |
| Startup.NothingToDo | crates/lianli-control/src/service_startup.rs:225-256 | Nothing is requested exactly when the policy is already in effect, so a rerun changes nothing |
| Startup.RunMany | crates/lianli-control/src/service_startup.rs:225-256 | Over every sequence of changes both modes are never enabled unless they were at the start |
| Startup.RunSystem | crates/lianli-control/src/service_startup.rs:164-191 | Restoring the system mode never touches the user mode, enables only after the system mode was found disabled, and success means the desired state was observed |
| Startup.RestoreMatchesBoot | crates/lianli-control/src/service_startup.rs:91-109 | Restoring a recorded policy asks for exactly what the same machine shows after a boot that drops runtime layers; an unknown boot is refused exactly for runtime policies |
| Gate.ClosedGate | crates/lianli-control/src/service_selection.rs:103-105 | While an operation holds the gate no scope and account may launch, and only its own resume changes the record |
| Gate.SelectionLaunches | crates/lianli-control/src/service_selection.rs:103-105 | After a selection is published, by replacing or by opening the gate, exactly its account in its mode may launch, or anyone when nothing is selected |
| Gate.OneLauncher | crates/lianli-control/src/service_selection.rs:103-105 | No two different pairs of mode and account may launch, unless nothing is stored |
| Gate.AdmittedExactly | crates/lianli-control/src/service_selection.rs:227-292 | From the record alone, which requests are acted upon: a replacement while no operation holds the gate, a pause while none or the same does, a resume by the operation that holds it or for the selection that is already there |
| Gate.NeverAdmitted | crates/lianli-control/src/service_selection.rs:227-292 | Nothing is acted upon without the locks, for the account of the administrator, or under an identifier that is none |
| Gate.OperationsAreNumbers | crates/lianli-control/src/service_selection.rs:93-97 | The identifiers of operations are the hexadecimal notations of nonzero 128-bit numbers |
| Gate.LiveOpens | crates/lianli-control/src/service_selection.rs:316-349 | A live resume opens the gate of its own operation exactly when the source and the locks verify and nobody touched the record meanwhile |
| Gate.GateSurvives | crates/lianli-control/src/service_selection.rs:361-398 | A closed gate survives every run of requests that are not its own resume, with the selection under it |
| Gate.PauseThenResume | crates/lianli-control/src/service_selection.rs:255-292 | Pausing keeps the selection, so resuming with it restores the record exactly, whatever was requested in between |
| Gate.ResumeConverges | crates/lianli-control/src/service_selection.rs:278-292 | A resume interrupted anywhere, any number of times, and retried with the same selection ends in the record of an uninterrupted one |
| Gate.RunKeepsValid | crates/lianli-control/src/service_selection.rs:87-101 | Every run keeps a valid record |
| Gate.Store.Put | crates/lianli-control/src/service_selection.rs:493-526 | An invalid record is never stored; an interrupted write leaves the old record or the new one |
| Gate.Store.Replace | crates/lianli-control/src/service_selection.rs:227-253 | The selection is replaced exactly when the locks verify, the selection is unprivileged and the gate is open; success leaves exactly the published selection, and a closed gate is left alone |
| Gate.Store.Pause | crates/lianli-control/src/service_selection.rs:255-263 | The gate is closed exactly when it is open or held by the same operation |
| Gate.Store.Resume | crates/lianli-control/src/service_selection.rs:278-292 | The gate is opened exactly by its own operation, or by anyone for whom it already shows the selection |
| Gate.Store.ResumeLive | crates/lianli-control/src/service_selection.rs:316-349 | A live resume publishes only when the record did not change across the verification of the running source, and reports success exactly when both verifications and the publication went through |
| Barrier.BarrierHolds | crates/lianli-control/src/account_publication.rs:100-263 | In every interleaving with either side failing at any step, settings are touched only after the journal holds the very backup the helper prepared, and the coordinator succeeds only after the helper finished, with that same backup except on recovery |
| Barrier.StepKeeps | crates/lianli-control/src/account_publication.rs:120-155 | Each step of coordinator or helper keeps the invariant that ties journal, packets and transaction together |
| Barrier.SuccessIsReachable | crates/lianli-control/src/account_publication.rs:100-263 | For every account, every action with a backup and every valid backup, some interleaving succeeds |
| Barrier.RecoveryIsReachable | crates/lianli-control/src/account_publication.rs:100-263 | A recovery can succeed without a backup of its own, with whatever backup it put back |
| Barrier.ChangedBackupIsRefused | crates/lianli-control/src/account_publication.rs:143-155 | A helper that returns another backup than the authorized one is refused, although it has touched the settings |
| Barrier.AcceptedAnswers | crates/lianli-control/src/account_publication.rs:129-155 | The coordinator goes on exactly with the answer it waits for: the right kind, no descriptor, a valid backup that is there unless this is a recovery, and in the end the authorized one |
| Barrier.AcceptedRequests | crates/lianli-control/src/account_publication.rs:190-256 | The helper goes on exactly with both locks, a request of its own account and an authorization, each with or without descriptor as it should be, while it still inherits the locks |
| Barrier.FailuresExit | crates/lianli-control/src/account_publication.rs:190-263 | A helper that meets an error, or has lost the locks when it is done, neither confirms nor reports success |
| Barrier.BackupNames | crates/lianli-control/src/state_transaction.rs:625-636 | A backup identifier is the prefix with 1 to 32 letters and digits |
| Locks.Exclusion | crates/lianli-control/src/reservation.rs:124-133 | In every run of opening, duplicating, locking, unlocking and closing, at most one open file description holds an inode exclusively, and then nobody holds it shared |
| Locks.OwnershipEnds | crates/lianli-control/src/reservation.rs:178-184 | An exclusive lock ends exactly by unlocking or downgrading through one of its own descriptors or by closing the last of them |
| Locks.OwnershipRuns | crates/lianli-control/src/reservation.rs:178-184 | Over every run of any processes, a lock that is owned at the start is owned all the way exactly when no operation gives it up at its time |
| Locks.OpenLocked | crates/lianli-control/src/reservation.rs:86-144 | With any operations of other processes before the open, between the attempts and after the lock, a reservation succeeds exactly when the path names the expected inode before and while it is opened, the lock is free at the moment of some attempt, and the path still names that inode at the end; otherwise lock and descriptor are given back and nothing else has changed |
| Locks.AcquiredWhenFree | crates/lianli-control/src/reservation.rs:123-133 | Polling gets the lock exactly when it is free at the moment of one of the attempts, and failed attempts disturb nobody |
| Locks.DropReleases | crates/lianli-control/src/reservation.rs:178-184 | After the drop the inode is free, even while duplicates of the descriptor live on, and no other lock has changed |
| Locks.InheritedDropKeeps | crates/lianli-control/src/reservation.rs:254-261 | Closing an inherited descriptor never takes the lock of the coordinator |
| Locks.VerifyInherited | crates/lianli-control/src/reservation.rs:311-336 | One inherited descriptor verifies exactly when it is for the inode its path names and only its own description has a lock; a lock that is owned already is not touched |
| Locks.VerifyReservations | crates/lianli-control/src/reservation.rs:310-343 | Both inherited reservations verify exactly when each can be locked exclusively in turn and they are different inodes |
| Locks.HelperAfterDrop | crates/lianli-control/src/reservation.rs:178-184 | While the coordinator has its lock the check of the helper changes nothing; after the coordinator dropped it, that check takes the lock again |
| DecoderCache.CheckOne | crates/lianli-control/src/media_validation.rs:108-141 | With files changing at any moment, a dependency succeeds or fails as the decoder said about an open file with the identity that its own open file showed first, and again after the decoder, as did the path when it was opened again; unless the path did not open or the file changed before the second look |
| DecoderCache.Recheck | crates/lianli-control/src/media_validation.rs:133-139 | The second look passes exactly on two more sights of the same identity, through the open file and through the path |
| DecoderCache.FinalPass | crates/lianli-control/src/media_validation.rs:156-167 | Success means that every cached path showed the cached identity again, without running the decoder |
| DecoderCache.CheckWith | crates/lianli-control/src/media_validation.rs:79-169 | Every outcome is accounted for by the looks of its own turn, the turns following each other; a clean report means that each path, opened again after the last decoder run, still showed the identity its decoder accepted; with steady files the outcomes are those without a cache and each pair of path and kind that opens is decoded once |
| DecoderCache.IssuesAreFailures | crates/lianli-control/src/media_validation.rs:142-154 | The issues are the first 32 failures of the dependencies, in order |
| DecoderCache.CleanReport | crates/lianli-control/src/media_validation.rs:156-168 | From no failures and a passed final pass it follows that every dependency is validated at the identity seen last |
| UnitText.ReplacementsAreEscape | crates/lianli-control/src/distrobox_unit.rs:35-39 | The four replacements in sequence equal one escape of every character |
| UnitText.QuoteRoundTrip | crates/lianli-control/src/distrobox_unit.rs:28-41 | For every accepted value and every environment, reading the quoted value as one word, then specifiers, then environment expansion returns the value (systemd.service(5), command lines) |
| UnitText.QuotableExactly | crates/lianli-control/src/distrobox_unit.rs:28-32 | A value can be quoted exactly when it has 1 to 4096 characters and no control character |
| UnitText.OtherSpecifiers | crates/lianli-control/src/distrobox_unit.rs:35-39 | Of the specifiers of the service manager only the doubled percent sign reads as text |
| UnitText.PrintedReads | crates/lianli-control/src/distrobox_unit.rs:28-41 | A printed command line is read back as exactly its arguments |
| Units.GeneratedUnit | crates/lianli-control/src/distrobox_unit.rs:74-90 | For all accepted inputs the printed text reads back as its lines, with exactly one start and two stop commands, each readable as its arguments |
| Units.ManagedUnit | crates/lianli-control/src/distrobox_unit.rs:104-140 | The same for the managed units of both modes |
| Units.SystemUnit | crates/lianli-control/src/distrobox_unit.rs:142-177 | The same for the system unit with an explicit configuration |
| Units.UnitSettings | crates/lianli-control/src/distrobox_unit.rs:74-90 | The text of the session unit names no account and that of the system unit the account it was printed for; both name their target, restart on failure, and stop their control group without force within the given time |
| Units.ManagedSettings | crates/lianli-control/src/distrobox_unit.rs:104-140 | The same for the managed units of both modes |
| Recogniser.GeneratedCommands | crates/lianli-control/src/distrobox_unit.rs:74-90 | The start command of the session unit runs the daemon and its stop command the control program, inside the box and under its own invocation; what the service manager reports of them is recognised as the box |
| Recogniser.SystemCommands | crates/lianli-control/src/distrobox_unit.rs:142-177 | The same for the system unit, with the options of system mode |
| Recogniser.ManagedCommandsAre | crates/lianli-control/src/distrobox_unit.rs:104-140 | The commands of a managed unit run the daemon in the working directory and with the configuration of its own mode, and stop it with the control program |
| Recogniser.GeneratedExactly | crates/lianli-control/src/distrobox_unit.rs:43-90 | The session and system units exist exactly for a valid box name, an absolute path to distrobox-enter without dollar signs, absolute paths that can be printed, and an unprivileged account |
| Recogniser.ManagedExactly | crates/lianli-control/src/distrobox_unit.rs:104-140 | A managed unit exists exactly for such a box whose paths have no parent components, two configurations in different directories, and paths of its mode that can be printed |
| Recogniser.BoxNamesAre | crates/lianli-control/src/distrobox_unit.rs:19-26 | A box name has 1 to 255 letters, digits, underscores, dots, dashes and spaces, and starts with a letter or digit |
| Recogniser.ManagedUnitIsRecognised | crates/lianli-control/src/distrobox_service.rs:111-151 | Every printed managed unit is recognised with its own box name, in both modes, unless doubling its dollar signs made the working directory or the user configuration unacceptable |
| Recogniser.PrintedUnitIsVerified | crates/lianli-control/src/distrobox_service.rs:45-80 | A printed managed unit is accepted as its own deployment exactly when working directory, binary directory and configuration have no dollar sign |
| Recogniser.AcceptedIsPrinted | crates/lianli-control/src/distrobox_service.rs:45-80 | Whatever is accepted for a deployment has exactly the printed vectors, with paths that differ from the deployment at most by normalisation |
| Recogniser.RecognisedUser | crates/lianli-control/src/distrobox_service.rs:111-283 | In user mode, whatever is recognised as a box has exactly the vectors of a session unit, or of a managed unit with an acceptable working directory and configuration |
| Recogniser.RecognisedSystem | crates/lianli-control/src/distrobox_service.rs:111-283 | In system mode, whatever is recognised as a box has exactly the vectors of a system unit, or of a managed unit with an acceptable working directory |
| Recogniser.VectorsMatch | crates/lianli-control/src/distrobox_service.rs:185-283 | A managed pair of vectors is matched exactly when the paths in it are acceptable |
| Recogniser.JoinedPath | crates/lianli-control/src/distrobox_service.rs:275-279 | What is reported of a joined path keeps its file name and parent, and is the same path exactly without dollar signs |
| Jobs.AnswersAreTrue | crates/lianli-control/src/operation_job.rs:176-206 | Over all interleavings of any workers and observers, with deaths anywhere: success and failure follow that job's own final write, interrupted means its worker vanished without one and none will follow, active means that there was a moment of the call when the witness held the lock and another when the record of the named job was read |
| Jobs.ActivityWasSeen | crates/lianli-control/src/media_import_job.rs:157-228 | In every run, an observer that answered active was waiting from a moment when the witness held the lock until it answered |
| Jobs.ActiveAnswer | crates/lianli-control/src/operation_job.rs:176-206 | An active answer names the latest job that had made its first write when the record was read: the witness exactly when that is the witness, for services exactly when the witness had written by then; any other named job has ended by the answer, except an import that was working when the record was read |
| Jobs.ActiveJobWorked | crates/lianli-control/src/media_import_job.rs:157-228 | The named job held the lock at one of the two moments of the call exactly when it is the witness or had not released its lock when the record was read |
| Jobs.HistoryStays | crates/lianli-control/src/operation_job.rs:346-358 | A final write is never taken back, and a worker that is gone never writes one |
| Jobs.StaleActivity | crates/lianli-control/src/operation_job.rs:183-187 | An active answer can name a job whose worker is gone, while another worker that has not written yet holds the lock |
| Jobs.FinishedActivity | crates/lianli-control/src/operation_job.rs:176-206 | An active answer can name a job that finished between the reading of its record and the lock attempt |
| Jobs.OvertakenActivity | crates/lianli-control/src/media_import_job.rs:157-228 | An active answer about an import can name a later import, which is working, than the one that was met holding the lock |
| ServiceAction.RunAction | crates/lianli-control/src/service_operation.rs:181-282 | For every behaviour of the services, the request is dispatched once, exactly when the checks before it passed, and not at all when the first inspection shows that any check failed that the action needs; success means the outcome was observed, with a new instance on restart; an accepted request whose outcome shows at once succeeds, and any accepted one fails only at the deadline; no step has both modes up unless the start had |
| ServiceAction.RunCooperative | crates/lianli-control/src/service_operation.rs:181-282 | When every question is answered, every check passes and jobs settle, start, stop and restart each dispatch once and reach their outcome, a restart with a new instance |
| ServiceAction.DispatchKeepsApart | crates/lianli-control/src/service_operation.rs:124-179 | However the services moved since a passed preflight, dispatching brings up no second mode |
| ServiceAction.Check | crates/lianli-control/src/service_operation.rs:221-255 | One inspection accepts exactly the shown outcome under an unchanged lock |
| ServiceAction.RunAll | crates/lianli-control/src/service_operation.rs:181-282 | Over every sequence of actions, if only dispatched actions start services and the modes are apart at the start, they are never both up |
| ServiceAction.VerifyDaemon | crates/lianli-control/src/native_switch.rs:95-134 | A daemon is verified exactly when one inspection shows it running and owning the hardware in the selected mode, with the other mode idle, and the daemon then answers as a guarded one |
| ServiceAction.StartSelected | crates/lianli-control/src/native_switch.rs:146-178 | The start loop dispatches at most once, and exactly when the first look shows the mode idle and the checks pass; a daemon that is verified at the first look is left alone; success means the selected mode runs and the other is idle, and is reached whenever nothing but cooperation is met |
| ServiceAction.StopDestination | crates/lianli-control/src/native_switch.rs:180-199 | The stop loop dispatches at most once, never when the first look shows the destination idle, and for a running one exactly when the checks pass; success means the destination was seen idle, and is reached whenever nothing but cooperation is met |

## Left out

- SHA-256 is any function with results of 64 hexadecimal digits; a fingerprint is the value that was hashed. The lemmas about file contents hold for digests without a collision among the contents in play, which `Staging.DigestExists` shows to exist and `Staging.PreservedExactly` shows to be needed.
- Modes, owners, file types, link counts of metadata files, device numbers and malformed JSON are constant and not modelled; so is the 4 MiB bound of a journal, which 8192 bounded entries do not reach.
- The directories of imports, receipts and removals are always there; an absent one is an empty one.
- Inode numbers are never reused, and ids of staged directories are new; `Store.ReusedId` says what happens otherwise.
- Deadlines, cancellation and polling intervals are an arbitrary early stop: a number of effects, of passed checks, or of clock ticks.
- Storage.Disk.Perform: discarding a staged directory is one effect, because nothing reads a half-discarded one.
- Concurrent changes of the store during one call: the callers exclude them, and the second looks inside one call (`verify` after a review, the fingerprint after hashing) therefore see the same state.
- Staging.MediaStaging.Add: the temporary file of a copy in progress and the check that an existing alias was not replaced; nobody else writes there.
- Staging.MediaStaging.constructor: opening the parent directory and its ownership; the checks of the destination path are in `Selection.PrepareFrom`.
- Selection.Dependencies: the JSON size limit, the item counts and the extra references that a display takes from its template; a display or template is a list of path references.
- Imports.ValidateWith: the decoder is one verdict on the list of staged files; `DecoderCache` models the loop behind it.
- Publication.PublishSelection: the JSON size limit; `addressed` says whether id and destination paths agree.
- Strings are sequences of characters: lengths are counted in characters, and names that are not UTF-8, trailing slashes in `Path::extension` and `Path::file_name` of copied sources are not modelled.
- PathWalk.ResolutionIsPosix: a trailing slash, which section 4.13 resolves as a directory, is dropped with the empty component it makes, as `Path::components` drops it.
- PathWalk.ResolvedIsProtected: accounts with privileges, access control lists and mount options; an account is its number and whether it is in the group of the files in question.
- UnitText.QuoteRoundTrip: of systemd's reading only what printed units use is modelled; single quotes, other escapes and other specifiers are rejected by the model's reader.
- Units.GeneratedUnit: the desktop capture unit of `generate_session`, `matches_installed` and the guidance texts.
- Recogniser.ManagedUnitIsRecognised: the argument vectors are drained on values, not in place; reading them over D-Bus and the session recipe are not modelled.
- Startup.Run: the loops over the two scopes are unrolled, and reading a policy from a service report (`read_startup`, `from_report`) is an inspection that may fail.
- Gate.Store.Replace: the lock checks and the check that the directory was not replaced are part of whether the request is verified and confirmed.
- Barrier.BarrierHolds: processes are steps of a state machine; the sealed request with its digest and size limit is received as sent or fails, and the settings transaction is one step that may stop half way.
- Jobs.AnswersAreTrue: processes are events of a state machine; a missing lock file, an unreadable status and the size limits are not modelled, and a status that disappeared is no answer.
- Locks.OpenLocked: other errors of the lock call than a busy lock, file type and owner, and the comparison with the host's view of the lock file from inside a container.
- ServiceAction.RunAction: service reports are reduced to a phase for each mode and seven checks; messages, container invocation ids and the write lock are part of these checks.
- ServiceAction.StartSelected: the check of the caller's context before and during the loop, and the configuration path and account of the daemon, which are part of a probe that may fail.
- `initial_state`, `rollback` and the other phases of `native_switch.rs`, the switch journal, the settings transaction, health reports, user-interface texts, process spawning, D-Bus and sockets are not part of this model.
