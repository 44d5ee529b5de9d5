# Synchronisation core: model and proofs

A headless client keeps a local vault of notes and attachments in step with a server. The files here model the parts of
it where concurrency, recovery or arithmetic make the code hard to judge by reading, and prove what those parts
guarantee. Every guarantee is about all inputs, all reachable states or all runs; nothing is bounded.

| files | what they are about |
|---|---|
| `Options`, `ByteTypes` | shared types |
| `RollingHash` | the 32-bit base-31 content hash, over bytes and UTF-16 code units, whole and sampled |
| `Paths`, `Exclusion`, `VaultScan` | path normalisation, the exclusion rules, the vault walk and the inference of deletions |
| `PageAck` | cumulative acknowledgement of sync pages |
| `Watcher`, `WatcherProofs`, `WatcherRuns`, `WatcherDeliveries`, `WatcherEvents`, `WatcherService` | the debounced watcher: timers, rename pairing, generations, the wait group |
| `EchoStore`, `EchoRuns`, `EchoLaws`, `EchoSilence` | suppression of local events that echo remote writes |
| `ChunkTransfer`, `Downloads`, `DownloadRuns`, `DownloadPages`, `DownloadArrives`, `DownloadAccounts`, `UploadResume`, `UploadCrashes` | framing, out-of-order receipt, the commit guard, page accounting, resumed uploads |
| `SyncRound`, `SyncProgress` | ownership of sync rounds, overflow recovery, completion |
| `WaitGraph` | locks, upload slots and the rename slot: who waits for whom |

Objects that the program changes in place are classes with the same fields, except where "Left out" says otherwise, and
their methods are proved to take exactly the steps of a specification on values
(`ensures Snapshot() == Step(old(Snapshot()))`); invariants and properties of whole runs are then proved about those steps. Concurrent code is cut at its critical sections: a `Label` names each section, `Enabled` says
when it may run, `Apply` what it does, and a run is any sequence of enabled labels. Timers, expiries, crashes,
disconnects and failing sends are labels that may come at any time. Content hashes are a parameter and never assumed to
be free of collisions.

Five properties do not hold without a condition. For each there are inputs on which the code fails, and the condition that
decides:

- A newest event can be lost if two rename timers share a key, which needs a path containing `->`
  (`WatcherRuns.ArrowsCollide`). A create keeps the newest events held if and only if it does not arm such a timer
  (`WatcherRuns.CoverageKeptExactly`), and the coverage of all runs without such a create is a theorem.
- A local edit can be taken for an echo if a marker is left without a record. Which runs leave one is
  `EchoLaws.StrayExactly`; from every idle state with one, every edit is lost (`EchoLaws.StrayLosesEdits`); a download
  that is overtaken by a rename onto its path leads there (`EchoLaws.EditLost`). The other way is a clear of the path
  while a callback is deferred (`EchoLaws.WipeForgets`), as by a rename, which holds no path lock
  (`EchoLaws.EditForgotten`). Runs in which neither happens lose no edit (`EchoRuns.NoLostEdit`), and
  neither happens while no rename touches the path (`EchoLaws.NoLostEditUnderLock`).
- An eligible file can be out of reach if a directory above it, or its own path, is changed by the normaliser. If all are left
  alone it is reachable (`Exclusion.EligibleReachable`); for directory names that end with white space and the trimmed
  name as folder rule, the unreachable files are characterised by `Exclusion.GapUnreachable`; `x /y/f` with the rule `x`
  is one (`Exclusion.SpaceUnreachable`).
- An overflow can lose its full scan if an incremental round starts before the goroutine that was to start the full one
  (`SyncRound.OverflowOvertaken`, `SyncRound.EarlyOverflowOvertaken`, `SyncRound.HandoffExactly`).
- A page can be credited twice for one announcement if the request for its chunks fails after the announcement has
  passed on to a session (`DownloadPages.RetargetedTwice`, `DownloadPages.ConvertedTwice`), and only then
  (`DownloadPages.FailedRequestExactly`). It can also miss its credit, exactly if a step forgets the announcement
  (`DownloadAccounts.ForgetsExactly`); otherwise every announcement is credited (`DownloadAccounts.PagesComplete`).

## Model

| member | source | states |
|---|---|---|
| RollingHash.WrapMeaning | internal/hash/hash.go:22-28 | the 32-bit wrap yields the one representable number congruent to its argument |
| RollingHash.Content | internal/hash/hash.go:22-28 | the wrapping loop computes the signed residue of the base-31 polynomial |
| RollingHash.UnsignedThenSigned | test/smoke/lib/common.sh:94-107 | keeping the sum unsigned and converting once gives the same hash |
| RollingHash.ConcatLaw | internal/hash/hash.go:22-28 | the hash of a concatenation follows from both hashes and the second length |
| RollingHash.SamplesInBounds | internal/hash/hash.go:91-101 | for every size above the limit all sampled positions are inside the file, first and last included |
| RollingHash.SampleIsThreeSlices | internal/hash/hash.go:30-40 | the positions sampled by offset are the head, the middle and the tail slice |
| RollingHash.SampleSizes | internal/hash/hash.go:30-40 | up to ten mebibytes the whole file is hashed, above that fifteen of it |
| RollingHash.FileContent | internal/hash/hash.go:30-40 | hashing a whole buffer hashes its sample |
| RollingHash.ReadFileSamples | internal/hash/hash.go:91-101 | three reads at offsets fill the buffer with the same sample |
| RollingHash.File | internal/hash/hash.go:54-77 | hashing a file by offsets equals hashing its whole content, at every length |
| RollingHash.Text | internal/hash/hash.go:42-48 | the text hash is the residue over the UTF-16 code units of the decoded text |
| RollingHash.UnitsKeepRunes | internal/hash/hash.go:42-48 | decoding the code units gives the characters back (sections 2.1 and 2.2 of RFC 2781) |
| RollingHash.AsciiUnits | internal/hash/hash.go:42-48 | code units and bytes are the same sequence if and only if the text is ASCII |
| RollingHash.TextIsContentOnAscii | internal/hash/hash.go:42-48 | text and byte hashes coincide on ASCII |
| RollingHash.DecodeEncoded | internal/hash/hash.go:42-48 | decoding undoes UTF-8 encoding for every character, whatever follows (section 3 of RFC 3629) |
| RollingHash.DecodeExactly | internal/hash/hash.go:42-48 | what is decoded is the encoded character at the front if there is one, else one bad byte |
| RollingHash.RunesOfText | internal/hash/hash.go:42-48 | the characters of an encoded text are those that were encoded |
| RollingHash.KnownHashes | internal/hash/hash_test.go:9-29 | the hashes of `hello`, of nothing, and of a text with a surrogate pair |
| Paths.PlainNormal | internal/sync/runtime_helpers.go:168-184 | paths of plain components are left alone by the normaliser |
| Paths.NormalProper | internal/sync/runtime_helpers.go:168-184 | what the normaliser leaves alone has proper components only: nothing empty, no dots, no backslash |
| Paths.GapLost | internal/sync/runtime_helpers.go:168-184 | white space at the end of a path makes no difference to the normaliser |
| Paths.ProperNormal | internal/sync/runtime_helpers.go:168-184 | so are paths of proper components that have nothing to trim or to rewrite |
| Paths.NormalizeExactly | internal/sync/runtime_helpers.go:168-184 | the normaliser fails exactly on what is empty, absolute or leads out of the vault; otherwise the result stays inside |
| Paths.CleanRewrites | internal/sync/runtime_helpers.go:176-180 | empty components, dots, and a name followed by two dots can be left out anywhere |
| Exclusion.LiteralPrefixIsComponentPrefix | internal/sync/exclusion.go:13-15 | a literal rule covers exactly the paths whose components start with its own |
| Exclusion.RuleSpelling | internal/sync/exclusion.go:8-11 | slashes at the end of a rule and the direction of its slashes make no difference |
| Exclusion.FolderExcludedExactly | internal/sync/exclusion.go:66-86 | a folder is excluded exactly if junk, or not whitelisted and hidden, started by a rule or named in one of its components by one |
| Exclusion.FileExcludedExactly | internal/sync/exclusion.go:88-119 | the same for a file, where a single name must be a directory above it, or by its extension |
| Exclusion.HiddenExactly | internal/sync/exclusion.go:47-55 | hidden means that a component starts with a dot |
| Exclusion.ExtensionRuleExactly | internal/sync/exclusion.go:112-118 | an extension rule, with or without dot, matches exactly the files that end with a dot and the same letters |
| Exclusion.NoExtensionNoRule | internal/sync/exclusion.go:112-118 | no extension rule matches a name without a dot |
| Exclusion.JunkNames | internal/sync/exclusion.go:33-45 | names of temporary files are junk in any case of the letters, and so are the names that atomic writes stage under |
| Exclusion.DotlessPart | internal/sync/exclusion.go:33-55 | nothing without a dot is junk or hidden |
| Exclusion.SensitiveNever | internal/sync/exclusion.go:66-136 | the file with the client's credentials is never synchronised or entered, whatever the rules |
| Exclusion.HiddenBelow | internal/sync/exclusion.go:47-55 | everything below a hidden directory is hidden |
| Exclusion.JunkBelow | internal/sync/exclusion.go:35-45 | everything below a junk directory is junk |
| Exclusion.RuleBelow | internal/sync/exclusion.go:17-31 | a folder rule that matches a directory matches everything below it |
| Exclusion.WhitelistKeepsAncestors | internal/sync/exclusion.go:121-136 | each ancestor of a whitelisted path is whitelisted or leads to a whitelist rule |
| Exclusion.EligibleFolderReachable | internal/sync/exclusion.go:66-86 | if a folder is not excluded, every directory above it is traversed, provided the normaliser leaves both alone |
| Exclusion.EligibleReachable | internal/sync/exclusion.go:88-136 | if a file is not excluded, every directory above it is traversed, for any mix of rules and whitelists, provided the normaliser leaves the file, its parent and the directory alone |
| Exclusion.GapUnreachable | internal/sync/exclusion.go:66-136 | for every directory name that ends with white space and the trimmed name as folder rule: the directory is not entered, and an ordinary file below it is eligible if and only if the rule does not match a component of its parent |
| Exclusion.SpaceUnreachable | internal/sync/exclusion.go:66-136 | an instance: with the folder rule `x` the file `x /y/f` is eligible and the directory `x ` is not entered |
| VaultScan.ItemsExactly | internal/sync/startup.go:624-752 | the items of a tree are exactly what names lead to from folder to folder |
| VaultScan.NoteExtension | internal/sync/startup.go:676-700 | notes are the files that end with `.md`, in any case of the letters |
| VaultScan.OffersExactly | internal/sync/startup.go:637-748 | what is offered, in walk order: every eligible item in scope, and in an incremental scan all but those remembered, older than the last time of their kind and not pending |
| VaultScan.SkippedDirKeepsNothing | internal/sync/startup.go:638-646 | nothing below a skipped directory would have been kept |
| VaultScan.ScanResult.Visit | internal/sync/startup.go:637-748 | one callback records its item exactly if it is in scope and eligible, and offers it exactly if the scan mode asks for it |
| VaultScan.ScanResult.Walk | internal/sync/startup.go:624-752 | the pruned walk records the same as filtering everything on disk |
| VaultScan.ScanResult.ComputeDelMissing | internal/sync/startup.go:763-790 | the lists are exactly the eligible cached notes and files not met, without duplicates, routed by switch and mode |
| VaultScan.ScanResult.ComputeFolderDelMissing | internal/sync/startup.go:792-807 | the same for folders |
| VaultScan.GoneIsAbsent | internal/sync/startup.go:763-807 | what the walk did not meet is what is absent from disk |
| VaultScan.AbsentExactly | internal/sync/startup.go:763-807 | a remembered path counts as deleted exactly if it is of the kind, not excluded, and nothing of its sort is in the tree outside the settings directory |
| VaultScan.ScanVault | internal/sync/startup.go:599-761 | for every tree, rule set and cache, full or incremental: the offers are the wanted items of the disk in walk order, and the deletions those the disk justifies |
| PageAck.SyncPageTracker.AdvanceSyncPageAck | internal/sync/runtime_helpers.go:715-732 | the loop drops exactly the finished front pages and acknowledges the last of them |
| PageAck.SyncPageTracker.HandleSyncPage | internal/sync/runtime_helpers.go:658-694 | a registration is a tracker step; the first one of a page wins |
| PageAck.SyncPageTracker.CompleteSyncPage | internal/sync/runtime_helpers.go:696-713 | a completion is a tracker step; surplus ones change nothing |
| PageAck.RunSound | internal/sync/runtime_helpers.go:658-732 | after any events each page is kept exactly as its history says, and passed pages were finished |
| PageAck.WatermarkRefines | internal/sync/runtime_helpers.go:715-732 | the watermark is the largest k with pages 0 to k-1 registered as non-final and fully completed |
| PageAck.AcksMatchWatermark | internal/sync/runtime_helpers.go:715-732 | acks strictly increase and the last one is the watermark minus one |
| PageAck.FinalPageNeverAcked | internal/sync/runtime_helpers.go:715-732 | a final page or anything past it is never acknowledged |
| PageAck.OrderIndependent | internal/sync/runtime_helpers.go:696-732 | two orderly interleavings of the same events end in the same state with the same highest ack |
| WatcherProofs.StepGood | internal/watcher/watcher.go:138-408 | every step keeps the account, the shape, one holder per event and, unless an event is lost, coverage |
| WatcherProofs.CreateLoses | internal/watcher/watcher.go:334-365 | arming a rename over another one with its key leaves a newest event without holder |
| WatcherRuns.WatcherCoverage | internal/watcher/watcher.go:237-408 | in every open state reached by a run that loses no event, the newest event of each path is in the hands of the loop, between the two sections of a create, or held by exactly one timer: armed, running, delivered or dropped |
| WatcherRuns.CoverageKeptExactly | internal/watcher/watcher.go:334-365 | after any run without loss, a create keeps coverage if and only if it arms no rename over the key of another newest event |
| WatcherRuns.ArrowFreeRun | internal/watcher/watcher.go:352-363 | runs over paths without an arrow lose no event |
| WatcherRuns.RenameKeysDiffer | internal/watcher/watcher.go:352-363 | without an arrow in a path the rename key determines both paths |
| WatcherRuns.ArrowsCollide | internal/watcher/watcher.go:352-363 | a concrete run of renames after which, in an open state with the loop at rest, a newest event is held by nobody |
| WatcherRuns.WaitGroupConserved | internal/watcher/watcher.go:132-161 | the counter is the running loop plus the timers not done, never negative, and grows only while the loop is counted |
| WatcherRuns.DoneOnce | internal/watcher/watcher.go:219-235 | a timer that is done never changes again, so it is counted done once |
| WatcherRuns.NoCallAfterClose | internal/watcher/watcher.go:138-161 | once Close has returned no step calls the handler |
| WatcherDeliveries.NeverTwice | internal/watcher/watcher.go:388-408 | no event is delivered twice, also when Stop loses its race |
| WatcherDeliveries.DeleteJustified | internal/watcher/watcher.go:260-267 | every delivered delete, whichever of the three sources armed it, saw its path missing between two checks at which it stood for the latest event |
| WatcherEvents.TimerSourced | internal/watcher/watcher.go:237-408 | every timer stands for an event of the run that fits it: a modify for a write or create, a delete for a removal or rename away, a rename for a create that found the rename away with nothing in between |
| WatcherEvents.StepAdds | internal/watcher/watcher.go:237-408 | every step raises the generations of the paths it names by one and arms the timers for its events |
| WatcherEvents.EventReported | internal/watcher/watcher.go:237-408 | the newest event of each path has a timer with the job that fits it, which can still call the handler or has done so, unless it is a delete that found its path there |
| WatcherEvents.DroppedThere | internal/watcher/watcher.go:260-267 | only deletes are dropped, after a generation check, because the path was seen |
| WatcherEvents.RenamePaired | internal/watcher/watcher.go:334-365 | a rename away that is still waiting and the next create of another path become one rename |
| WatcherService.Watcher.StopAndDone | internal/watcher/watcher.go:219-226 | stopping and counting done is one step of the state machine |
| WatcherService.Watcher.CancelTimerLocked | internal/watcher/watcher.go:219-226 | the fields change as the specification says |
| WatcherService.Watcher.CancelPendingRenameLocked | internal/watcher/watcher.go:228-235 | the same for the pending rename |
| WatcherService.Watcher.SchedulePathLocked | internal/watcher/watcher.go:388-408 | the same for arming a keyed timer |
| WatcherService.Watcher.FlushPendingRenameLocked | internal/watcher/watcher.go:367-386 | the pending rename becomes a keyed delete with the generation it had |
| WatcherService.Watcher.HandleWrite | internal/watcher/watcher.go:290-302 | the branch is the step on which the run theorems rest |
| WatcherService.Watcher.HandleRemove | internal/watcher/watcher.go:252-270 | the same for removals |
| WatcherService.Watcher.HandleRenameAway | internal/watcher/watcher.go:305-332 | the same for the old name of a rename |
| WatcherService.Watcher.PairRename | internal/watcher/watcher.go:334-365 | the same for pairing; without a partner the event goes on to the second section |
| WatcherService.Watcher.HandleCreated | internal/watcher/watcher.go:281-288 | the same for the second section of a create |
| WatcherService.Watcher.EnterCallback | internal/watcher/watcher.go:396-407 | the callback goes on exactly if its timer is still in place and current |
| WatcherService.Watcher.IsCurrentGen | internal/watcher/watcher.go:213-217 | the check is true exactly for open watchers and the latest generation |
| WatcherService.Watcher.CloseLocked | internal/watcher/watcher.go:138-161 | stopping the timers one by one in any order is the step that stops them all |
| EchoStore.Store.BeginRemoteWrite | internal/sync/runtime_helpers.go:332-363 | a new token owns the record; hash, preceding hash and recheck flag carry over; other paths are untouched |
| EchoStore.Store.FinishRemoteWriteLocked | internal/sync/runtime_helpers.go:365-391 | only the owner settles the record, and a set flag starts one recheck |
| EchoStore.Store.FinishRemoteWriteBaseline | internal/sync/runtime_helpers.go:410-419 | the same, but the marker is set in any case |
| EchoStore.Store.AbortRemoteWrite | internal/sync/runtime_helpers.go:421-434 | only the owner removes the record, and a set flag starts one recheck |
| EchoStore.Store.ClearRemoteWriteLocked | internal/sync/runtime_helpers.go:452-458 | record and marker of the path go, nothing else |
| EchoStore.Store.ExpireWrite | internal/sync/runtime_helpers.go:321-330 | a timer removes only the settled record of its own token |
| EchoStore.Store.DecideWrite | internal/sync/local_events.go:89-109 | the second section: retry, defer with the flag set, skip, send, or abort and send |
| EchoLaws.InFlightStays | internal/sync/runtime_helpers.go:321-458 | in every run the record of a write in flight goes only by its own end, a newer write or a clear: no timer, no callback and no superseded operation takes it away |
| EchoRuns.NoLostEdit | internal/sync/local_events.go:58-111 | in every quiescent state a local version was handed to the server, or was skipped because its hash was on record and some remote write carried that hash |
| EchoRuns.ReportGoesOn | internal/sync/local_events.go:58-111 | a callback that owes a report sends it, goes on owing it, or leaves the recheck flag |
| EchoRuns.EndGood | internal/sync/runtime_helpers.go:365-434 | ending an operation keeps the invariant: a flag becomes a recheck |
| EchoLaws.RunOneWriter | internal/sync/note_sync.go:82-129 | while no rename touches the path, the operation in flight owns the record and no marker is stray |
| EchoLaws.NoLostEditUnderLock | internal/sync/note_sync.go:216-242 | then no local edit is lost, whatever deletes clear the path under its lock |
| EchoLaws.StrayExactly | internal/sync/runtime_helpers.go:410-419 | a run leaves a marker without a record if and only if a step that sets the marker in any case found the record gone and nothing has replaced or cleared it since |
| EchoLaws.SwallowedExactly | internal/sync/local_events.go:60-76 | a callback about to look at a version on disk drops it unseen if and only if the marker is stray |
| EchoLaws.StrayLosesEdits | internal/sync/local_events.go:60-76 | from every idle state with a stray marker, every local edit is lost, and the marker stays |
| EchoLaws.EditLost | internal/sync/file_sync.go:688-794 | for every hash function, download, rename and edit: a download whose commit is overtaken by a rename onto its path leaves a stray marker, and the edit after it is lost |
| EchoLaws.WipeForgets | internal/sync/runtime_helpers.go:452-458 | in every state with a deferred callback and nothing else under way, a clear loses the edit; without it the end of the write would have started the recheck |
| EchoLaws.EditForgotten | internal/sync/runtime_helpers.go:436-450 | such states are reached: for every hash function and all contents that it tells apart, a run in which the preceding content is written back during a write, deferred, and lost to a clear |
| EchoLaws.DeferredSurvives | internal/sync/runtime_helpers.go:332-434 | a recheck flag lasts through any chain of writes until a finish or abort starts the recheck, unless the path is cleared |
| EchoLaws.RecheckCounter | internal/sync/runtime_helpers.go:396-408 | the share of a path in the counter is started minus finished rechecks, and zero exactly when none is outstanding |
| EchoSilence.CallbackVerdict | internal/sync/local_events.go:58-111 | what an undisturbed callback makes of a record, in flight or settled: its bytes are recognised, the preceding bytes deferred, other bytes sent or the record taken away |
| EchoSilence.MissingGoesOn | internal/sync/local_events.go:78-81 | a callback that finds no file is not taken for an echo |
| EchoSilence.NoEchoSent | internal/sync/local_events.go:58-111 | over any run of remote writes that come with their hash and size, with callbacks as late as they like, nothing is sent back |
| EchoSilence.LateEchoDeferred | internal/sync/local_events.go:82-105 | a late callback that finds the preceding bytes during the next write sends nothing and flags the record |
| ChunkTransfer.Uint32OfBigEndian | internal/sync/file_sync.go:79-97 | reading back a big-endian index |
| ChunkTransfer.DecodePayload | internal/sync/file_sync.go:79-97 | decoding inverts encoding |
| ChunkTransfer.PayloadDecode | internal/sync/file_sync.go:90-97 | payloads of at least 40 bytes are exactly the decodable ones, and encoding inverts decoding |
| ChunkTransfer.PayloadLayout | internal/sync/file_sync.go:79-88 | the layout byte by byte: 36 bytes of session id, the index with its most significant byte first, the data |
| ChunkTransfer.BigEndianOrder | internal/sync/file_sync.go:79-88 | encoded indices are in the order of the indices |
| ChunkTransfer.EncodeFileBinaryPayload | internal/sync/file_sync.go:79-88 | the filled buffer is the payload; other session id lengths are refused |
| ChunkTransfer.DispatchFrame | internal/sync/client.go:630-662 | a framed payload reaches exactly the handler of its prefix |
| ChunkTransfer.ChunksJoin | internal/sync/file_sync.go:802-838 | the chunks cut the content without gap or overlap |
| ChunkTransfer.TotalChunksLeast | internal/sync/file_sync.go:802-806 | the number of chunks is the least, but at least one, that holds the content |
| ChunkTransfer.AcceptCollected | internal/sync/file_sync.go:596-653 | a chunk in range is recorded once, and the merge starts exactly when the last one arrives |
| ChunkTransfer.OutOfRangeAborts | internal/sync/file_sync.go:608-613 | exactly an index out of range ends the session |
| ChunkTransfer.AssembleChunks | internal/sync/file_sync.go:702-720 | the loop joins the chunk files in order, or fails |
| ChunkTransfer.MergedMissing | internal/sync/file_sync.go:703-708 | a missing chunk file fails the merge |
| ChunkTransfer.TransferRoundTrip | internal/sync/file_sync.go:596-653 | any delivery order of the frames with any duplicates, through dispatch and decoding, starts one merge exactly when all indices are there, and it yields the content |
| DownloadArrives.FileArrives | internal/sync/file_sync.go:596-794 | the frames of a file in any order start one merge, which commits the original bytes if and only if size and hash of the session are theirs |
| Downloads.ChunkAgrees | internal/sync/file_sync.go:596-653 | handling a chunk in the map of sessions is the step of its receiving session |
| Downloads.Transfers.CleanupActiveFileTransfersOnTimeout | internal/sync/startup.go:501-534 | the loop cancels exactly the sessions in the map and empties it |
| DownloadRuns.AtMostOnce | internal/sync/file_sync.go:655-794 | over any run each session commits at most once and ends at most once |
| DownloadPages.PagesOnce | internal/sync/file_sync.go:182-229 | over any run in which no request fails whose announcement has passed on, each announcement is credited to its page at most once |
| DownloadPages.FailedRequestExactly | internal/sync/file_sync.go:218-229 | a failed request leads to a double credit, at once or in some continuation, if and only if another session carries the announcement or it was credited already |
| DownloadPages.InPlaceUnclaimed | internal/sync/file_sync.go:218-229 | the failed request of a new entry that is still in place leads to none |
| DownloadPages.RetargetedTwice | internal/sync/file_sync.go:182-229 | for every path and session: a live session is retargeted, the request fails, the session ends, and the page is credited twice |
| DownloadPages.ConvertedTwice | internal/sync/file_sync.go:218-292 | the same for a new entry that has given way to a session before its request fails |
| DownloadRuns.CommitNeedsGuard | internal/sync/file_sync.go:755-779 | only the current, uncancelled session replaces a file, with the bytes it staged |
| DownloadRuns.NeverAgain | internal/sync/file_sync.go:655-794 | a session that is no longer current never commits |
| DownloadRuns.CancelledIsGone | internal/sync/startup.go:501-513 | cancelled sessions are no longer current |
| DownloadRuns.SupersededIsGone | internal/sync/file_sync.go:252-292 | nor are superseded ones |
| DownloadRuns.CommitsPassedChecks | internal/sync/file_sync.go:721-737 | what is committed has the size and the hash of its session |
| DownloadRuns.CommitsAsTold | internal/sync/file_sync.go:182-292 | what is committed has the size, and the hash if there was one, of the last announcement of its session |
| DownloadAccounts.MergesEnd | internal/sync/file_sync.go:688-794 | a merge that is over leaves its session committed, aborted or superseded |
| DownloadAccounts.TimedOutGone | internal/sync/startup.go:501-513 | a stalled round leaves no session behind |
| DownloadAccounts.EmptyArrives | internal/sync/file_sync.go:655-664 | the session of an empty file is merged as it stands and commits nothing but the empty file |
| DownloadAccounts.ForgetsExactly | internal/sync/file_sync.go:182-292 | a step forgets an announcement exactly if it pushes out, overwrites or drops an object that carries one |
| DownloadAccounts.PagesComplete | internal/sync/file_sync.go:182-292 | when nothing is left to do, every announcement has been credited exactly once |
| UploadResume.Uploader.UploadStartChunk | internal/sync/file_sync.go:869-888 | a fresh checkpoint of this session and content that leaves a chunk is resumed after and kept; any other one is deleted and the start is 0 |
| UploadResume.Uploader.SendChunk | internal/sync/file_sync.go:833-848 | the slice that goes out is the framed chunk |
| UploadResume.Uploader.RunFileUpload | internal/sync/file_sync.go:796-867 | the loop sends exactly the chunks from its start until it is cut off, notes all but the last, loses the checkpoint to a cancellation, and finishes exactly if it gets to the end |
| UploadResume.TwoAttempts | internal/sync/file_sync.go:796-888 | an attempt after a cut-off one goes on where that one stopped: together they send each chunk once, in order |
| UploadResume.CheckpointMeansSent | internal/sync/file_sync.go:849-861 | a checkpoint k in memory, on disk or being saved means chunks 0 to k were sent in its session, over all crashes |
| UploadResume.FinishedMeansSent | internal/sync/file_sync.go:812-867 | a finishing attempt leaves every index sent and has sent the last one itself |
| UploadCrashes.LookupExactly | internal/sync/file_sync.go:869-888 | an attempt goes on after a checkpoint exactly if it is fresh, of this upload, and leaves a chunk |
| UploadCrashes.SentIsNoted | internal/sync/file_sync.go:849-861 | every chunk but the last is noted after it is sent, unless the attempt ends |
| UploadCrashes.ResumesAfterNote | internal/sync/file_sync.go:849-888 | over any run, after a note of chunk k that nothing has touched the next attempt starts with k + 1, or is rejected if it has expired |
| UploadCrashes.ForgottenStartsOver | internal/sync/file_sync.go:505-547 | after an acknowledgement, a cancellation or a time-out the next upload of the file starts from the beginning |
| UploadCrashes.ResumesAfterCrash | internal/sync/file_sync.go:849-888 | so it does after a crash, if the note was in the last snapshot written |
| UploadResume.ResumedUploadArrives | internal/sync/file_sync.go:796-888 | with unchanged content, what the session sent over all attempts is received as the original content |
| SyncRound.LostForGood | internal/sync/startup.go:419-423 | a round that lost the service never regains it |
| SyncRound.OneOutcomeEach | internal/sync/startup.go:537-587 | each round ends at most once, and only when it does not own the service any more |
| SyncRound.MarkerNeedsFullRound | internal/sync/startup.go:550-557 | the initial-sync marker is set only by full rounds that completed |
| SyncRound.FullRoundMarks | internal/sync/startup.go:550-557 | every full round that completes sets the marker, at once or when its goroutine gets to it |
| SyncRound.OverflowRecovered | internal/sync/startup.go:126-129 | with an atomic hand-off, an overflow starts a round at once or stays queued through failures and disconnects, and the next round is full |
| SyncRound.OverflowsCollapse | internal/sync/local_events.go:484-489 | repeated overflows queue one recovery, and one full round uses it up |
| SyncRound.OverflowDue | internal/sync/local_events.go:476-492 | over any run of the code as it is, an overflow during a round or at rest is queued or handed to a goroutine until the next round starts |
| SyncRound.HandoffExactly | internal/sync/startup.go:559-562 | over any run of the code as it is, the first round started after an overflow is full if and only if it is not an incremental one that starts on a new connection while the recovery is with a goroutine and nothing is queued |
| SyncRound.OverflowOvertaken | internal/sync/startup.go:559-562 | a run over a disconnect and a reconnect in which the overflow gets no full scan |
| SyncRound.EarlyOverflowOvertaken | internal/sync/local_events.go:490-491 | the same for an overflow at rest just before the first round of a connection |
| SyncRound.RoundEnds | internal/sync/startup.go:537-587 | a round that ends is reported once, and a queued overflow goes to a goroutine at once if the round is complete or the connection is up |
| SyncProgress.CompleteExactly | internal/sync/startup.go:487-499 | a round is complete exactly when no requests go out, all rechecks and transfers have ended, and each module in scope has ended in this round with as many items completed as announced |
| SyncProgress.RechecksHoldRound | internal/sync/startup.go:487-499 | a round is never complete while a recheck of any path is outstanding |
| WaitGraph.ProgramDisciplined | internal/sync/local_events.go:377-424 | every handler takes one lock at a time and never waits for a slot under it; read-loop handlers never wait for a slot |
| WaitGraph.HandlersGuard | internal/sync/local_events.go:377-424 | remote changes and merges work under the lock of their path, local deletes are sent under it, and uploads, sends and renames wait for their slot first |
| WaitGraph.WaitsDown | internal/sync/runtime_helpers.go:268-289 | whoever is waited for is closer to running |
| WaitGraph.NoCircle | internal/sync/runtime_helpers.go:71-100 | in every reachable state the wait-for relation is acyclic; a thread that waits for a slot has its edge to the read loop, which handles the acknowledgements, and holders of slots get no edges |
| WaitGraph.StuckExactly | internal/sync/runtime_helpers.go:71-100 | nothing can move if and only if nothing has arrived and everybody left waits for a taken slot |
| WaitGraph.ReadLoopFinishes | internal/sync/client.go:504-532 | the read loop always gets to the end of its handler without anybody getting a slot |
| WaitGraph.AckLetsWaiterOn | internal/sync/runtime_helpers.go:82-100 | while an acknowledgement of its kind has arrived, behind any other messages, there is a way on that gives a waiting upload or rename its slot |
| WaitGraph.SlotsBound | internal/sync/runtime_helpers.go:71-100 | over any run without draining, no more threads get a slot than there are slots and releases |
| WaitGraph.DrainLetsOn | internal/sync/runtime_helpers.go:102-121 | draining the slots lets everybody on who waits for one |
| WaitGraph.ConcurrencyManager.WaitForSlot | internal/sync/runtime_helpers.go:71-80 | entering takes one token of the right kind |
| WaitGraph.ConcurrencyManager.ReleaseSlot | internal/sync/runtime_helpers.go:82-90 | a release without a token is lost |
| WaitGraph.ConcurrencyManager.ReleaseFifoSlot | internal/sync/runtime_helpers.go:92-100 | the same for the rename slot |
| WaitGraph.ConcurrencyManager.Clear | internal/sync/runtime_helpers.go:102-121 | the loops drain both channels |

## Left out

- RollingHash.Content: the decimal rendering of the number is not modelled.
- Exclusion.EligibleReachable: assumes that the normaliser leaves the file, its parent and the directory alone, and a path outside `.obsidian`; see `Exclusion.GapUnreachable`.
- Exclusion.EligibleFolderReachable: assumes the same of the folder and the directory.
- VaultScan.ScanVault: assumes an error-free walk and paths that the normaliser leaves alone; the settings directory is scanned by other code, and what an offer carries besides its path is not modelled.
- WatcherRuns.WatcherCoverage: assumes that no create arms a rename over the key of another path's newest event; see `WatcherRuns.CoverageKeptExactly`.
- WatcherService.Watcher.HandleRemove: whether the path was a directory, and the set of watched directories, are not modelled; `Lstat` is an answer that a step gets.
- EchoStore.Store.BeginRemoteWrite: the evidence of local deletes and renames, which it also clears, is not modelled.
- EchoRuns.NoLostEdit: assumes that no callback meets a stray marker and that the path is not cleared while a callback is deferred; see `EchoLaws.SwallowedExactly` and `EchoLaws.WipeForgets`.
- EchoLaws.NoLostEditUnderLock: assumes that no rename, local or remote, touches the path, because renames hold another lock or none.
- EchoLaws.DeferredSurvives: assumes no clear of the path after the callback was deferred, because a clear drops the flag.
- ChunkTransfer.TransferRoundTrip: assumes fewer than 2^32 chunks, because the index is sent in 32 bits.
- Downloads.Transfers.CleanupActiveFileTransfersOnTimeout: the active uploads and the slots that it also clears are omitted.
- DownloadRuns.AtMostOnce: modes, times, staging files and the path lock are not modelled; a step of a merge or of a chunk that can fail in the file system may fail at any time.
- DownloadPages.PagesOnce: assumes that no request fails for an announcement that has passed on; see `DownloadPages.FailedRequestExactly`.
- DownloadArrives.FileArrives: takes the frames and the merge in a row; for interleavings see `DownloadRuns.CommitsPassedChecks`.
- DownloadRuns.CommitsPassedChecks: assumes that a second announcement does not change a session whose merge has started.
- UploadResume.ResumedUploadArrives: assumes one content and one chunk size per session, because a checkpoint stores no chunk size.
- EchoSilence.NoEchoSent: assumes that nobody else touches the file or its evidence, no record expires and no write fails, because bytes whose evidence is gone are sent.
- DownloadAccounts.PagesComplete: assumes steps that forget nothing; see `DownloadAccounts.ForgetsExactly`.
- UploadCrashes.ResumesAfterCrash: assumes that the snapshot with the note is the last one written before the crash, because saves can overtake each other.
- SyncRound.OverflowRecovered: takes the hand-off as one step, because the goroutine can be overtaken; see `SyncRound.HandoffExactly`.
- Rounds and download sessions: their critical sections are steps on values, so update in place under the one mutex and aliasing of session pointers are not captured; object ids stand for the pointers.
- WaitGraph.NoCircle: holders of slots are not tracked, so there are no edges to the goroutines that will release one.
- WaitGraph.AckLetsWaiterOn: slots are anonymous and releases lossy, so nothing is said about which waiter gets which slot; that there is a way on does not say that a scheduler takes it.
- Lower-casing in the exclusion rules is modelled for ASCII letters only.
- Durations and clocks: debounce, expiry windows, stall limits and the age of checkpoints are choices, not numbers.
- The connection itself: dialing, authorization, health checks, keep-alive and reconnect backoff.
- JSON, configuration and the format of the state file; a saved state is a snapshot of the map.
- Configuration files, folders and rename acknowledgements: repetitions of the patterns modelled here.
- The attribution of work items to pages: the page index is an input.
- Symbolic links, modes, `fsync` and errors of the file system other than those named.
- The mutexes around single fields: sections under them are atomic here.
