# SDHM, verified

SDHM keeps a managed section of `/etc/hosts` in step with the containers on a set of Docker
networks. This project models the parts of it that have to be right on every path and proves
what they promise, in Dafny.

* **Markers and splicing** (`Markers.dfy`): a line-oriented description of marker lines that does
  not mention the scanner, the scanner proved against it, and the algebra of replacing the managed
  body.
* **Rendering** (`Render.dfy`, `RenderLaws.dfy`, `RenderOrder.dfy`): the printed body, an
  independent parser that inverts it, and the exact condition under which the order of the
  endpoints does not matter.
* **The hosts-file transaction** (`Disk.dfy`, `Replacement.dfy`, `Transaction.dfy`, `Store.dfy`,
  `StoreApply.dfy`, `Baseline.dfy`, `StoreRuns.dfy`, `CrashRuns.dfy`, `Lifetimes.dfy`): a file
  system whose every operation may fail, contexts that may be cancelled at any check, an outside
  writer, and crashes that lose unsynced bytes and directory entries. `Prepare`, `Apply` and
  `Regenerate` are methods over it.
* **Docker snapshots and streams** (`Snapshot.dfy`, `Mapper.dfy`): the assembly and order of a
  snapshot, and the goroutine that maps Docker's event stream, one turn at a time.
  `Publication.dfy` follows a listing of containers all the way to the lines of the hosts file.
* **The reconcile loop** (`Backoff.dfy`, `World.dfy`, `Reconciler.dfy`, `LoopModel.dfy`,
  `Heads.dfy`, `LoopState.dfy`, `Loop.dfy`, `Daemon.dfy`): six timers on a logical clock, an adversarial
  `select`, stop signals that may rise between any two operations, the mapper running in between,
  and the startup and cleanup around the loop. The loop works on the file system of the store:
  `Prepare` and `Apply` are called for real.
* **Health** (`Tracker.dfy`, `TrackerLaws.dfy`, `Handler.dfy`): the bounded history, its run
  invariant, and the response computed from it.

`Basics.dfy` and `Ordering.dfy` hold the shared types, comparisons and sorting.

## How to read it

*Text.* A file is a sequence of characters. The scanner singles out only the line feed and the
carriage return; names are checked code point by code point, as the source does.

*Faults.* `FileSystem.faults` counts the operations that failed, and rollbacks that ran out of
time. Claims about runs with few failures are claims about that number: an outcome that "needs"
two faults cannot follow from one.

*Every state.* `FileSystem.trace` records the two destinations after each change, the present
state last, so that claims about intermediate states are claims about the trace. Each destination
is a slot: what readers see, and the set of entries a crash may bring back.

*The outside writer.* Where `FileSystem.outsider` holds, another process may rewrite both
destinations between any two steps except from an expectation check to the rename that follows it.
What is promised then is that every rename found what it expected (`OnlyGuarded`).

*The world's record.* `World` is everything around the loop. Its methods record what happened and
when: streams opened, events received, what Docker listed, reconciliations that ended, and the acts
of `Run` on its resources with their answers and what could be seen at that moment. The health tracker records its operations.
Deadlines, delays and counts are stated against these records, not against the loop's own notes.

*Pictures.* `LoopState.Now()` is the loop and everything around it as one value. Each handler is
proved to take a picture to the next one of `LoopModel`, and the invariants are lemmas about
pictures. `AtHead` is the invariant at the head of the loop, `GoodStep` relates two heads in a row.

*Runs of the loop.* `RunLoop` and `Run` take the choices of the loop's selects as an argument; each
finite run is a run for some choices. `heads` holds one head per turn, with the answer of the
health endpoint at that moment.

*While running.* Claims about the loop that a shutdown may interrupt are made of states in which
neither the context nor the health server is done.

## Findings

* The rendered bytes depend on the order in which the endpoints are listed, exactly when two
  distinct rows tie on first name, network and address (`CanonicalIffUnambiguous`). For one list
  the bytes are fixed, and a snapshot always lists its endpoints in the same order
  (`ListingOrderIsImmaterial`). `AmbiguousExample` gives two endpoints whose two orders render differently.
* A bare alias can appear on a network that is not the default one when it spells another alias's
  qualified name (`DottedAliasCanLookBare`). Names without a dot never do (`UndottedIsDefault`).
* The health endpoint and the loop's memory disagree exactly while the stream is failed with an
  error whose text is empty (`HealthAgrees`). `BlankStream` is a stream that ends like that and
  `BlankDisagrees` the disagreement it leads to. In a run whose stream errors all have a text they
  agree at every head (`RunAgrees`).
* A health server that ends without an error after cleanup has looked at it and before it is shut
  down is not reported. `ReportedIffFinished` shows that "reported exactly if it ended before the
  shutdown or with an error" holds if and only if that is not what happened; `UnseenFinish` shows
  that cleanup can run like that from every state in which the server is still running.
* With another process writing the hosts file, Apply still never drops a byte that process wrote
  outside the section, as long as it does not write between an expectation check and the rename
  right after it.
* A snapshot with an active concern whose record has been evicted would make the handler
  dereference nil; `RenderSnapshot` states exactly when, and `NeverPanics` shows that no tracker
  reaches such a state, whatever its history limit.

## Model

| member | source | states |
|---|---|---|
| Markers.LocateMarkers | hosts/markers.go:25-77 | the scan is valid exactly when one BEGIN line precedes one END line, carriage returns tolerated, with the exact extents of both; it finds no markers exactly when there are none; each reported fault is really there |
| Markers.MarkedIffSpelled | hosts/markers.go:36-41 | a line is a marker line exactly when it spells the marker from its first character to its end, with or without one carriage return before the line feed or the end of the text |
| Markers.ReturnIsTolerated | hosts/markers.go:38-41 | after whole lines, a marker followed by a carriage return and a line feed is found like one followed by a line feed |
| Markers.SectionIsUnique | hosts/markers.go:15-20 | a text has at most one section |
| Markers.SpliceRelocates | hosts/markers.go:79-87 | after splicing any body of whole lines without a marker line, the section is found again with the same start, the end moved by the body's length, and exactly the body in between; everything else is as it was |
| Markers.SpliceTwice | hosts/markers.go:81-87 | splicing twice equals splicing once with the last body |
| Markers.SectionCuts | hosts/markers.go:25-77 | a section cuts a file at line boundaries, BEGIN before body before END |
| Markers.LinesOfConcat | hosts/markers.go:30-41 | after whole lines, the lines of a concatenation are the lines of its parts |
| Markers.AppendIsValid | hosts/store.go:359-366 | appending an empty section to marker-free data always gives valid markers, at the end: before them exactly the old bytes, with a line feed added just when one is missing, and then exactly the two marker lines |
| Baseline.SectionNameGivesMarkers | hosts/store.go:50-60 | every single-line section name gives distinct, well-formed marker lines |
| Baseline.BaselineIsValid | hosts/store.go:343-357 | the regenerated baseline passes the marker check for every valid host name and every section name |
| Baseline.BaselineParses | hosts/store.go:343-357 | a parser of hosts files finds in the regenerated text exactly the loopback entry, the host's own entry, and the six IPv6 entries, in this order |
| Baseline.UnlinesIsUnmarked | hosts/store.go:343-357 | lines that cannot be markers, joined, contain no marker line |
| Render.RenderEndpoints | hosts/render.go:25-72 | succeeds exactly when the default network and all endpoints are valid, and prints the sorter's arrangement of exactly the endpoints' rows at the maximal address width |
| Render.StableSortIsGood | hosts/render.go:59-65 | there are sorters as the model assumes them, for one the stable sort |
| Render.BuildRows | hosts/render.go:39-57 | one row per endpoint, and the width of the longest address |
| Render.CollectNames | hosts/render.go:42-54 | the loop over aliases computes the sorted hostname set |
| Render.HostnamesAre | hosts/render.go:42-48 | a name is published exactly when it is an alias qualified by the network, or a bare alias on the default network |
| Render.ValidPartIff | hosts/render.go:99-109 | a name is accepted exactly when it is not empty and none of its characters is a control character, a blank of any script or `#`, as code points |
| Render.HostnamesSpelled | hosts/render.go:42-54 | a row's names are exactly the aliases followed by a dot and the network and, on the default network only, the bare aliases |
| Render.UndottedIsDefault | hosts/render.go:43-48 | a name without a dot lies on a default-network line and is one of its aliases |
| Render.DottedAliasCanLookBare | hosts/render.go:43-48 | a dotted alias can appear bare on another network |
| RenderLaws.RenderRoundTrip | hosts/render.go:25-72 | parsing a rendered body gives, for each endpoint, exactly its address text and its set of names, and nothing else |
| RenderLaws.ParseUndoesPrint | hosts/render.go:67-71 | parsing printed rows gives the rows back in order; a printed body is whole lines |
| RenderLaws.RenderedBodyIsGood | hosts/render.go:67-71 | no rendered line is a marker, so every rendered body may be spliced |
| RenderLaws.ColumnsAlign | hosts/render.go:56-70 | every line is the address, blanks up to the common column, and the names from there: all names start one past the longest address |
| RenderLaws.RowOrder | hosts/render.go:59-65 | of two lines the earlier has the smaller first name, or the same and the smaller network, or the same and no larger an address |
| RenderLaws.NamesAreSpaced | hosts/render.go:69 | the names of a line stand in their order, with one blank between any two of them |
| RenderOrder.RenderIsCanonical | hosts/render.go:59-71 | permuting endpoints, and permuting or repeating aliases, leaves the bytes unchanged when tied rows are identical |
| RenderOrder.NoSharedAddressIsUnambiguous | hosts/render.go:59-65 | that is so whenever no two endpoints share network and address |
| RenderOrder.CanonicalIffUnambiguous | hosts/render.go:59-71 | listing the endpoints in another order leaves the bytes alone if and only if tied rows are identical |
| RenderOrder.AmbiguousExample | hosts/render.go:59-65 | two endpoints behind one address whose two orders render differently, whatever the sorter |
| Ordering.SortedIsUnique | hosts/render.go:59-65 | two sorted arrangements of the same elements are equal when only equal elements tie |
| Ordering.CompareTextIs | hosts/render.go:59-65 | a text comes first exactly when it is a proper prefix of the other or has the smaller character where they first differ |
| Ordering.CompareTextsIs | docker/client.go:149 | a list of texts comes first exactly when it is a proper prefix of the other or has the text that comes first where they first differ |
| Disk.FileSystem.Rename | hosts/fileops.go:30-36 | atomic; a failed rename changes nothing; the replaced entry may still come back after a crash; the rename is logged with what it replaced and whether its context was done |
| Disk.FileSystem.SyncDirectory | hosts/store.go:542-560 | entries of a synced directory can no longer come back old |
| Disk.Crash | hosts/store.go:482-488 | each destination comes back as an entry it held since its directory was last synced, torn if its bytes were not synced |
| Disk.FileSystem.Write | hosts/store.go:469-475 | all bytes or a fault; set-id bits may be lost, the owner is kept |
| Disk.Context.Check | hosts/store.go:611-616 | a context that is done stays done |
| Replacement.ReadOptional | hosts/store.go:286-314 | missing, contents with metadata, or a failure that needs a fault or a non-regular file |
| Replacement.RequireSnapshot | hosts/store.go:576-585 | accepts exactly a destination with the expected existence, bytes, mode and owner, unless an operation fails |
| Replacement.ConfigureOwnership | hosts/store.go:446-463 | sets the requested owner, or leaves the file alone when none is requested |
| Replacement.WriteAndSync | hosts/store.go:465-489 | the mode is exactly the requested one even though the write may have cleared bits; the bytes are synced |
| Replacement.StageReplacement | hosts/store.go:410-444 | a staged file has exactly the requested bytes, mode and owner and is synced; failing needs a fault or a cancellation and leaves no temporary file unless its removal failed; a done context stages nothing |
| Replacement.CommitReplacement | hosts/store.go:503-540 | renames only over a destination that matched the expectation and under a live context, and logs exactly one commit; every intermediate state has the old or the new entry and keeps the other file; success is durable, and the bytes were read back; failure needs a fault, a cancellation or a mismatch; the temporary file is gone unless its removal failed |
| Replacement.ReplaceIfUnchanged | hosts/store.go:386-408 | the same for stage and commit together, with the requested bytes and metadata; a context done on entry changes nothing |
| Transaction.EnsureBackupMatches | hosts/store.go:225-242 | on success the backup is a mirror of the given bytes, keeping its own metadata; the target is untouched in every state, or gets those asked for when it is created |
| Transaction.RollbackTarget | hosts/store.go:263-273 | runs under a context the caller cannot cancel; from the committed snapshot it fails only by a further failure, running out of time included; the target goes back to the given bytes or stays |
| Transaction.ApplyReplacement | hosts/store.go:186-223 | in every state the target is whole, current or proposed; the proposed text is shown only after the backup held the current one, and only while the backup is a whole copy; each outcome fixes both files; the number of failures each outcome needs, so that one late fault or a cancellation always ends with the target restored; in every outcome an existing backup keeps its metadata and a created one has the target's |
| Transaction.InstallProposed | hosts/store.go:202-222 | the same from the moment the backup holds the current bytes |
| Transaction.BackupPhase | hosts/store.go:196-208 | replacing the backup by a copy keeps every state safe |
| Transaction.TargetPhase | hosts/store.go:202-217 | replacing the target is safe while the backup holds the current bytes |
| Transaction.TargetExchange | hosts/store.go:202-215 | a guarded rename of the target, forward or back, exchanges the two texts and keeps the metadata, whoever else writes |
| Transaction.RetainCurrent | hosts/store.go:187-200 | on success the backup holds the current bytes; the target is untouched in every state |
| Transaction.RetainedSince | hosts/store.go:187-202 | once the backup holds the current text, whatever is shown later was preceded by it |
| Store.Prepare | hosts/store.go:66-105 | on every successful ending the target has valid markers and the backup the same bytes; it fails only by a fault, a cancellation, or where there is no way to a valid pair; without faults the result is the expected pair of files; a valid target is never touched; a corrupt target without a valid backup changes nothing; every state shows, and a crash brings back, only the target found or Prepare's goal; a half-done initialisation needs two failures, or one after a cancellation; whoever else is writing, every rename of the target adds or takes away an empty section at its end, or replaces a damaged text by a valid one; in every outcome the target keeps its metadata, and the backup its own or, when it is created, the target's |
| Store.InitializeSection | hosts/store.go:244-261 | each outcome fixes both files and needs its number of failures: after one late fault or a cancellation the target has the found bytes and metadata again; every state shows the found or the initialised target |
| Store.RecoverFromBackup | hosts/store.go:93-104 | only a valid backup is restored, with the target's own metadata, and the backup is untouched; otherwise nothing changes |
| Store.RequireValidMarkers | hosts/store.go:368-377 | accepts exactly the texts with one ordered marker pair |
| StoreApply.Apply | hosts/store.go:108-138 | on success both files hold the text with the rendered body and the result is the expected pair of files; every state is safe and in a safe order; each outcome fixes both files and needs its number of failures; endpoints that cannot be rendered and an invalid target are refused unchanged; with another process writing, every rename of the target keeps all bytes outside the section, and the metadata, of exactly the file it replaced; in every outcome the target keeps its metadata, and the backup its own or, when it is created, the target's |
| StoreApply.Regenerate | hosts/store.go:142-181 | on success both files hold the baseline for a valid host name, with valid markers; existing files keep their metadata and created ones get mode 0644 and the owner of the process; with a valid host name and regular or missing files it fails only by a fault or a cancellation; every state shows the found target or the baseline |
| StoreApply.SplicedKeeps | hosts/store.go:125-132 | the proposed text keeps every byte outside the section, has valid markers, and its body is the rendered one |
| StoreApply.SplicedTwice | hosts/store.go:125-132 | applying twice is applying the last rendering once |
| StoreApply.ExchangesLoseNothing | hosts/store.go:125-137 | exchanging the current and the proposed text loses no byte outside the section |
| StoreRuns.ApplyAll | hosts/store.go:108-138 | over any sequence of Apply calls with any endpoints, faults and cancellations, every state has one valid marker pair, all bytes through BEGIN and from END, and the target's metadata; if that holds of everything a crash could bring back at the start, it holds of it in every state; a target without valid markers is left alone |
| StoreRuns.ApplyOnce | hosts/store.go:108-138 | one Apply keeps that invariant, and after a success the file is in step: the managed body is the rendering of the endpoints and the backup the same |
| StoreRuns.ApplyKeeps | hosts/store.go:108-138 | one Apply keeps that invariant in all of its states |
| StoreRuns.PreservesAppend | hosts/store.go:108-138 | what two runs of Apply calls keep, their concatenation keeps |
| StoreRuns.ApplyStays | hosts/store.go:66-138 | after Prepare, any number of Apply calls shows only the target found, or valid ones with everything Prepare's goal has outside the section |
| StoreRuns.CrashedTarget | hosts/store.go:465-540 | a crash in any state of Apply leaves exactly the old or the proposed bytes, never torn |
| StoreRuns.CrashConverges | hosts/store.go:66-138 | after such a crash a fault-free Prepare and Apply give the target and backup bytes of an uninterrupted run |
| CrashRuns.CrashAndRestart | hosts/store.go:66-138 | end to end, for all endpoints that can be rendered: Apply with any faults, a crash in any of its states, a restart; the crashed target is exactly the old or the proposed one, and a clean Prepare and Apply give the target and backup bytes of an uninterrupted run |
| CrashRuns.InterruptedApply | hosts/store.go:108-138 | the states an Apply of given endpoints may be stopped in |
| CrashRuns.PrepareAndApply | hosts/store.go:66-138 | a clean Prepare and Apply compute the expected pair of files, from any files Prepare accepts |
| Lifetimes.Session | hosts/store.go:66-138 | Prepare and, if it succeeded, any number of Apply calls, cut off by a crash at any moment, leave a target that still stands for the first one found |
| Lifetimes.Lifetime | hosts/store.go:66-138 | over any number of sessions, crashes and restarts, from any settled files: the target is the one found at the very beginning, or whole, with one valid marker pair and every byte that the first Prepare's goal has outside the section |
| Lifetimes.PrepareStands | hosts/store.go:66-105 | every state of a later session's Prepare still stands for the first target, valid, marker-free or corrupt |
| Lifetimes.ValidStartKeeps | hosts/store.go:66-138 | from a valid first target that means every byte outside its own section |
| Snapshot.TakeSnapshot | docker/client.go:66-153 | fails without networks, on a list error, or with the first fatal inspection in list order; otherwise each endpoint is published by an inspected container with settings for that network: its IPv4 address if there is one and its IPv6 address if not, with exactly its non-empty aliases, sorted; and there are as many endpoints as pairs of a listed container and a configured network with an address and a name |
| Snapshot.InspectAll | docker/client.go:80-91 | whatever order the inspections finish in, each outcome lands in its own slot |
| Snapshot.Contribute | docker/client.go:102-133 | a container contributes to exactly the configured networks on which it has an address and a non-empty alias: the IPv4 address first, the IPv6 address without one, and its aliases sorted |
| Snapshot.NormalizeAliases | docker/client.go:251-266 | the non-empty aliases, each once, sorted |
| Snapshot.SnapshotContents | docker/client.go:93-134 | the endpoints are exactly the publishable container and network pairs |
| Snapshot.PublishableIs | docker/client.go:102-133 | what a container contributes to a network, from its settings alone: nothing without an address or a non-empty alias, and otherwise the IPv4 address before the IPv6 one with exactly the non-empty aliases, sorted |
| Snapshot.AssembledPublishes | docker/client.go:93-150 | the endpoints of a snapshot are exactly those that listed containers publish, and as many as there are pairs of a listed container and a configured network with an address and a name |
| Snapshot.TiesAreEqual | docker/client.go:142-150 | the comparison ties only on equal endpoints |
| Snapshot.SnapshotIsCanonical | docker/client.go:136-152 | two snapshots of the same containers are equal, however the API listed them |
| Snapshot.SnapshotOrder | docker/client.go:142-150 | endpoints come in configured network order, then by address, then by aliases |
| Snapshot.PositionIsFirst | docker/client.go:136-141 | a network's rank is its first position in the configuration |
| Publication.ListingOrderIsImmaterial | docker/client.go:136-152 | the hosts-file bytes do not depend on the order in which Docker lists its containers, even if rendered rows tie |
| Publication.MirroredLines | hosts/render.go:25-72 | a hosts file in step has one line per publishable container and network pair, with its address and exactly its names, and no other line in its section |
| Publication.HealthyShowsContainers | daemon/daemon.go:165-185 | at every running head, a healthy answer means the managed lines are exactly those of the containers Docker listed last |
| Mapper.AdvancedKeeps | docker/client.go:169-228 | one turn of the goroutine keeps its invariant and takes nothing back: errors are closed before events, a buffered error stays buffered |
| Mapper.RunMapper | docker/client.go:194-227 | the loop, for any offers and choices, computes the run of the turns and keeps the invariant |
| Mapper.ListensOn | docker/client.go:194-227 | over any run of a live stream, a goroutine to which Docker has not ended its messages or reported an error goes on listening, and neither channel is closed |
| Mapper.EndIsFinal | docker/client.go:200-225 | once Docker has ended the stream before a waiting goroutine, with an error or without, it never listens again |
| Mapper.FinishesSoon | docker/client.go:169-171 | from then on, or once it sees its context done, it has returned and closed both channels within the turns it needs |
| Mapper.ErrorIsForwarded | docker/client.go:173-227 | in every run, an error Docker offers while the goroutine listens is the one it took, and unless the context ends the one it forwards before closing |
| Mapper.TakenWasOffered | docker/client.go:173-227 | in every run, an error the goroutine took was offered by Docker |
| Mapper.MessagesAreSent | docker/client.go:206-219 | in every run, each message the goroutine takes is put into the event channel before it takes the next, unless the context ends, and nothing else is put there |
| Mapper.ReceiveError | daemon/loop_state.go:121-131 | what the error channel gives is the error the mapper forwarded, or its final word that there was none |
| Mapper.ReceiveEvent | daemon/loop_state.go:203-213 | a buffered event comes before the close and is counted; a closed event channel means the error channel has been closed before |
| Mapper.FaithfulIsStable | docker/client.go:169-171 | a faithful verdict stays faithful whatever the mapper does next |
| Backoff.NextBackoff | daemon/loop_state.go:217-222 | exactly the double, capped at the maximum |
| Backoff.BackoffIsExact | daemon/loop_state.go:217-222 | after k failures the delay is the smaller of the maximum and the initial delay doubled k times |
| World.World.StopReady | daemon/loop.go:77-90 | a raised stop signal is seen, and a seen one is raised |
| World.World.OpenStream | docker/client.go:156-231 | one more stream under a fresh context, opened now; a rejected request gives one error and closed channels |
| World.World.TakeEvent | daemon/loop.go:35-36 | a buffered event comes before the close and is recorded with its time |
| World.World.TakeError | daemon/loop_state.go:121-131 | what the error channel gives is faithful to the mapper |
| Reconciler.Reconcile | daemon/daemon.go:165-185 | exactly one more reconciliation is on record, with its error and what Docker answered; Docker is reported as failed exactly when its answer gives no snapshot, and the hosts file exactly when there was one and an error, each with the text of that error and the present time, unless the error is that of the run's own context once it is done; other concerns are untouched; a failure needs a bad answer, files that cannot be applied to, another writer, a failed operation or a stop; the hosts file keeps everything outside the section, and after a success it is in step with the listed containers |
| Reconciler.AskSource | docker/client.go:66-153 | the source answers with a snapshot of what Docker listed, exactly when every container could be inspected |
| Reconciler.RespectsAppend | daemon/daemon.go:176-183 | what two runs of reconciliations keep of the hosts file, their concatenation keeps |
| LoopModel.StreamOnlyKeepsWork | daemon/loop_state.go:70-131 | whatever a handler does to the stream, the reconciling side of the loop stays in order |
| LoopModel.DropKeeps | daemon/loop_state.go:100-104 | dropping a stream keeps its side in order, and its verdict is on record |
| LoopModel.LossKeeps | daemon/loop_state.go:105-119 | a loss leaves the loop waiting to reconnect, one exact delay from now, with the delay doubled |
| LoopModel.ProofKeeps | daemon/loop_state.go:87-98 | a recovery resets delay, memory and concern together |
| LoopModel.ExtendKeeps | daemon/loop_state.go:133-142 | an event that was received joins the batch: both deadlines exact, and the batch still is the events received last, in order |
| LoopModel.RequestKeeps | daemon/loop.go:39-54 | a due timer may ask for a reconciliation: the last one is at least the least gap ago |
| LoopModel.ResultKeeps | daemon/loop_state.go:168-192 | recording a result leaves the loop armed, with the delay for the failures in a row on record |
| LoopModel.HealthAgrees | health/handler.go:54-58 | at every running head the endpoint is healthy exactly when the loop remembers no failure and no stream failed with an empty text |
| LoopModel.HeedsRemembers | daemon/loop_state.go:105-117 | a loss that is handled as it should be leaves in the loop's memory and in the tracker the text of the error the stream ended with, or the closed message if there was none |
| LoopState.LoopState.constructor | daemon/loop_state.go:32-46 | the fields as they begin: the periodic timer one interval from now, the retry timer one initial delay from now exactly after an initial failure |
| LoopState.LoopState.CancelStream | daemon/loop_state.go:62-68 | the stream the loop could cancel is cancelled, and nothing else changes |
| LoopState.LoopState.StartStream | daemon/loop_state.go:70-85 | while running, one more stream is open, only its context is live, and the stability timer is one delay from now |
| LoopState.LoopState.RecoverStream | daemon/loop_state.go:87-98 | while running, the tracker is told of the recovery, and the stream's side is in order with its delay reset |
| LoopState.LoopState.DisconnectStream | daemon/loop_state.go:100-119 | the verdict is put on record; while running, the error's own text is remembered and reported to the tracker now, the closed message if there is no error, and the reconnect timer armed one current delay from now; nothing else changes |
| LoopState.LoopState.StreamErrorReady | daemon/loop_state.go:121-131 | a ready look gives a faithful verdict, and a stream the mapper has finished with is ready |
| LoopState.LoopState.ObserveEvent | daemon/loop_state.go:133-142 | while running, the event proves the stream and joins the batch now: the soft deadline is one delay from now, the hard one is kept, or set if the batch is new |
| LoopState.LoopState.HandleEvent | daemon/loop_state.go:144-151 | the same on an open channel; a closed one ends the stream, and the error the mapper forwarded is the one remembered and reported; the head invariant holds |
| LoopState.LoopState.PollEvents | daemon/loop_state.go:203-213 | one look at the event channel is one good step of the loop |
| LoopState.LoopState.HandleStreamError | daemon/loop_state.go:153-159 | the received verdict is put on record and ends the stream, and its text is the one remembered and reported; the head invariant holds |
| LoopState.LoopState.HandleStability | daemon/loop_state.go:194-215 | one good step; a stream whose mapper has ended is disconnected, and any other is disconnected or proved; a waiting event is received |
| LoopState.LoopState.ReconcilePending | daemon/loop_state.go:161-192 | one good step with exactly one more reconciliation on record; the hosts file keeps everything outside the section, and is in step after a success; while running, Docker is blamed exactly when it gave no snapshot |
| LoopState.LoopState.NoteReconcile | daemon/loop_state.go:168-192 | whatever look finds the loop stopped, the head invariant holds and the step is good: timers armed after the reconciliation, the retry one current delay from now |
| Loop.AskHealth | health/handler.go:31-46 | the endpoint answers, and says healthy exactly when ready with no active concern |
| Loop.PassHead | daemon/loop.go:21-24 | the head is recorded: the whole picture, and the answer of the health endpoint; health agrees with the loop's memory |
| Loop.LoopStop | daemon/loop.go:92-109 | stops on a raised signal; a finished server outranks the context; a captured result means the server has finished |
| Loop.RequestReconcile | daemon/loop.go:39-54 | each timer clears exactly its timers and sets the request |
| Loop.Reconnected | daemon/loop.go:55-63 | one good step; while running a new stream has been opened, and the loop is connected or waiting again |
| Loop.OpenOrWait | daemon/loop.go:15-18 | the stream side is in order; while running one more stream was opened, with its timer exact, and a source without channels counts as a disconnect |
| Loop.SelectCase | daemon/loop.go:30-66 | one good step, and what each case brings about: an event received, an ended stream disconnected, a due timer a request, a due reconnect a new stream, a due stability timer a verdict; a case that is not ready, or whose timer is not due, brings about nothing |
| Loop.Turn | daemon/loop.go:21-67 | a turn that ends the loop has done nothing else; any other is one good step to one more recorded head, by the choice of the select or, with a request pending, by exactly one reconciliation; requests, new streams and stability verdicts come only from timers that are due; a raised stop ends the loop |
| Loop.RunTurns | daemon/loop.go:20-67 | for all choices: they are all taken, one recorded head each, unless a stop signal comes first |
| Loop.CloseLoop | daemon/loop_state.go:48-56 | the stream is cancelled |
| Loop.RunLoop | daemon/loop.go:10-68 | for all choices, all of them taken unless a stop signal comes first: one head per turn, all good, each a good step from the one before, the first from the moment of entry, and nothing happened after the last; every stream ended with a faithful verdict; unless some stream error text was empty the endpoint says healthy at every running head exactly when the loop remembers no failure; the hosts file keeps everything outside the section; on return no stream context is live |
| Heads.HealthyMeansInStep | daemon/daemon.go:165-185 | at every running head, a healthy answer means the hosts file is in step with the containers Docker listed last |
| Heads.DeadlineStays | daemon/loop_state.go:133-142 | over any number of heads at which a batch waits, its hard deadline stays one maximum delay after its first event |
| Heads.RequestHasReason | daemon/loop.go:39-54 | between two heads a request never comes early: one debounce delay after the last event of the batch, the maximum delay after its first, one interval after the periodic timer was armed, or after k failures in a row the k-th delay after the last |
| Heads.ReconnectWaits | daemon/loop.go:55-63 | a stream is opened again only the k-th delay after the k-th loss in a row |
| Heads.ProofWaits | daemon/loop_state.go:194-215 | a stream that gives no event is taken for proved only one stability delay after it was opened |
| Heads.ReconciliationsAreSpaced | daemon/loop_state.go:161-192 | over a whole run, two reconciliations in a row are at least the smallest of the periodic interval, the debounce delay and the initial retry delay apart |
| Heads.RunAgrees | health/handler.go:54-58 | over a whole run, health and memory agree at every running head unless some stream ended with an empty error text |
| Heads.BlankDisagrees | daemon/loop_state.go:100-119 | losing a stream with an empty error text leaves no remembered failure and an unhealthy endpoint |
| Heads.BlankStream | docker/client.go:172-180 | Docker can end a stream with an empty error text |
| Daemon.Cleanup | daemon/daemon.go:203-235 | for whatever the world does meanwhile: resources are released once and in order, with no stream left; the server's end is reported exactly once if the look found it finished or it has an error, and otherwise not at all; a failed shutdown and a failed close are each reported exactly once, beside the run's own error |
| Daemon.CleanupReleases | daemon/daemon.go:203-235 | the same on values, for every world that may pass between look, shutdown and close; the run's own error is kept, and a server that had finished before is always reported |
| Daemon.FinishRun | daemon/daemon.go:74-80 | on every way out of Run the context is cancelled and everything released; the joined error holds each failure exactly once and in order: ping and start unless the caller had cancelled, Prepare, the server's end, shutdown and close; an error-free result means the caller cancelled |
| Daemon.ReportedIffFinished | daemon/daemon.go:203-235 | a server that ended before its shutdown or with an error is reported, and no other, if and only if it did not end without an error between look and shutdown |
| Daemon.UnseenFinish | daemon/daemon.go:207-216 | from every state with a running server, cleanup can have it end without an error between look and shutdown, and then reports nothing |
| Daemon.StartupStop | daemon/daemon.go:187-201 | the caller outranks the server; a captured result means the server has finished; no stop means none had been signalled before |
| Daemon.BringUp | daemon/daemon.go:82-108 | proceeds exactly when the server was started, and then the tracker is not ready; ending without an error means the caller cancelled; a ping that failed or a start that failed is the error unless the caller had cancelled |
| Daemon.PrepareStore | daemon/daemon.go:123-135 | the store's Prepare is run; success leaves no concern active; a failure is the run's error and reported to the tracker, unless the caller had cancelled or it is the error of the run's own context once it is done; the file shows only what was found or Prepare's goal |
| Daemon.FirstReconcile | daemon/daemon.go:137-159 | exactly one reconciliation is on record, readiness is declared last if at all, and a loop that is entered begins with its result and a ready tracker |
| Daemon.Initialize | daemon/daemon.go:119-159 | the same from the started server on; ending without an error means the run was told to stop; the hosts file keeps everything outside the section once prepared |
| Daemon.Run | daemon/daemon.go:70-163 | for all choices: resources are released exactly once, in order and with no stream left; the server's end is reported exactly once if cleanup's look found it or it has an error, and otherwise not at all; every other failure is reported exactly once and in order: an unanswered ping and a failed start unless the caller had cancelled, a failed Prepare exactly when the tracker shows it, a failed shutdown and a failed close always; an error-free result means the caller cancelled; the tracker is not ready before the first reconciliation has ended; a loop not entered means a stop or a startup error; all heads of the loop are good steps apart and account for everything on record; all streams end faithfully; reconciliations are spaced; whoever else is writing, every rename of the hosts file loses nothing outside the section of the file it replaced, unless that file was damaged; with no one else, every state of the hosts file is the one found or keeps everything outside the section; no temporary file is left unless its removal failed |
| Tracker.HealthTracker.Fail | health/tracker.go:104-122 | one more record, its concern active, history evicted; the tracker still is what its operations make of a fresh one |
| Tracker.HealthTracker.EvictHistory | health/tracker.go:156-170 | the loops remove the oldest inactive records down to the limit |
| Tracker.HealthTracker.FindInactive | health/tracker.go:158-164 | the first record that is not active |
| Tracker.HealthTracker.IsActive | health/tracker.go:172-179 | whether some concern's active record has this id |
| TrackerLaws.RunKeeps | health/tracker.go:104-170 | over any sequence of operations, recoveries included: ids strictly increase, every active concern's latest record is retained, and history never exceeds the limit when the limit is at least the number of concerns |
| TrackerLaws.ActiveIffFailing | health/tracker.go:104-142 | over any sequence of operations a concern is active exactly when it failed since it last recovered |
| TrackerLaws.EvictKeeps | health/tracker.go:156-170 | eviction keeps order and every active record, and stops above the limit only when all are active |
| TrackerLaws.EvictTakesOldest | health/tracker.go:156-170 | nothing goes while the history is within the limit; beyond it, records go until the limit is reached or all are active, and those that go are the inactive ones among the oldest |
| TrackerLaws.RecordsAreFailures | health/tracker.go:104-142 | over any sequence of operations each record is numbered by its failure and has its concern, message, time, type and severity, and the active record of a concern is its latest failure |
| TrackerLaws.HistoryIsFull | health/tracker.go:104-170 | over any sequence of operations, recoveries included, every failure is kept while there are no more than the limit, 10 unless one is given, and at least as many as the limit after that |
| TrackerLaws.AllActiveIsShort | health/tracker.go:156-170 | a history of active records only is no longer than the number of active concerns |
| TrackerLaws.ActiveRecordsAreDistinct | health/tracker.go:119-120 | distinct active concerns own distinct records |
| Handler.RenderSnapshot | health/handler.go:48-102 | healthy exactly when ready with nothing active; one entry per record, marked unknown exactly when active; the reason is the newest active record's message; the nil dereference happens exactly when no active record is left |
| Handler.NeverPanics | health/handler.go:99 | on every reachable tracker an active concern has a record |
| Handler.ReasonIsNewest | health/handler.go:60-100 | after any sequence of operations, the reason of an unhealthy ready answer is the message of a failure its concern has not recovered from, and every concern that failed later has recovered |
| Handler.UnknownCountsActive | health/handler.go:60-78 | the entries marked unknown number exactly the active concerns |

## Left out

- Flag parsing, duration parsing and field checks (`command/`): their guarantees appear as the conditions `GoodMarkers`, `GoodParams` and distinct destinations.
- Process wiring, the hosts-file lock and logging (`cmd/`, log calls): the lock is taken as held; log records carry no state.
- The HTTP server (`health/server.go`) and JSON encoding: the server is its start, its completion with or without an error, and its shutdown; message wording is kept only as far as outcomes differ.
- The Docker API, its filters and the limit on concurrent inspections: answers are arbitrary inputs, and inspections may finish in any order.
- Address printing: `netip.Addr.String` is a parameter that yields non-empty words of digits, the letters a to f, dots and colons; addresses have no zone, and the round trip gives back the address text.
- Sorting: `slices.SortFunc` is a parameter, any function of the slice that gives a sorted arrangement and leaves a sorted slice alone.
- The unguarded `replaceFile` and `restoreTarget`, which no command uses.
- Liveness and fairness: claims are about safety over all finite runs; delays are on a logical clock without jitter.
- Overflow of the tracker's 64-bit record counter, which needs 2^64 failures.
- The set of hostnames of a row is built as a sorted list directly, where the source fills a map and sorts its keys.
