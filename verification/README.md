# Pamin memory: what is proved of it

Pamin memory is a local memory server for agents: a client starts one server for a workspace, the
server opens one engine for each project, keeps directories in sync with it, and answers searches by
fusing several ranked lists. This project models the parts of it that are hard to get right and
proves what they promise, for every input, every run and every reachable state. It is checked with

    dafny verify dfyconfig.toml

What is modelled, and where:

- **The registry of open engines** (`RegistryMap`, `RegistryProtocol`, `RegistrySafety`, `RegistryHandles`). The map with
  its eviction loop is a class. Every interleaving of its callers is a step system: tasks with phases,
  slots with locks, and reference counts read off who holds what. A loop under the map's lock reads the
  counts one after another while callers let go; `PassesAreOneStep` and `ScanIsOneStep` say when that
  comes to one step. Proved: in every run each key has at most one task inside its slot; every open
  starts with none live exactly when no rebuild discards an engine a caller holds; what is evicted or
  closed idle is nobody's; and nothing waits in a circle. By the time it is done with its slot every operation
  has been handed exactly one handle, to the value that is there (`HandsWhatItHolds`); a value is kept until
  exactly when it is rebuilt, taken or closed, and nothing else is opened meanwhile (`WarmOpensNothing`).
  `ReopenLeavesTwoLive` is a run in which a rebuild does leave two.
- **Purging a project** (`Purge`): the registry together with the rows and the directories, and crashes
  between any two steps. In every history rows go last, after the directory, from inside the project's slot
  throughout (`PurgesInOrder`), and no purge touches another project's directory (`LostByItsOwnPurge`). A purged
  project never comes back exactly when its directory is gone and no
  caller holds an engine of it (`GoneForGoodExactly`), and a purge is for good exactly when no caller holds one
  as it begins (`PurgeSticksExactly`). So it is for a project that no rebuild of its own discarded under a
  caller, whatever is done to the others; `RebuildUnderCallerUndoesPurge` is a history in which one was and the
  project's directory does come back.
- **The file watcher** (`Watches`, `Watcher`, `Debounce`, `Moves`, `Syncing`): a class whose methods are the
  ones the watcher's loop runs, and the loop's body (`Syncing.Once`). Every method keeps the count of who wants
  each directory exact, so running out of watches leaves nothing to poll; and the timer is never left overdue.
  Over runs of the loop that are on time, whose flushes take no time and in which every turn of the followed
  path comes to an ingest (`Syncing.HeardIsTold`): all that a path heard of brings is told to an ingest within
  ten seconds, and all that it takes with it within a quiet period more, however much else is heard -- the file
  itself, every file of a directory that lists now, every recorded file of one that is gone, or all there is
  when the path is walked afresh. The halves of a move reach one ingest (`Syncing.LostThenCreated`), a file's or
  a whole directory's. When the path is missing by then, or a walk or the sort fails, what was held is neither
  told nor held any longer, and only then (`Moves.HeldReachesNextFlush`).
- **Starting a server** (`Startup`): clients racing for the lock file and servers checking, removing and
  binding the socket, in any order. One server listens in every run of careful steps, and a client that comes
  while one does starts none (`LateClientStartsNone`). Two can come to serve
  after one step that is not careful exactly when the lock file is not stuck, or two servers are alive by
  then (`CollidesExactly`). Giving up on a server that is still starting always qualifies
  (`TimeOutLetsTwoServe`). The lock file is stuck exactly when the client that made it is through
  (`StuckExactly`), which comes of failing to open the server's log or of being killed (`SticksExactly`).
  Each of these happens from a workspace nobody has used: `TimeOutCollides`, `StopCollides`, `SweepCollides`,
  `ForegroundCollides` and `LogFailureSticks` give the states that careful steps reach and the one step that is not.
- **Asking it** (`CommandLine`, `Settings`, `Asking`): flags, environment, file and defaults; what is
  forwarded to the server a command starts, read back as text; and the request with its one replacement.
  A request is executed at most once and only by a server that agrees. The server a command starts
  serves it, unless `--models-dir` (which is not forwarded) names another directory than it would find without,
  or a path reads as a flag.
- **Rank fusion** (`Fusion`, `FusionLaws`, `FusionBands`, `FusionOrder`, `FusionSpans`), over the reals: what
  comes out depends on the votes and not on how they are listed, every span and trace is that of the candidates
  the lists name, a band spans what the ranks would have, and a
  vector list outranks one lexical channel alone up to 77 candidates and no further.
- **Scoring and filtering** (`McNemar`, `Ranking`, `ProcessTree`, `Filter`): the exact binomial test, the
  ranking of sessions and its normalized gain, the closure over the process table, and the filter's
  treatment of spacing.

Results about the code that its own documentation does not say:

- `Startup.CollidesExactly`: the lock does not cover a server that stops or dies while one outside the lock
  is starting, one served by hand with none listening, or one whose socket a replacing client removes.
- `Startup.LogFailureIsForGood`: from then on no client of the workspace starts a server.
- `Purge.PurgeSticksExactly`: a search or a background reshape that outlives a rebuild of its project can undo
  a purge of that project, by a write through the engine it still holds.
- `Asking.ReplacementIsStoppedExactly`: the farewell goes to whoever listens by then. The source says a
  server of the build the client would start is left alone; that holds of the server that answered
  (`FarewellOnlyAfterAnotherBuild`), not of one another client has put in its place (`ReplacementIsStopped`).
- `Settings.ModelsDirIsNotForwarded`: a command given `--models-dir` is refused by the very server it starts,
  exactly when the directory is another than the one found without the flag (`ModelsDirIsRefused`).
- `Moves.HeldReachesNextFlush`: a deletion held back is dropped when the next flush finds its path missing or fails
  to walk or sort it (`HeldIsLost`); the source lets go of what is held before it knows.
- `CommandLine.ForwardedReadsBack`: a library or PostgreSQL path that begins with a dash, given as
  `--flag=value`, is forwarded as two arguments and cannot be read back. That the command-line parser
  takes no such value is its documented behaviour, not this repository's code.

## Model

| member | source | states |
|---|---|---|
| `RegistryMap.RoomMadeIsUnique` | crates/cli/src/registry.rs:299-314 | which entries are closed to make room is determined by the map, by which are unused and by the capacity: the least recently used, as few as suffice |
| `RegistryMap.RoomMadeCount` | crates/cli/src/registry.rs:299-314 | as many are closed as the map is over the bound, or as many as are unused when those are fewer |
| `RegistryMap.RoomCanBeMade` | crates/cli/src/registry.rs:291-298 | when everything is busy the bound gives way, so room is always made as far as it can be |
| `RegistryMap.SameReadsMakeRoom` | crates/cli/src/registry.rs:299-314 | when every pass sees the same entries unused, what the passes close is what making room comes to |
| `RegistryMap.PassesMayClose` | crates/cli/src/registry.rs:299-314 | whatever each pass sees, what they close was seen unused and is no more than the overflow |
| `RegistryMap.PassesEnd` | crates/cli/src/registry.rs:299-314 | they end with room for one more, or with a pass that sees nothing unused among what is left |
| `RegistryMap.SlotTakenKeeps` | crates/cli/src/registry.rs:158-183 | a use leaves the stamps pairwise distinct and at most `uses`, and every entry ever inserted accounted for |
| `RegistryMap.IdleClosedKeeps` | crates/cli/src/registry.rs:234-250 | an idle sweep keeps the stamps and the account: inserted is present plus evicted plus closed idle |
| `RegistryMap.PeekedKeeps` | crates/cli/src/registry.rs:271-283 | looking, counted or not, keeps the stamps distinct and the account |
| `RegistryMap.UseIsLastWanted` | crates/cli/src/registry.rs:158-183 | a use leaves its entry the most recently used and dated now, and every other entry as it was |
| `RegistryMap.PeekIsLastWanted` | crates/cli/src/registry.rs:271-283 | so does looking for work; looking that does not count leaves every entry as it was |
| `RegistryMap.WantedIsNotIdle` | crates/cli/src/registry.rs:234-250 | nothing wanted within the period is closed for being idle |
| `RegistryMap.LastWantedIsLastClosed` | crates/cli/src/registry.rs:299-314 | what was wanted last is closed for room only with every other unused entry |
| `RegistryMap.Registry.constructor` | crates/cli/src/registry.rs:64-75 | a new registry holds nothing and has evicted nothing |
| `RegistryMap.Registry.LeastRecent` | crates/cli/src/registry.rs:302-307 | the unused entry used longest ago, if any is unused |
| `RegistryMap.Registry.MakeRoom` | crates/cli/src/registry.rs:299-314 | the loop ends, the counts being read afresh on each pass; each pass closes the least recently used entry it sees unused, while there is no room and it sees one |
| `RegistryMap.Registry.Slot` | crates/cli/src/registry.rs:158-183 | a use stamps the entry there is, or makes room pass by pass and inserts one, counting what it evicted |
| `RegistryMap.Registry.OpenedCounting` | crates/cli/src/registry.rs:271-286 | the slot to try if the key has one; the entry is stamped only for a caller about to work |
| `RegistryMap.Registry.CloseIdle` | crates/cli/src/registry.rs:234-250 | closes exactly the entries that are unused and that nothing has wanted for the period |
| `RegistryMap.Registry.TakeEvicted` | crates/cli/src/registry.rs:211-218 | what the bound closed is handed out once |
| `RegistryProtocol.UnusedExactly` | crates/cli/src/registry.rs:316-337 | `is_unused` holds exactly when no task is at the slot and no caller holds what is in it |
| `RegistryProtocol.BusyBranchUnreachable` | crates/cli/src/registry.rs:331-335 | an entry whose slot has one reference is never locked, so the busy branch is not reached |
| `RegistryProtocol.OneSlotCount` | crates/cli/src/registry.rs:322-325 | a slot's reference count is one exactly when no task holds it |
| `RegistryProtocol.OneValueCount` | crates/cli/src/registry.rs:328-330 | a value in a slot has one reference more than its callers |
| `RegistryProtocol.TakenValueCount` | crates/cli/src/registry.rs:115-127 | a value being waited for has one reference more than its callers |
| `RegistryProtocol.StepKeeps` | crates/cli/src/registry.rs:110-183 | every step of every operation keeps who holds which slot, which lock and which value |
| `RegistryProtocol.RunKeeps` | crates/cli/src/registry.rs:110-183 | so does every interleaving of them |
| `RegistryProtocol.UnusedStays` | crates/cli/src/registry.rs:316-337 | an entry seen unused stays so, and the map as it is, through every step of others until the map's lock is let go |
| `RegistryProtocol.PassesAreOneStep` | crates/cli/src/registry.rs:299-314 | the passes of making room, each seeing what was unused by its time while others let go, close what one step may close at the end |
| `RegistryProtocol.ScanIsOneStep` | crates/cli/src/registry.rs:234-250 | so does a scan for idle entries that reads one count after another |
| `RegistrySafety.InvInEveryRun` | crates/cli/src/registry.rs:64-183 | from an empty registry, every run |
| `RegistrySafety.OneInsidePerKey` | crates/cli/src/registry.rs:131-152 | two tasks inside the slot of one key are one task: at most one open, reopen or `then` per key |
| `RegistrySafety.AtMostOneLive` | crates/cli/src/registry.rs:81-152 | at most one value of a key is held by anything |
| `RegistrySafety.NoneLiveInside` | crates/cli/src/registry.rs:105-129 | while a key is being opened or its `then` runs, nothing holds a value of it |
| `RegistrySafety.OpenedOnce` | crates/cli/src/registry.rs:81-152 | in every run without a rebuild under a caller: one value live at most, and none when an open or a `then` begins |
| `RegistrySafety.OpensColdExactly` | crates/cli/src/registry.rs:90-104 | every open starts with none live exactly when no rebuild discards a value a caller holds |
| `RegistrySafety.ClosedUnderNobody` | crates/cli/src/registry.rs:234-250 | what is evicted or closed idle has no task at it, no caller inside it, and is freed |
| `RegistrySafety.GivenUpRestores` | crates/cli/src/registry.rs:115-127 | a `take_then` that gives up, a caller holding the value when it looked, puts that value back into the slot its key still has, whatever others do before and after it looked |
| `RegistrySafety.HolderCanMove` | crates/cli/src/registry.rs:131-152 | whoever is inside a slot needs no lock another task holds |
| `RegistrySafety.OneWaitsForOne` | crates/cli/src/registry.rs:333-335 | a task waits only for the one inside its own key's slot, so no wait is circular |
| `RegistrySafety.StartsAtOnce` | crates/cli/src/registry.rs:158-183 | an operation can begin in every state, whatever is busy, closing what making room comes to |
| `RegistrySafety.BeginTakesSlot` | crates/cli/src/registry.rs:158-183 | every step that begins one changes the map as the class's `Slot` does, for some passes of its loop |
| `RegistrySafety.ColdKeyOpensAlone` | crates/cli/src/registry.rs:131-157 | a cold key is opened by its task's own steps in a row, whatever other keys are doing |
| `RegistrySafety.ReopenLeavesTwoLive` | crates/cli/src/registry.rs:90-104 | a run in which a rebuild under a caller leaves two values of one key live |
| `RegistryHandles.HandsWhatItHolds` | crates/cli/src/registry.rs:81-152 | over every run, by the time an operation is done with its slot it has been handed exactly one handle, to the value the slot then holds, a new one for a `reopen`; none exactly when `open` failed or `opened` found nothing, and a `take_then` none |
| `RegistryHandles.HandlesChange` | crates/cli/src/registry.rs:81-152 | the handles to a value are one more after exactly the steps that hand it out and one fewer after exactly the drop of one |
| `RegistryHandles.HandlesStay` | crates/cli/src/registry.rs:81-152 | over every run in which none is dropped the handles to a value never become fewer |
| `RegistryHandles.OthersLeaveItsSlot` | crates/cli/src/registry.rs:131-152 | no other task's step changes what is in the slot a task has locked |
| `RegistryHandles.KeptUntilExactly` | crates/cli/src/registry.rs:81-183 | a value the registry has it keeps through a step exactly when that is no `reopen` of its key, no `take_then` that has it alone, and no closing of its entry |
| `RegistryHandles.WarmOpensNothing` | crates/cli/src/registry.rs:76-87 | over every run, from when a key has a value until that is let go it keeps it and nothing is opened for the key |
| `RegistryHandles.WarmKeyServesAlone` | crates/cli/src/registry.rs:131-142 | a warm key hands its value to a task by that task's own steps in a row |
| `RegistryHandles.OpenedServesAlone` | crates/cli/src/registry.rs:252-288 | `opened` hands out what is there when nobody has the lock, and leaves with nothing when somebody has |
| `RegistryHandles.DoneIsGone` | crates/cli/src/registry.rs:150-152 | a task that is done leaves the slot unlocked and as it is, and is gone |
| `Purge.GoneForGoodExactly` | crates/cli/src/session.rs:378-406 | in every state reached, a purged project's directory is gone and stays gone in every continuation exactly when it is gone now and no caller holds an engine of the project |
| `Purge.PurgeSticksExactly` | crates/cli/src/session.rs:384-406 | whenever the `then` about to run purges its project it is for good, exactly when no caller holds an engine of it as it begins |
| `Purge.PurgedForGood` | crates/cli/src/session.rs:378-406 | over every history with crashes and failures in which no rebuild of the project's own key discards an engine under a caller, a purged project has no row and never a directory again |
| `Purge.RowsGoLast` | crates/cli/src/session.rs:369-406 | in every history a row is lost only by the commit of the task inside its project's slot, after the directory was removed and with no engine registered |
| `Purge.RemovedByRemoving` | crates/cli/src/session.rs:398-404 | the transaction comes to that commit by removing the directory, which leaves none |
| `Purge.HeldThroughout` | crates/cli/src/session.rs:384-405 | in every history, from the delete to the end of `then`, the purge is inside the slot of the project it purges |
| `Purge.PurgesInOrder` | crates/cli/src/session.rs:378-406 | over every history, a row is lost by the commit of a task that deleted it, then removed the directory, and was inside the slot of the project's key at every act from the first to the last |
| `Purge.LostByItsOwnPurge` | crates/cli/src/session.rs:384-406 | over every history, a directory there was and is no longer was removed by a task that had deleted that very project's row and was inside its key's slot from the one to the other |
| `Purge.UnpurgedKeepsDirectory` | crates/cli/src/session.rs:384-406 | a project whose row no transaction deletes keeps its directory, whatever else is purged, fails or crashes |
| `Purge.LostByRemoving` | crates/cli/src/session.rs:388-396 | the one act that removes a directory is that of the task that has deleted its project's row |
| `Purge.RowsComeNew` | crates/cli/src/session.rs:378-416 | a row comes only of making a project, under a number no project has had |
| `Purge.BroughtByItsOwn` | crates/cli/src/session.rs:378-416 | a directory comes of exactly opening its project or writing through an engine of it |
| `Purge.ThenPurges` | crates/cli/src/session.rs:385-405 | when nothing fails the transaction leaves neither row nor directory |
| `Purge.OnlyAtLargeBringsBack` | crates/cli/src/session.rs:378-406 | a directory that was removed comes back only by a write through an engine a caller holds and the registry does not |
| `Purge.DoKeeps` | crates/cli/src/session.rs:378-416 | every act, rebuilds under a caller and crashes included, keeps rows, stages and engines bound to their projects |
| `Purge.HistoryKeeps` | crates/cli/src/session.rs:378-416 | so does every history |
| `Purge.RegisteredBefore` | crates/cli/src/registry.rs:131-152 | a value the registry has is opened by the step that first shows it |
| `Purge.RebuildUnderCallerUndoesPurge` | crates/cli/src/session.rs:408-416 | a history in which an engine kept through a rebuild puts a purged project's directory back |
| `Watches.BumpedTallies` | crates/cli/src/watch.rs:499-529 | counting one more for a directory is what one more path wanting it needs |
| `Watches.DroppedTallies` | crates/cli/src/watch.rs:545-560 | counting one fewer likewise, leaving no zero |
| `Watches.WantedIsWatched` | crates/cli/src/watch.rs:574-588 | a directory a followed path wants is counted |
| `Watches.SelectHas` | crates/cli/src/watch.rs:911-969 | a path is sorted where its own directory's listing says, and nowhere else |
| `Watches.KindExactly` | crates/cli/src/watch.rs:911-969 | what a sort calls changed, new, vanished and deleted, by what the listings and names say |
| `Watches.CoversExactly` | crates/cli/src/watch.rs:189-196 | a followed file covers itself alone, a directory every path that extends it by components |
| `Watches.SortBy` | crates/cli/src/watch.rs:911-969 | changed are exactly the files that list, new the directories that do, vanished the watched directories that are gone, deleted the files of a kind walked that are; in order, and a directory that cannot be listed loses nothing |
| `Watcher.Watcher.constructor` | crates/cli/src/watch.rs:242-273 | nothing is followed, counted or pending |
| `Watcher.Watcher.Watch` | crates/cli/src/watch.rs:499-529 | one more is counted exactly when there is a watcher and the directory is counted already or the operating system accepts it |
| `Watcher.Watcher.Unwatch` | crates/cli/src/watch.rs:545-560 | one fewer is counted, and the last one ends the watch |
| `Watcher.Watcher.Settle` | crates/cli/src/watch.rs:484-492 | watching unless something was refused or there is no watcher |
| `Watcher.Watcher.WatchDirs` | crates/cli/src/watch.rs:460-481 | watched are exactly the directories wanted, outside the workspace, that were watched before or are accepted, and the path polls exactly when that is not all |
| `Watcher.Watcher.CatchUp` | crates/cli/src/watch.rs:415-457 | a missing path gives up its directories, one that cannot be walked keeps them, and otherwise what the walk went into is watched as far as it is let, the path polling exactly when some of it is not; what a second walk lists is ingested, unless it fails |
| `Watcher.Watcher.Lose` | crates/cli/src/watch.rs:419-433 | a path that is not there gives up all its directories |
| `Watcher.Watcher.Follow` | crates/cli/src/watch.rs:376-395 | a path already followed only takes the new settings; a new one is added last and walked, with exactly the directories accepted, or missing |
| `Watcher.Watcher.Unfollow` | crates/cli/src/watch.rs:397-410 | the path, its counts and what was held for it go, and nothing else |
| `Watcher.Watcher.PollAllUnwatched` | crates/cli/src/watch.rs:574-588 | polls exactly the watching paths with an uncounted directory |
| `Watcher.Watcher.NothingToPoll` | crates/cli/src/watch.rs:574-588 | in every state the methods reach there is no such path |
| `Watcher.Watcher.WatchOne` | crates/cli/src/watch.rs:822-833 | the directory is the path's from then on exactly when it is counted already or accepted |
| `Watcher.Watcher.ForgetDirsUnder` | crates/cli/src/watch.rs:726-737 | exactly the directories under a vanished one are given up |
| `Watcher.Watcher.Adopt` | crates/cli/src/watch.rs:799-818 | a directory that lists now and those a walk of it finds are added exactly when counted, those had before stay, the path polls when any is not, and its files are exactly those a second walk lists |
| `Watcher.Watcher.ForgetAll` | crates/cli/src/watch.rs:699-708 | the files of the vanished directories are exactly those named under them, unless the records cannot be read |
| `Watcher.Watcher.AdoptAll` | crates/cli/src/watch.rs:709-717 | the files of the directories that list now are exactly those walked in them, unless a walk fails |
| `Watcher.Watcher.Sort` | crates/cli/src/watch.rs:682-723 | it fails exactly when a directory or the records cannot be read; otherwise a followed file is changed when it is still there and deleted when not, and under a directory changed is exactly what the paths bring and deleted exactly what they take with them |
| `Watcher.SortedInFull` | crates/cli/src/watch.rs:682-723 | of every file, whether a sort has it changed or deleted, by what the listings, the walks and the records say |
| `Watcher.Watcher.HoldOrIngest` | crates/cli/src/watch.rs:651-676 | files gone with nothing new beside them are held for one period; all else is ingested with what was held |
| `Watcher.Watcher.FlushOne` | crates/cli/src/watch.rs:601-677 | one followed path's turn: exactly when it is skipped, walked afresh and failed, what it sorts, holds back and ingests |
| `Watcher.Watcher.Flush` | crates/cli/src/watch.rs:591-678 | every followed path takes its turn on everything pending and on what was held for it; the timer starts over |
| `Watcher.Watcher.Heard` | crates/cli/src/watch.rs:317-348 | pending are exactly what was and the event's paths outside the workspace; running out of watches changes nothing |
| `Watcher.Watcher.WakesExactly` | crates/cli/src/watch.rs:304-362 | the soonest deadline has come exactly when the quiet period or the longest wait is over, a hold is, or a path is to be polled or looked for again |
| `Watcher.Watcher.LookAgain` | crates/cli/src/watch.rs:364-369 | exactly the paths that are due are walked, in order, and none is due after |
| `Watcher.Watcher.Due` | crates/cli/src/watch.rs:350-370 | flushes exactly when a flush is due, looks at what is due, leaves no path overdue for a poll or a look, and the next deadline later than now |
| `Debounce.FlushedWithinLongest` | crates/cli/src/watch.rs:304-362 | in a run whose steps are never later than the deadline, a path heard of is pending at a flush within ten seconds |
| `Debounce.HeldUntilFlush` | crates/cli/src/watch.rs:651-664 | what is held back meets a flush by the time it is held until, whatever else is heard |
| `Debounce.BurstWaits` | crates/cli/src/watch.rs:304-311 | while events keep coming within the quiet period nothing is flushed before the longest wait |
| `Moves.HeldReachesNextFlush` | crates/cli/src/watch.rs:591-678 | a held deletion is told to an ingest by the very next flush exactly when that turn comes to one; otherwise the path was missing or failed, and it is held no longer |
| `Moves.HeldIsLost` | crates/cli/src/watch.rs:591-622 | a flush of a held deletion after events were lost, whose walk fails, tells nothing of it and holds it no longer |
| `Moves.BothHalvesMeet` | crates/cli/src/watch.rs:651-723 | all that a path heard of as created before that flush brings, a file or a directory's every file, is in the same ingest as everything held |
| `Moves.BothHalvesAtOnce` | crates/cli/src/watch.rs:651-723 | heard of before one flush, all that one path brings and all that another takes with it are in one ingest |
| `Moves.TakenIsHeld` | crates/cli/src/watch.rs:651-708 | all that a path took with it, with nothing new beside it, is held for the next flush |
| `Moves.GoneIsIngestedOrHeld` | crates/cli/src/watch.rs:651-676 | no file found gone is lost: it is ingested at once or held |
| `Moves.HeldExactly` | crates/cli/src/watch.rs:651-664 | what is held is exactly what was gone with nothing new beside it |
| `Moves.OnlyTheTouched` | crates/cli/src/watch.rs:625-630 | a path with nothing changed and nothing held is left alone unless events were lost |
| `Syncing.Once` | crates/cli/src/watch.rs:276-300 | one turn of the loop, whichever of an event, a command and the timer wakes it, keeps the class's invariant and is a pass as the runs below are made of |
| `Syncing.HeardIsTold` | crates/cli/src/watch.rs:276-370 | over every on-time run of the loop whose turns for the followed path come to an ingest: all that a path heard of brings is told within ten seconds, and all that it takes with it by then or by the next flush a second later at most |
| `Syncing.ShownIsTold` | crates/cli/src/watch.rs:911-969 | over such a run, a file whose directory lists it, or that is in a directory that lists now, is told as changed within ten seconds of that path being heard of |
| `Syncing.LackedIsTold` | crates/cli/src/watch.rs:911-969 | and one that is gone, itself or with its watched directory, is told as gone within a quiet period more |
| `Syncing.LostOrIgnoreIsWalked` | crates/cli/src/watch.rs:619-640 | once events are lost or a `.gitignore` is heard of, all there is under the path is ingested afresh within ten seconds |
| `Syncing.MoveIsTold` | crates/cli/src/watch.rs:651-676 | what is held and all that a path heard of since brings are told to one ingest by the end of the hold |
| `Syncing.LostThenCreated` | crates/cli/src/watch.rs:651-723 | over such a run, all that a lost path took with it at a flush and all that a path heard of before the next one brings are told to one ingest within a quiet period |
| `Startup.StepKeeps` | crates/client/src/client.rs:168-263 | every careful step keeps the lock, the socket and the phases in accord |
| `Startup.CollidesExactly` | crates/client/src/client.rs:168-263 | a step can be followed, by careful ones alone, by two servers at once exactly when it is careless and the lock file is not stuck or two servers are alive after it |
| `Startup.CarefulExactly` | crates/client/src/client.rs:215-243 | which steps keep the lock, socket and phases in accord: all but giving up on a server still starting, serving by hand with none listening, losing one with another starting outside the lock, and removing a live socket |
| `Startup.OneServerListens` | crates/cli/src/server.rs:58-77 | from a cold workspace, however many clients race and whatever fails: one server listens at most, none removes another's socket, and one past its check always binds |
| `Startup.BindsOnce` | crates/client/src/client.rs:163-167 | unless a server is lost, one binds in all; none when one listens already |
| `Startup.LateClientStartsNone` | crates/client/src/client.rs:51-60 | over every run in which the server that listens is not lost, a client that had not yet connected never makes the lock file and never starts a server |
| `Startup.ThroughBy` | crates/client/src/client.rs:168-263 | over every run a client that is through has seen somebody listen, or has failed, given up or been killed |
| `Startup.AskingCanBeServed` | crates/client/src/client.rs:163-167 | unless the lock file is stuck, a client that asks can come to see a server listen, whatever the others are at |
| `Startup.ServesByBinding` | crates/cli/src/server.rs:75-77 | a server comes to serve only by binding a socket file that is not there |
| `Startup.SocketChanges` | crates/cli/src/server.rs:58-104 | the socket file is removed by exactly an unlink, a stop and a sweep, and goes stale by its server's crash; a server that is gone stays gone |
| `Startup.OthersLeaveThem` | crates/client/src/client.rs:168-263 | a client is moved by its own steps alone, and so is a server |
| `Startup.TimeOutLetsTwoServe` | crates/client/src/client.rs:234-243 | from every state with a server still starting, its client giving up can be followed, by careful steps alone, by two serving |
| `Startup.TimeOutCollides` | crates/client/src/client.rs:234-243 | a cold workspace comes by careful steps to a state where a client giving up on its server is all it takes for two to serve |
| `Startup.StopCollides` | crates/cli/src/server.rs:97-104 | likewise a server that stops or dies, while one started by a client that has seen it listen is starting |
| `Startup.SweepCollides` | crates/client/src/client.rs:315-330 | likewise a replacing client removing the socket of a server that listens |
| `Startup.ForegroundCollides` | crates/cli/src/server.rs:58-77 | likewise one served by hand beside clients that race |
| `Startup.LogFailureSticks` | crates/client/src/client.rs:180-195 | and one where the winner failing to open the log, or killed, leaves the lock file stuck with no server started |
| `Startup.StuckExactly` | crates/client/src/client.rs:180-243 | the lock file there is stays in every continuation exactly when the client that made it is through |
| `Startup.SticksExactly` | crates/client/src/client.rs:180-243 | it comes to be so exactly by that client failing to open the log or being killed |
| `Startup.StuckStartsNone` | crates/client/src/client.rs:168-232 | with it stuck no client ever starts a server |
| `Startup.LogFailureIsForGood` | crates/client/src/client.rs:191-195 | a client that cannot open the log leaves the lock file, and no client ever starts a server again |
| `CommandLine.Forward` | crates/client/src/settings.rs:582-619 | the flags given, but for the models directory, in order |
| `CommandLine.ForwardedReadsBack` | crates/client/src/settings.rs:582-619 | the server reads back exactly the flags given, when and only when no path among them reads as a flag |
| `CommandLine.DashedPathIsLost` | crates/client/src/settings.rs:582-619 | a library whose path begins with a dash is not read back |
| `CommandLine.DecimalReadsBack` | crates/client/src/settings.rs:591-612 | counts are forwarded as text that reads back |
| `Settings.EntriesTell` | crates/client/src/settings.rs:299-516 | for every setting, the value compared is the value run with, and its source is flag, environment, file or default in that order |
| `Settings.PrecedenceHolds` | crates/client/src/settings.rs:299-516 | each setting is the flag's, or else the environment's, or else the file's, or else the default |
| `Settings.PathPrecedenceHolds` | crates/client/src/settings.rs:299-516 | and so is each path, spelled out from where it was given; PostgreSQL only from where it is installed |
| `Settings.MismatchExactly` | crates/client/src/settings.rs:532-568 | none exactly when every shared key is equal, or was left unchosen by the client and given to the server |
| `Settings.AskedAt` | crates/client/src/settings.rs:518-530 | a client asks for every setting it resolves, chosen exactly when it or the file gives it |
| `Settings.ServesExactly` | crates/client/src/settings.rs:532-568 | when a server answers a client of the same workspace |
| `Settings.StartedWithTheSame` | crates/client/src/settings.rs:580-619 | what a started server is given is what the command was, but for the models directory |
| `Settings.StartedServerServes` | crates/client/src/settings.rs:580-619 | the server a command starts resolves to the same values and never mismatches it |
| `Settings.ModelsDirIsNotForwarded` | crates/client/src/settings.rs:188-195 | with the models directory given by flag it does exactly when the flag changes nothing |
| `Settings.ModelsDirIsRefused` | crates/client/src/settings.rs:188-195 | a command given another directory than the default and nothing else is refused by the server it starts |
| `Asking.Client.Exchange` | crates/client/src/client.rs:139-156 | one request, executed if it is heard and the server agrees, answered if the answer is heard |
| `Asking.Client.StopAndWait` | crates/client/src/client.rs:315-330 | whoever listens is told to stop |
| `Asking.Client.Ask` | crates/client/src/client.rs:43-96 | over first server, farewell and replacement the request is executed at most once, once when served, never when it gave up for want of a server, and only by a server that agrees; beside it only a farewell is executed |
| `Asking.ExecutedAtMostOnce` | crates/client/src/client.rs:43-96 | at most once over every server; once when served; never when it gave up for want of one |
| `Asking.ServedExactly` | crates/client/src/client.rs:43-96 | a command is served exactly when the server it first asks serves it, or is of another build and the one started in its place does |
| `Asking.ReplacementIsAsked` | crates/client/src/client.rs:79-95 | a replacement is put the request, and what it answers is what the command comes to |
| `Asking.NobodyListening` | crates/client/src/client.rs:48-60 | with nobody listening a `stop` is done, and any other command asks the server it starts or says why it has none |
| `Asking.ExecutedByThoseThatAgree` | crates/cli/src/server.rs:741-772 | the request only by a server of the same identity, protocol and settings, `stop` by any |
| `Asking.FarewellOnlyAfterAnotherBuild` | crates/client/src/client.rs:67-81 | a client says farewell only after an answer from another build than it would start |
| `Asking.OwnBuildIsNotStopped` | crates/client/src/client.rs:67-76 | with nobody replacing it meanwhile, a server of the client's build is never stopped by it |
| `Asking.ReplacementIsStoppedExactly` | crates/client/src/client.rs:315-330 | exactly when a server of the client's own build is stopped after all |
| `Asking.ReplacementIsStopped` | crates/client/src/client.rs:315-330 | a command after which a server of the client's own build and protocol has been told to stop |
| `Asking.AgreeingServerServes` | crates/cli/src/server.rs:773-800 | a first server that agrees executes the request when it hears it, whether or not its answer is heard, and nothing else is executed |
| `Asking.HeardStopIsExecuted` | crates/cli/src/server.rs:741-772 | a `stop` is executed exactly when somebody listens and hears it, of whatever build |
| `Asking.ColdStartServes` | crates/client/src/client.rs:52-60 | a command that finds nobody listening is served by the server it starts |
| `Fusion.BestSpan` | crates/core/src/fusion.rs:555-562 | the span with the most weight, the earlier on a tie, 0 when none voted; there is no other |
| `Fusion.SortResults` | crates/core/src/fusion.rs:627-635 | by score and then identifier, a permutation of what it was given |
| `Fusion.Fuse` | crates/core/src/fusion.rs:503-552 | each topic voted for once, with its score, trace and span as the votes tell, in order |
| `FusionLaws.NamedByWorthwhile` | crates/core/src/fusion.rs:508-516 | a topic is in the results exactly when a channel worth something lists it |
| `FusionLaws.ScoreIsSumOfTrace` | crates/core/src/fusion.rs:523-538 | a score is the sum of its trace's contributions, and the trace has every vote |
| `FusionLaws.ChosenSpanHasMost` | crates/core/src/fusion.rs:525-562 | the chosen span maximizes what every channel but the graph gave it, the earlier on a tie |
| `FusionLaws.ListsInAnyOrder` | crates/core/src/fusion.rs:503-552 | permuting the channel lists changes no topic, score, span or place |
| `FusionLaws.WorthlessListsDoNothing` | crates/core/src/fusion.rs:427-441 | without the lists of channels worth nothing there are the same votes |
| `FusionLaws.SortIsUnique` | crates/core/src/fusion.rs:622-635 | distinct topics sort to one sequence from every permutation |
| `FusionSpans.SpanIsACandidates` | crates/core/src/fusion.rs:523-562 | a result's span is that of a candidate of its topic in a list worth something, not the graph's, or 0 with none; no other has more weight behind, which is what the candidates with that topic and span are worth together |
| `FusionSpans.TraceIsTheCandidates` | crates/core/src/fusion.rs:518-538 | a result's trace is that of the candidates with its topic, list by list and place by place, and it scores their sum |
| `FusionSpans.TracedExactly` | crates/core/src/fusion.rs:530-536 | each entry has a candidate's channel, rank, score, weight and worth, and each candidate with the topic is there |
| `FusionSpans.OnlyCandidateIsSpan` | crates/core/src/fusion.rs:525-529 | a topic found at one place comes with that candidate's span |
| `FusionBands.InBandIs` | crates/core/src/fusion.rs:489-496 | a banded share is as far along the band from the last rank's worth to the first's as the score is along its scale |
| `FusionBands.ShareBetween` | crates/core/src/fusion.rs:485-500 | every share, by rank or banded, lies in [1/(k+n), 1/(k+1)] |
| `FusionBands.BothEndsReached` | crates/core/src/fusion.rs:485-500 | a list whose scores are told apart attains both ends |
| `FusionBands.NoScaleReadsRank` | crates/core/src/fusion.rs:584-612 | with a score missing, or no spread in an uncalibrated channel, banded equals reciprocal |
| `FusionBands.ReciprocalReadsRank` | crates/core/src/fusion.rs:485-488 | reciprocal rank fusion reads the rank alone |
| `FusionBands.HigherNeverWorthLess` | crates/core/src/fusion.rs:614-620 | on a scale, a higher score in a channel never gets a smaller contribution |
| `FusionBands.GraphReadsOwnScore` | crates/core/src/channel.rs:67-76 | a graph candidate is worth what its own score and the list's length say |
| `FusionBands.MovedSharesAlike` | crates/core/src/fusion.rs:600-620 | a positive affine change of a channel's scores leaves every share as it was, while they are still told apart |
| `FusionOrder.AnotherScaleFusesAlike` | crates/core/src/fusion.rs:503-552 | and the fused scores, spans and order with them |
| `FusionOrder.OnlyVoteIsScore` | crates/core/src/fusion.rs:518-538 | a topic found at one place only scores what that place is worth |
| `FusionOrder.ScoreAtLeastWorth` | crates/core/src/fusion.rs:518-538 | no vote counts against a topic |
| `FusionOrder.VectorOutranksOneLexical` | crates/core/src/fusion.rs:38-57 | at the shipped weights, what a vector list of at most 77 finds precedes what one lexical channel alone finds |
| `FusionOrder.LexicalOutranksAnyLongerList` | crates/core/src/fusion.rs:38-57 | for every longer list there are results where it does not |
| `McNemar.PIsTwoSided` | benchmarks/summarise.py:167-179 | the p-value is the chance that fair coins come out at least as one-sided, on either side |
| `McNemar.ClampedExactly` | benchmarks/summarise.py:175-177 | holding it to 1 matters exactly for equal nonzero counts |
| `McNemar.CertainExactly` | benchmarks/summarise.py:175-177 | it is positive, at most 1, and 1 exactly when the counts differ by at most one |
| `McNemar.EitherArmFirst` | benchmarks/power.py:99-105 | it is symmetric in the arms |
| `McNemar.OneSidedIsLessLikely` | benchmarks/summarise.py:167-179 | of as many disagreements a more one-sided split never has a larger p-value, and a smaller one from a difference of two |
| `McNemar.TotalsDifferAsDisagreements` | benchmarks/summarise.py:182-187 | the arms' totals differ as the discordant counts do |
| `Ranking.TurnIsOfItsSession` | benchmarks/datasets/longmemeval.py:67-81 | a turn's name gives back its session, whatever marks the session's name has |
| `Ranking.UnmarkedIsItself` | benchmarks/datasets/longmemeval.py:77-85 | a name with no mark is a session's own |
| `Ranking.SessionsOf` | benchmarks/datasets/longmemeval.py:77-85 | each session once, where it is first found |
| `Ranking.SessionsRankByBestTurn` | benchmarks/datasets/longmemeval.py:77-85 | the sessions of the passages, distinct, ordered by where their best turns ranked |
| `Ranking.GainAtMostIdeal` | benchmarks/datasets/longmemeval.py:88-92 | so many hits gain at most the ideal for as many, and that only in the first places |
| `Ranking.PerfectExactly` | benchmarks/datasets/longmemeval.py:88-92 | the score is in [0, 1], and 1 exactly when the first places are there and all gold |
| `Ranking.OneGoldScores` | benchmarks/datasets/longmemeval.py:88-92 | one gold session scores its place's discount against the first's, and nothing beyond the cutoff |
| `Ranking.ZeroExactly` | benchmarks/datasets/longmemeval.py:88-92 | the score is 0 exactly when no gold session is within the cutoff |
| `Ranking.PassagesScoreAtMostOne` | benchmarks/datasets/longmemeval.py:77-92 | for every list of retrieved turns |
| `Ranking.TwiceListedScoresAboveOne` | benchmarks/datasets/longmemeval.py:88-92 | without distinct sessions it would exceed 1 |
| `Ranking.PerfectRecalls` | benchmarks/datasets/longmemeval.py:95-101 | a perfect score recalls everything when the gold sessions fit, and full recall needs them to |
| `ProcessTree.ChildrenOf` | benchmarks/resources.py:40-59 | ends on every table, cyclic ones included, with exactly the roots and what is under them |
| `Filter.JoinedSplitsBack` | crates/core/src/filter.rs:131-135 | words joined by single spaces split into the same words |
| `Filter.NormalizeTwice` | crates/core/src/filter.rs:131-135 | normalizing keeps the words and is idempotent |
| `Filter.SameNormalExactly` | crates/core/src/filter.rs:131-135 | two texts normalize to one exactly when their words are the same |
| `Filter.JudgedByWords` | crates/core/src/filter.rs:107-128 | each rejection by the words alone: a restatement is exactly the same words, once they are long enough |
| `Filter.SpacingIsNoMatter` | crates/core/src/filter.rs:107-128 | the verdict is the same however content and current state are spaced |
| `Filter.MoreSpaceSameWords` | crates/core/src/filter.rs:131-135 | more white space where there is some, or at an end, leaves the words |

## Left out

- Task cancellation, panics inside a task and a poisoned lock: a task runs to its end in every model.
- PostgreSQL, the vector engine, models, embeddings, the filesystem walk and `notify`: each is a step or a parameter that succeeds, fails, or returns some value.
- The registry's map lock is modelled by making each critical section one step, what its loops read meanwhile being a parameter of the step; `keys` and `holds` only read the map.
- Purge.GoneForGoodExactly: a write is something a caller holding an engine may always do, so the condition says what can happen and not what must. The check for an index shared by every project, and a directory removed in part, are not modelled: removal succeeds or changes nothing.
- The session's cache of projects, its warming set, serving counter and index upkeep (`CatchingUp`, `Reshapes`).
- Watcher.Watcher.CatchUp: whether the ingest after the walk succeeds is not determined; an ingest is only logged. That a watching path has a live watch is not claimed: a rewatch that fails keeps its count.
- Watcher.Watcher.Sort: names relative to a root are not modelled, a file is its path.
- Syncing.HeardIsTold: what a path brings and takes with it is what that flush's listings, walks and records say; an ingest told of it may itself fail, which only marks the path.
- What is held is a set rather than a list, pending paths are in no order, and the macOS streams are carried only as far as the counts need.
- Debounce.FlushedWithinLongest: the loop's own delay is not modelled; a step comes no later than the deadline it sleeps until.
- Startup.OneServerListens: the two halves of a stop, removing the socket file and leaving, are one step, and a stopping server does so once.
- Startup.CollidesExactly: says when two serving can follow, not that they must; times are not modelled.
- Settings.EntriesTell: values are compared as values, standing for the text the source compares; that distinct paths are spelled apart is taken from `spelled_path`.
- The command-line parser beyond flags followed by a value: `--flag=value` on the client, help, and the other commands' arguments.
- Asking.Client.Ask: an unreadable request, the bound on a response's size, and a `stop` whose reply cannot be sent, after which the server stays up.
- Rounding, NaN and negative weights or rank constants in fusion, and the pins of its floating-point results to the bit.
- McNemar.PIsTwoSided: the p-value before it is rounded to four places.
- Ranking.PerfectExactly: over the reals, for any positive strictly falling discount rather than the logarithm.
- Output formatting, benchmark arms and their plumbing, build scripts, heap tuning and MCP registration.
