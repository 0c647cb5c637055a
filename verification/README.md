# Contenox, verified models

Dafny models of the parts of Contenox where a mistake would hide in an interleaving, a fixpoint or
an encoding, with proofs about every run or every input. `dafny verify dfyconfig.toml` checks the
whole project (Dafny 4.11).

How the models are built:

- **Objects updated under a lock** are classes. Each method is one critical section, and its
  contract gives the new state as a function of the old one.
- **Protocols** are state machines. `Action` lists the steps that can interleave, each step being
  one critical section, one channel operation or one write. `Run` performs any sequence of enabled
  steps. An invariant is kept by every step (`AlwaysInv`), and the promises follow from it for every
  run.
- **Compilers and codecs** (the SQL splitter, the glob compiler, the filter builder, the token
  format) are proved against an independent meaning: a scanner, a matcher, a machine, an inverse.
- **Clocks, score functions, digests, the JSON codec, the handler signature table and the character
  encoding** are parameters. Theorems hold for all of them, or name the assumption they need.

| file | component |
|---|---|
| `ChainRules`, `ChainLinter`, `ChainRuns` | chain linter: inference rules, fixpoint loop, executor runs |
| `PermissionCancel`, `Correlation` | ACP connections: permission cancelling, call correlation |
| `Lease` | file leases |
| `ReleaseIndex` | concurrent release publishing |
| `Journal`, `Fanout`, `TurnRegistry` | native turns and viewer hubs |
| `Instance`, `Manager` | agent instances: restart watchdog, shutdown |
| `Firings` | trigger firing claims |
| `KvList`, `GlobLike` | key-value store: lists, key patterns |
| `TapFilter` | seccomp tap filter |
| `SqlSplit` | SQL script splitter |
| `Base64Url`, `Token` | licence tokens |
| `Routing` | sticky routing and failover order |
| `Text`, `Options` | string operations and the option type shared by the others |

## What the code does not do as its documentation says

- **A reported chain is provably broken** (`internal/kernel/taskengine/chainlint_test.go:50-52`). The
  linter tests a task's templates before macro expansion and after trimming
  (`internal/kernel/taskengine/chainlint.go:126`), the executor after expansion and untrimmed
  (`internal/kernel/taskengine/taskenv.go:368`). A prompt of one space and a prompt `{{var:hint|}}`
  with `hint` unset both raise false alarms (`ChainRuns.SpaceFalseAlarm`,
  `ChainRuns.MacroFalseAlarm`). `ChainRuns.AgreementIsExact` gives the exact condition: a task's
  templates fool the linter in no chain if and only if both sides answer alike (or the linter expects
  a string in any case).
- **`CancelPrompt` answers every pending permission request "cancelled"**
  (`libacp/clientconn.go:697-700`). A request that arrives while the cancelled turn is still registered
  is answered with an error if its parameters do not parse as a whole, because that is found before
  the turn is looked up (`libacp/clientconn.go:384-386`). `PermissionCancel.WindowExact` shows that
  this is the only way around the cancellation.
- **`Stopped` is terminal** (`internal/kernel/agentinstance/instance.go:227-228`). A watchdog that has
  decided to give up before the stop overwrites it. `Instance.StoppedIsFinalIff`: it is terminal exactly
  when restarts are off.
- **At most `limit` restarts** (`internal/kernel/agentinstance/manager.go:191-193`). As a bound of
  limit + 1 connects this holds exactly for limits that are not negative (`Instance.LimitKeptIff`); for
  all limits the bound is max(limit, 0) + 1, and it is met (`Instance.BoundIsMet`).
- **A live claim withstands takeover, and a settled one is not reclaimed**
  (`libevents/firings.go:97-98`, `libevents/libevents_test.go:98-99`). Both hold exactly when nobody
  records the outcome "running" (`Firings.NoEarlyTakeoverIff`, `Firings.SettledNeverGrantedIff`), which
  `FinishFiring` does not refuse.
- **The tap filter notifies for the listed calls**. That is so for the two calls the builder lists
  (`internal/libsandbox/synctap_linux.go:82`). The same builder on a longer list misses calls, because a
  jump offset has eight bits: `TapFilter.FilterExact`, `TapFilter.FilterCorrectIff` and
  `TapFilter.LongListMisses` say what it does for every list.

## Model

| member | source | states |
|---|---|---|
| `ChainRules.DerivesMonotone` | internal/kernel/taskengine/chainlint.go:125-231 | the linter's inference rules never derive less from more facts |
| `ChainRules.UniverseClosed` | internal/kernel/taskengine/chainlint.go:171-231 | on a valid chain the finite set of all facts over its task IDs and variable names is closed, so the fixpoint is bounded |
| `ChainRules.IntersectionIsLeast` | internal/kernel/taskengine/chainlint.go:171-231 | a least closed set of facts exists for every chain, cycles included |
| `ChainRules.LeastIsUnique` | internal/kernel/taskengine/chainlint.go:171-231 | it is unique, so there is one right answer for the loop to find |
| `ChainRules.LeastIgnoresOrder` | internal/kernel/taskengine/chainlint.go:171-231 | it is the same for every order of the tasks behind the entry task |
| `ChainLinter.Linter.constructor` | internal/kernel/taskengine/chainlint.go:101-123 | a new linter knows exactly that the entry task is reachable with the entry types and the variable "input" |
| `ChainLinter.Linter.Effective` | internal/kernel/taskengine/chainlint.go:125-133 | reading the maps gives the input types the known facts imply: string for a template, else the input variable's types, else the carried types |
| `ChainLinter.SuccessTargets` | internal/kernel/taskengine/chainlint.go:157-169 | the list holds each proper goto target once, and neither the empty one nor the end marker |
| `ChainLinter.Linter.GrowVar` | internal/kernel/taskengine/chainlint.go:233-241 | adds exactly the given types to the variable and reports whether any fact is new |
| `ChainLinter.Linter.GrowIn` | internal/kernel/taskengine/chainlint.go:243-251 | adds exactly the given types to the task's inputs and reports whether any fact is new |
| `ChainLinter.Linter.GrowAvail` | internal/kernel/taskengine/chainlint.go:253-269 | adds exactly the source task's variables and the extra names and reports whether any fact is new |
| `ChainLinter.Linter.GrowEdge` | internal/kernel/taskengine/chainlint.go:203-226 | one edge brings its target exactly reachability, the carried types and the available names |
| `ChainLinter.Linter.Visit` | internal/kernel/taskengine/chainlint.go:177-226 | a visit adds exactly what the rules derive from the facts known before it, also where a task loops to itself, and reports whether any fact is new |
| `ChainLinter.VisitStaysBelow` | internal/kernel/taskengine/chainlint.go:171-231 | a visit never adds a fact that some closed set lacks |
| `ChainLinter.Linter.Pass` | internal/kernel/taskengine/chainlint.go:174-230 | a pass only adds facts every closed set has, and if it reports no change the facts are closed under every task |
| `ChainLinter.Linter.Propagate` | internal/kernel/taskengine/chainlint.go:171-231 | stops on every valid chain, cycles included, and ends with the least closed set of facts |
| `ChainLinter.Linter.Carried` | internal/kernel/taskengine/chainlint.go:365-380 | the types on the edge between two tasks, over its success and its failure side |
| `ChainLinter.Linter.CheckEdges` | internal/kernel/taskengine/chainlint.go:349-390 | reports exactly the reachable predecessors whose carried types are known and none accepted |
| `ChainLinter.Linter.CheckInputVar` | internal/kernel/taskengine/chainlint.go:303-315 | reports exactly when the input variable is available on no path the facts know |
| `ChainLinter.Linter.CheckInputTypes` | internal/kernel/taskengine/chainlint.go:317-363 | reports exactly the template, variable, entry and edge defects of the task |
| `ChainLinter.Linter.Check` | internal/kernel/taskengine/chainlint.go:271-289 | the dataflow defects reported are exactly those the facts amount to, over all reachable tasks |
| `ChainLinter.ValidateChain` | internal/kernel/taskengine/taskenv.go:744-811 | true exactly for non-empty chains with proper, distinct IDs and goto and failure targets that exist |
| `ChainLinter.LintChain` | internal/kernel/taskengine/chainlint.go:61-86 | refuses exactly the chains `ValidateChain` refuses, and reports of any other exactly the dataflow defects of the least closed set |
| `ChainLinter.DefectsIgnoreOrder` | internal/kernel/taskengine/chainlint.go:171-390 | the defects do not depend on the order of the tasks behind the entry task |
| `Text.BlankTrimsToNothing` | internal/kernel/taskengine/chainlint.go:126 | a text is all white space exactly when trimming leaves nothing, which is how the linter tests a template |
| `ChainRuns.InputAccounted` | internal/kernel/taskengine/taskenv.go:345-375 | where both sides agree on the prompt, the input the executor picks has a type the linter's effective input covers |
| `ChainRuns.StepAccounted` | internal/kernel/taskengine/taskenv.go:524-602 | where both sides agree on the templates, any closed set of facts that accounts for a configuration accounts for every successor, over success or failure |
| `ChainRuns.RunAccounted` | internal/kernel/taskengine/chainlint.go:125-231 | soundness for every macro expansion on whose templates both sides agree: at the end of every run the task is marked reachable, the carried type and every held variable's type are covered, and every held variable is available |
| `ChainRuns.NothingAccepted` | internal/kernel/taskengine/handler_signatures.go:43-53 | no type a refused set covers passes the runtime's own input test |
| `ChainRuns.NoFalseAlarm` | internal/kernel/taskengine/chainlint.go:303-390 | where all templates agree, no report of the linter is refuted by a run that reaches the task the way the report says |
| `ChainRuns.BlankPromptFools` | internal/kernel/taskengine/chainlint.go:125-133 | every ordinary task with a blank prompt the executor still renders stands in a chain with a false alarm, all other tasks agreeing |
| `ChainRuns.VanishingPromptFools` | internal/kernel/taskengine/macroenv.go:68-73 | so does every ordinary task whose prompt is not blank and expands to nothing |
| `ChainRuns.VanishingOutputFools` | internal/kernel/taskengine/macroenv.go:80-85 | so does every ordinary task whose output template is not blank and expands to nothing, if a successor sees the output |
| `ChainRuns.AgreementIsExact` | internal/kernel/taskengine/chainlint.go:125-151 | a task's templates fool the linter in no chain, for no handlers, entry types and runs, if and only if linter and executor agree on the template and its expansion |
| `ChainRuns.MacroFalseAlarm` | internal/kernel/taskengine/macroenv.go:68-73 | a prompt that is one unset macro with an empty fallback is reported, and the executor feeds the accepted chat history |
| `ChainRuns.SpaceFalseAlarm` | internal/kernel/taskengine/taskenv.go:368-375 | a prompt of one space is reported for JSON input, and the executor feeds an accepted string |
| `PermissionCancel.ClientConnection.BeginPrompt` | libacp/clientconn.go:671-689 | the session's registered turn is the new one, and no other state changes |
| `PermissionCancel.ClientConnection.EndPrompt` | libacp/clientconn.go:671-689 | a turn unregisters only itself, never a successor |
| `PermissionCancel.ClientConnection.CancelTurn` | libacp/clientconn.go:702-714 | marks exactly the session's registered turn, if there is one |
| `PermissionCancel.ClientConnection.RegisterPendingPerm` | libacp/clientconn.go:241-253 | the request is pending under its session, and no other state changes |
| `PermissionCancel.ClientConnection.UnregisterPendingPerm` | libacp/clientconn.go:255-259 | the request is no longer pending, and no other state changes |
| `PermissionCancel.ClientConnection.TakeSessionPermissions` | libacp/clientconn.go:274-298 | takes exactly the session's pending requests, each once |
| `PermissionCancel.AlwaysInv` | libacp/clientconn.go:193-394 | at every point of every interleaving, rejected parameters included: at most one answer, no open request lost between pending map and queues, swept sessions' open readable requests doomed |
| `PermissionCancel.NotLost` | libacp/clientconn.go:241-298 | an open permission request is pending or in some canceller's queue, whatever step comes |
| `PermissionCancel.OneResponse` | libacp/clientconn.go:193-298 | a request gets at most one response, and exactly one once an admitted handler is through |
| `PermissionCancel.NoWindow` | libacp/clientconn.go:274-305 | once a turn is swept and while it stays registered, the first answer of its session's requests whose parameters parse is "cancelled" unless the handler wrote before the forced write that is already queued |
| `PermissionCancel.WindowExact` | libacp/clientconn.go:382-394 | a request that arrives after the sweep can be answered with something else in some continuation if and only if its parameters do not parse |
| `PermissionCancel.WindowForUnreadable` | libacp/clientconn.go:384-386 | the shortest run in which that happens |
| `PermissionCancel.SnapshotCatchesAll` | libacp/clientconn.go:274-298 | the snapshot queues every open permission request of the session |
| `PermissionCancel.ForcedWriteAnswers` | libacp/clientconn.go:274-363 | after a forced write the request has exactly one answer: "cancelled", or the one it already had |
| `Correlation.Pending.Register` | libacp/conn.go:601-625 | the fresh call ID maps to its own channel, and no other entry changes |
| `Correlation.Pending.Take` | libacp/conn.go:584-599 | removes the entry and returns its channel, or nothing for an unknown ID |
| `Correlation.Pending.CloseAll` | libacp/conn.go:202-237 | closes exactly the channels still in the table and empties it |
| `Correlation.AlwaysInv` | libacp/clientconn.go:165-191 | at every point of every interleaving a channel has one owner: the table, the reader or nobody |
| `Correlation.ChannelsNeverMisused` | libacp/clientconn.go:487-553 | at most one send and one close per channel, and no send after close or double close, so no panic |
| `Correlation.DeliveryNeverBlocks` | libacp/conn.go:584-599 | whenever the read loop is in the middle of a delivery its next step can be taken |
| `Correlation.CallGetsItsOwnResponse` | libacp/conn.go:601-651 | a call that returns a response returns the one bearing its own ID |
| `Correlation.DeliveredResponseIsHeld` | libacp/conn.go:584-651 | a delivered response waits for its caller: if the call is still waiting, its next receive returns it |
| `Lease.LeaseFile.Acquire` | liblease/lease.go:75-126 | wins exactly when the file is absent, unreadable as a record or expired and the TTL is positive; then the file is the new record, otherwise untouched |
| `Lease.Handle.Renew` | liblease/lease.go:208-230 | succeeds exactly when the file still names the handle and the handle has not expired; only then record and file change |
| `Lease.Handle.Release` | liblease/lease.go:238-259 | removes the file exactly when it still names the handle |
| `Lease.InvStep` | liblease/lease.go:75-259 | what every step of acquire, renew, release and the clock keeps |
| `Lease.AlwaysInv` | liblease/lease.go:75-259 | the invariant at every point of every run |
| `Lease.AtMostOneLive` | liblease/lease.go:54-126 | at most one unreleased handle is unexpired, and outside its own write the file carries exactly its record |
| `Lease.NoRenewalAfterTakeover` | liblease/lease.go:208-230 | once the file no longer names a handle, that handle never renews again, in any continuation |
| `Lease.TakeoverConfirms` | liblease/lease.go:184-199 | an acquirer that reads its record back becomes a holder, and no other handle is live then |
| `ReleaseIndex.SortSorts` | scripts/modeld-publish.py:115-140 | the builds come out sorted and are a permutation of what went in |
| `ReleaseIndex.MergeAdds` | scripts/modeld-publish.py:115-140 | a merge yields a sorted index with exactly one more entry, in a slot that was free |
| `ReleaseIndex.ComputeMerge` | scripts/modeld-publish.py:115-140 | the publisher's merge, its conflict and its already-there case, against the merge function |
| `ReleaseIndex.Store.Immutable` | scripts/modeld-publish.py:76-87 | stores under a free key, accepts equal digests, refuses anything else, and never overwrites |
| `ReleaseIndex.Store.CompareAndSwap` | scripts/modeld-publish.py:89-100 | replaces the index exactly when the token is still current |
| `ReleaseIndex.AlwaysInv` | scripts/modeld-publish.py:76-140 | at every point of every interleaving of publishers: what each has read is still the index while its token is current, and its objects are stored |
| `ReleaseIndex.GrowsStep` | scripts/modeld-publish.py:76-140 | no step alters an object or drops an index entry, and a replaced index is in the history already |
| `ReleaseIndex.IndexAlwaysWell` | scripts/modeld-publish.py:115-140 | the index is always sorted, has one entry per (version, platform), and lists only builds whose three objects are stored |
| `ReleaseIndex.IndexedHasItsFiles` | scripts/modeld-publish.py:76-140 | every indexed build that was not there at the start belongs to a publication, and its three keys hold that publication's files, up to their digests |
| `ReleaseIndex.NothingLost` | scripts/modeld-publish.py:76-140 | from any point of a run on, objects keep their content and the index keeps every entry |
| `ReleaseIndex.ReplacedIndexIsInHistory` | scripts/modeld-publish.py:115-140 | when an index is replaced it is in the history under its digest, word for word if digests tell contents apart |
| `ReleaseIndex.SuccessIsIndexed` | scripts/modeld-publish.py:115-140 | a publication that reports success has its build in the index and its three files in the store |
| `Journal.LastNAppend` | internal/kernel/nativeturn/journal.go:44-65 | forgetting before an append is forgetting after it |
| `Journal.LastNThenRest` | internal/kernel/nativeturn/journal.go:44-65 | the kept tail followed by what came later is one unbroken suffix |
| `Journal.Ring.Append` | internal/kernel/agentinstance/journal.go:20-41 | the ring's contents become the last N of the old contents and the new element, for every capacity including zero |
| `Journal.Ring.Snapshot` | internal/kernel/nativeturn/journal.go:44-65 | the copy lists the contents oldest first, across the wrap |
| `Fanout.Session.Publish` | internal/kernel/nativeturn/turn.go:92-101 | every attached viewer gets the update once, and the journal keeps it |
| `Fanout.Session.AttachViewer` | internal/kernel/nativeturn/turn.go:103-125 | a new viewer gets exactly the journal's contents; an empty or taken name is refused and changes nothing |
| `Fanout.Session.DetachViewer` | internal/kernel/nativeturn/turn.go:127-154 | exactly that viewer leaves, the others keep their order |
| `Fanout.DeliverToAll` | internal/kernel/agentinstance/viewer.go:94-102 | the delivery loop appends the update to every viewer's inbox once |
| `Fanout.RemoveFirst` | internal/kernel/agentinstance/viewer.go:134-168 | the removal loop drops exactly the viewer and keeps the order of the rest |
| `Fanout.StepsGood` | internal/kernel/nativeturn/turn.go:92-154 | over every sequence of updates, joins and leaves, what each viewer got is the journal at its joining followed by everything since |
| `Fanout.ViewerSeesSuffix` | internal/kernel/nativeturn/turn.go:92-125 | in every run a viewer has received exactly the history from N updates before it joined to now: no gap, no repeat |
| `Fanout.ConsecutiveNumbers` | internal/kernel/nativeturn/turn.go:92-101 | a viewer's sequence numbers are consecutive and end at the current one |
| `Fanout.HubAlwaysGood` | internal/kernel/agentinstance/viewer.go:82-168 | in every run of an instance's sessions the controller is the earliest viewer still attached, and every viewer has an unbroken suffix |
| `Fanout.HubViewerSeesSuffix` | internal/kernel/agentinstance/viewer.go:94-132 | the suffix property for viewers of a hub's session |
| `TurnRegistry.Registry.StartTurn` | internal/kernel/nativeturn/registry.go:93-115 | starts only on an open registry whose session has no turn at work |
| `TurnRegistry.Registry.AttachViewer` | internal/kernel/nativeturn/turn.go:103-125 | adds the viewer and disarms the grace timer; an empty or taken name changes nothing |
| `TurnRegistry.Registry.DetachViewer` | internal/kernel/nativeturn/turn.go:127-154 | the last viewer's leaving arms the grace timer, or asks for the reaping of a finished turn |
| `TurnRegistry.Registry.FinishTurn` | internal/kernel/nativeturn/turn.go:160-183 | finishing happens once and disarms the timer |
| `TurnRegistry.Registry.Unregister` | internal/kernel/nativeturn/registry.go:258-264 | removes the session's entry only if it still names this turn |
| `TurnRegistry.Registry.CloseAll` | internal/kernel/nativeturn/registry.go:219-240 | the first close empties the registry and hands over every registered turn; later ones do nothing |
| `TurnRegistry.AlwaysInv` | internal/kernel/nativeturn/registry.go:93-264 | the invariant over every interleaving of start, cancel, attach, detach, grace expiry, reaping, finish and close |
| `TurnRegistry.OneWorkingTurn` | internal/kernel/nativeturn/registry.go:93-145 | at most one unfinished and uncancelled turn per session, and it is the registered one unless the registry was closed |
| `TurnRegistry.TeardownSparesSuccessor` | internal/kernel/nativeturn/turn.go:185-197 | a late teardown never unregisters the turn that came after |
| `TurnRegistry.GraceMeansUnwatched` | internal/kernel/nativeturn/turn.go:103-183 | an armed grace timer implies no viewer and an unfinished turn |
| `TurnRegistry.CloseIsFinal` | internal/kernel/nativeturn/registry.go:219-240 | after a close no turn starts and none comes back to work, in any continuation, and once the root context is cancelled none works at all |
| `Instance.InstanceObject.SetState` | internal/kernel/agentinstance/instance.go:199-214 | changes the status only from the allowed ones, and nothing else |
| `Instance.InstanceObject.InstallHandle` | internal/kernel/agentinstance/instance.go:216-267 | a fresh connection is installed, or abandoned if a stop has begun |
| `Instance.InstanceObject.StopSection` | internal/kernel/agentinstance/instance.go:269-289 | the first stop takes the handle over; later ones get nothing |
| `Instance.AlwaysInv` | internal/kernel/agentinstance/instance.go:181-289 | the invariant over every interleaving of connection deaths, restarts and stop |
| `Instance.ConnectsBounded` | internal/kernel/agentinstance/instance.go:216-267 | Connect is called at most max(restart limit, 0) + 1 times, and once only without a restart policy |
| `Instance.NoLeakAfterStop` | internal/kernel/agentinstance/instance.go:181-289 | once stop and any pending watchdog step are through, every connection ever made has died or been closed |
| `Instance.StopWinsTheRace` | internal/kernel/agentinstance/instance.go:216-267 | a connection that comes up after a stop is never installed, and the watchdog closes it and ends |
| `Instance.StoppedIsFinalIff` | internal/kernel/agentinstance/instance.go:199-267 | a stopped instance stays `Stopped` in every run if and only if restarts are off |
| `Instance.LimitKeptIff` | internal/kernel/agentinstance/manager.go:191-198 | no run connects more than limit + 1 times if and only if the limit is not negative |
| `Instance.BoundIsMet` | internal/kernel/agentinstance/instance.go:216-267 | for every policy some run makes max(limit, 0) + 1 connects, or one without restarts |
| `Manager.ManagerObject.Register` | internal/kernel/agentinstance/manager.go:412-424 | registers on an open manager, refuses on a closed one |
| `Manager.ManagerObject.Take` | internal/kernel/agentinstance/manager.go:641-652 | exactly one stopper gets the instance |
| `Manager.ManagerObject.TakeAll` | internal/kernel/agentinstance/manager.go:654-676 | the first close takes every registered instance once |
| `Manager.AlwaysInv` | internal/kernel/agentinstance/manager.go:412-676 | over every interleaving of the manager and all its instances: the map holds exactly what it owns, every instance keeps its own invariant, and what nobody owns has been stopped |
| `Manager.NoneEscapesClose` | internal/kernel/agentinstance/manager.go:654-676 | whenever the manager is closed and no start, stop or restart is under way, every connection ever made by any instance has died or been closed |
| `Manager.CloseCompletes` | internal/kernel/agentinstance/manager.go:412-676 | after a close every instance that is not settled has an enabled step of its own that brings it nearer, so the close always comes to its end |
| `Manager.LateBringUpIsStopped` | internal/kernel/agentinstance/manager.go:412-424 | an instance that comes up after the close is not registered, and its stop can run |
| `Firings.FiringStore.Begin` | libevents/firings.go:99-135 | grants exactly a free or a stranded firing; a refusal changes nothing |
| `Firings.FiringStore.FinishFiring` | libevents/firings.go:138-148 | records the outcome on an existing row only |
| `Firings.FiringStore.ResetFiring` | libevents/firings.go:152-169 | succeeds exactly on rows that are settled or stranded |
| `Firings.AlwaysInv` | libevents/firings.go:99-169 | the invariant over every interleaving of calls that may stall between reading the clock and each of their statements |
| `Firings.NoEarlyTakeover` | libevents/firings.go:99-135 | with a monotone clock, two grants of a firing without a reset between them are more than the stale bound apart, unless the outcome "running" is recorded for it |
| `Firings.StalledFinishRuns` | libevents/firings.go:138-148 | a finish with that outcome that stalls past a takeover leads to a third grant at the time of the second |
| `Firings.NoEarlyTakeoverIff` | libevents/firings.go:99-148 | early takeovers are ruled out in all runs if and only if "running" is not among the recorded outcomes |
| `Firings.SettledNeverGranted` | libevents/firings.go:99-169 | a settled firing stays settled and ungranted in every run without a reset of it or an outcome "running" for it |
| `Firings.SettledNeverGrantedIff` | libevents/firings.go:99-169 | from every state in which it is settled it stays ungranted in all runs without a reset if and only if "running" is not among the recorded outcomes |
| `Firings.LateFinishSettlesSuccessor` | libevents/firings.go:138-148 | a finish that stalls past a takeover settles the successor's claim with its own outcome, keeping the successor's request ID |
| `Firings.RowWaits` | libevents/firings.go:99-169 | a row stays as it is until its firing is granted, finished or reset, whatever the other hosts do |
| `Firings.ResetGrantsNext` | libevents/firings.go:152-169 | however long after the reset and whatever happens to other firings, the first claimant that read the clock after the reset did is granted the firing |
| `Firings.StrandedIsReclaimable` | libevents/firings.go:39-41 | what is reported as stranded is exactly what the takeover statement accepts |
| `KvList.Window` | libkvstore/sqlite.go:262-286 | for all start and stop values the slice bounds are valid and select exactly the named positions |
| `KvList.SliceRange` | libkvstore/sqlite.go:241-259 | the 64-bit computation of ListRange never overflows and equals the specification |
| `KvList.TrimThenRange` | libkvstore/sqlite.go:241-286 | trimming and then reading everything is reading the range |
| `KvList.Store.WriteTx` | libkvstore/sqlite.go:68-102 | under any pattern of busy retries and aborted attempts the body takes effect exactly once or not at all, and the result says which |
| `KvList.Store.ListPush` | libkvstore/sqlite.go:230-239 | prepends exactly once if it reports success, else changes nothing |
| `KvList.Store.ListRPop` | libkvstore/sqlite.go:298-316 | removes and returns the last element exactly once, or reports not found on an empty list |
| `KvList.Store.ListTrim` | libkvstore/sqlite.go:262-286 | keeps exactly the named range, or changes nothing |
| `KvList.QueueConserves` | libkvstore/sqlite.go:68-316 | over every sequence of pushes and pops, with any failures, the popped elements followed by the reversed list are the pushed sequence |
| `KvList.ConcurrentQueueConserves` | libkvstore/sqlite.go:64-102 | the same over every interleaving of callers between lock, load, body and commit: no update lost, no element popped twice |
| `KvList.ToldTheTruth` | libkvstore/sqlite.go:68-102 | a caller is told of success exactly when its own commit took effect |
| `GlobLike.GlobToLike` | libkvstore/sqlite.go:369-384 | the builder loop computes the character-by-character compilation |
| `GlobLike.CompilationPreservesMatching` | libkvstore/sqlite.go:178-200 | for every pattern, key and character comparison, the LIKE pattern matches exactly the keys the glob matches |
| `GlobLike.BytewiseIsCharacterwise` | libkvstore/sqlite.go:369-384 | compiling the encoded bytes is encoding the compiled characters, for every encoding that is transparent for ASCII |
| `TapFilter.BuildTapFilter` | internal/libsandbox/synctap_linux.go:81-107 | the emitted program, guard, tests with truncated offsets and the two returns, for every list |
| `TapFilter.FilterExact` | internal/libsandbox/synctap_linux.go:81-115 | run on a classic-BPF machine, the program always returns from within itself, and notifies exactly for native calls among the last 255 listed |
| `TapFilter.FilterCorrectIff` | internal/libsandbox/synctap_linux.go:81-107 | it taps exactly the listed calls if and only if every listed call occurs among the last 255 |
| `TapFilter.LongListMisses` | internal/libsandbox/synctap_linux.go:81-107 | a list of 256 different calls whose first is allowed without notice |
| `SqlSplit.SplitSqlStatements` | libdbexec/sqlite.go:67-138 | the flag-and-look-ahead loop yields exactly the statements a look-ahead-free scanner cuts |
| `SqlSplit.SplittingConserves` | libdbexec/sqlite.go:67-138 | the parts joined with semicolons are the script |
| `SqlSplit.PartsAreWhole` | libdbexec/sqlite.go:67-138 | no part has a semicolon outside quotes and comments left in it |
| `SqlSplit.StatementSplitsIntoItself` | libdbexec/sqlite.go:67-138 | splitting any resulting statement again yields exactly that statement |
| `Base64Url.Regroup` | liblicense/token.go:72-90 | decoding fails exactly when one sextet is left over, and otherwise has the right length |
| `Base64Url.RoundTrip` | liblicense/token.go:44-46 | decoding an encoding gives the bytes back, for all byte strings |
| `Token.ArmorToken` | liblicense/token.go:98-116 | the wrapping loop emits header, lines of at most 64 characters and footer |
| `Token.DearmorToken` | liblicense/token.go:119-144 | the scanning loop collects exactly what stands between header and footer, and refuses an empty block |
| `Token.ArmorRoundTrip` | liblicense/token.go:98-144 | armour comes off again, whatever white space surrounds the block |
| `Token.CompactRoundTrip` | liblicense/token.go:38-95 | decoding an encoded token returns header, ciphertext and signature, and the bytes that were to be signed |
| `Token.TokenRoundTrip` | liblicense/token.go:38-149 | the same for plain and armoured tokens with any white space around them, and every header codec with an inverse |
| `Routing.Best` | internal/kernel/llmresolver/requestresolver.go:561-578 | the pick has the highest score and is the first that has it |
| `Routing.StickyPick` | internal/kernel/llmresolver/requestresolver.go:550-580 | the nested loop finds that pick for every candidate list, nil entries and providers without backends included, and fails exactly when there is no pair |
| `Routing.DroppingOthersKeepsPick` | internal/kernel/llmresolver/requestresolver.go:550-580 | for any score function, dropping pairs other than the pick keeps the pick |
| `Routing.InsertingKeepsPickOrTakesOver` | internal/kernel/llmresolver/requestresolver.go:550-580 | inserting pairs anywhere keeps the pick or moves it to an inserted pair |
| `Routing.CandidateMovesOnlyItsOwn` | internal/kernel/llmresolver/requestresolver.go:550-580 | a candidate that joins or leaves moves only sessions to or from itself |
| `Routing.OrderSelections` | internal/kernel/llmresolver/requestresolver.go:230-252 | the pick first, then all pairs in candidate order without the first that has the pick's target; a policy error is passed on |
| `Routing.OrderIsPermutation` | internal/kernel/llmresolver/requestresolver.go:230-252 | by (ID, backend), the order is a permutation of all candidate pairs |
| `Routing.StickyOrderIsPermutation` | internal/kernel/llmresolver/requestresolver.go:230-252 | with a sticky pick it is a permutation of the pairs themselves, also when IDs repeat |

## Left out

- ChainRuns.NoFalseAlarm: assumes that linter and executor agree on every task's templates; without that it is false.
- ChainRuns.RunAccounted: assumes the same, as do `InputAccounted` and `StepAccounted` for one task.
- ChainRuns.AgreementIsExact: for a task whose input variable is its own ID or the end marker, and for an output template no other successor sees, only agreement-implies-no-false-alarm is proved.
- ChainLinter.ValidateChain: does not model the checks of handler names, tool blocks, branch operators and edge thresholds, which the dataflow analysis does not use.
- ChainLinter.LintChain: therefore accepts chains with unknown handlers or operators, and reports dataflow defects only.
- ChainLinter.Linter.Check: does not model the route vocabulary, macro, template reference and dead branch checks; they read one task's text and no dataflow.
- Correlation.Pending.Register: takes the call ID and the channel as unused, which the connection's counter and the fresh channel provide.
- ReleaseIndex.ReplacedIndexIsInHistory: gives the replaced index word for word only for digests without collisions.
- PermissionCancel.NoWindow: speaks of requests whose parameters parse; for the others it is false, and `WindowExact` is the exact condition.
- Firings.NoEarlyTakeover: excludes runs that record the outcome "running", for which it is false; `NoEarlyTakeoverIff` is the exact condition.
- Firings.SettledNeverGranted: excludes the same runs; `SettledNeverGrantedIff` is the exact condition.
- KvList.SliceRange: takes lists shorter than 2^63, which memory enforces.
- Executor runs resumed from a checkpoint, the retry loop inside a task and the values carried: a run is modelled by its types.
- The types a handler really returns: a handler is taken to obey its signature, on failure as on success.
- The lease's lock directory and its stale-lock breaking: the lock is taken as a mutex and record writes as succeeding.
- Storage back ends: rows are map entries, a transaction commits or aborts as a whole, and an ETag is a version number that changes with every write.
- Journal of a hub session whose last viewer leaves: it is dropped with the room, so a viewer's history is that of the current room.
- Ordering of messages on the wire and the contents of ACP requests.
- Candidate filtering by capability, context length and model name, and the hash behind the sticky score: the score is an arbitrary function of the target.
- Cryptographic primitives and the licence payload: ciphertext and signature are byte strings.
- Landlock, network namespaces, process spawning and the seccomp listener: only the filter program is logic.
- Circuit breaker, redaction, environment policy, log rotation and version comparison: easy members next to the above.
