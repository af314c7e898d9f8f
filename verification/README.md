# penguind, modelled and proved in Dafny

penguind is a daemon that loads modules (built in, or external plugins running as child processes),
watches their health, restarts them with backoff, remembers which ones the operator enabled, and
streams logs and events to clients. This project models the parts where that is hard to get right
and proves what they promise, for every input and every interleaving.

`dafny verify dfyconfig.toml` checks the whole project.

## How it is built

**The supervisor** (`src/Supervisor*.dfy`). `SupervisorModel` describes the shared state as one value
and each lock section, and each step a background task takes outside the lock, as one labelled step.
A run is any sequence of possible steps. `SupervisorInvariants` proves what every step keeps;
`SupervisorEffects` spells out what single operations leave behind; `SupervisorTasks`,
`SupervisorTimes`, `SupervisorSituations`, `SupervisorFailed`, `SupervisorLeftovers`,
`SupervisorBudget`, `SupervisorParking`, `SupervisorEvents`, `SupervisorReplay`, `SupervisorShutdown`
and `SupervisorEnabled` prove properties of whole runs.
`Supervisor.dfy` holds the supervisor as a class whose methods update its fields in place; each
operator call and each turn of a task is proved to be one step of the machine (boot and shutdown:
several), so the run properties apply to it. Module outcomes, save outcomes, health reports, the clock and random draws
are parameters of the steps. A poll loop that is cancelled while asleep may complete one last probe;
a loop that comes back from a probe and finds its token cancelled ends; a failed restart releases the
lock before it reports, and that gap is a task state of its own.

*Quiescent reload* means that a name is started again only when no task of an earlier load of that
name is left. The properties that need it say so. Without it, `failed` is not a parking place:
`FailedLeftWithoutUnload` is a run that leaves it, and `FailedLeftIffTasks` gives the exact condition
for every reachable state. `OldTasksActIffLeft` says what a reload that is not quiescent does.

**Around it.** `External` (the take-once process slot), `PersistedState` (crash-safe saving),
`Backoff`, `Calendar` and `Timestamp`, `LogRing`, `Broadcast` and `Streams` (log tails and event
watches), `PluginBroker` (the go-plugin rendezvous), `Base64` and `Handshake`.

## Where the code and its documentation differ

The model follows the code.

- The crate documentation says the restart budget resets after a successful restart. The code carries
  the count over a restart and clears it at the next failure, if the stability window has passed
  since the last successful start.
- A failed restart keeps the old entry with the old start time. So a module that failed only after
  the window has passed, and whose restarts keep failing, has its budget cleared at every report: it
  is retried for ever and never parked, unless its budget is one. `ParkedExactlyWhen` gives the exact condition for parking,
  `NeverParkedAfterWindow` the family that is never parked, and `NotParked` a concrete run.
- Saving is documented to remove the temporary file on a write or permission error, and it does unless
  the removal fails too. The documentation does not mention the rename: when that fails, the temporary
  file stays. `Save` states exactly when a failed save leaves the directory as it was, and
  `FailedRenameLeavesFile` is a save that does not; `enabled.json` is untouched all the same.
- Boot reads the file before it takes the lock. The documentation says that only unloading shrinks the
  enabled-set; a load that falls between the read and the adoption is dropped from it all the same
  (`RacingLoadDropped`). It says that an unloaded module stays gone across a restart; an unload that
  falls there is undone (`RacingUnloadUndone`). `AdoptionSafeIff` and `CoveredIffSafeBoot` give the
  conditions. The daemon itself boots before it serves, so nothing can come in between there.

## Model

| member | source | states |
|---|---|---|
| `SupervisorCode.Supervisor.constructor` | crates/penguin-daemon/src/supervisor.rs:157-189 | a fresh supervisor is the machine's initial state; a budget of zero stands for five |
| `SupervisorCode.Supervisor.Load` | crates/penguin-daemon/src/supervisor.rs:197-260 | is one load step and keeps the invariant; succeeds exactly if the name was loaded or every stage succeeds, and then stores it as running since now under the next load number, with one new health loop, its announcements and the saved set; a failure leaves the loaded map, stops what was built and returns the error of the stage that failed |
| `SupervisorCode.Supervisor.Unload` | crates/penguin-daemon/src/supervisor.rs:269-281 | is one unload step and keeps the invariant; a name that is not loaded is left alone, a loaded one is stopped, announced, removed and no longer enabled |
| `SupervisorCode.Supervisor.StartEnabled` | crates/penguin-daemon/src/supervisor.rs:286-308 | is a run of the machine that reads the file, adopts what was read and loads each name in it, with any calls and turns of tasks by others between the read and the adoption and before each load; exactly those names are returned, with their errors, whose load fails and which are not loaded at that moment |
| `SupervisorCode.UninterruptedBoot` | crates/penguin-daemon/src/supervisor.rs:286-308 | without such interruptions, exactly the names whose load succeeds are added to the loaded ones, exactly the others that were not loaded before are returned, and the enabled-set is what was read |
| `SupervisorCode.Supervisor.ReadEnabled` | crates/penguin-daemon/src/supervisor.rs:287-294 | the read outside the lock is a step of its own; an unreadable file counts as empty |
| `SupervisorCode.Supervisor.AdoptEnabled` | crates/penguin-daemon/src/supervisor.rs:295-298 | the adoption under the lock is a step of its own |
| `SupervisorCode.BootRestores` | crates/penguin-daemon/src/supervisor.rs:286-308 | a boot of a fresh supervisor during which nothing is unloaded and only its names are loaded, successfully, is a restoring run in the sense of `RestartBringsBack` |
| `SupervisorCode.Supervisor.Shutdown` | crates/penguin-daemon/src/supervisor.rs:314-328 | is the lifetime cancellation followed by the shutdown step; nothing stays loaded, and the enabled-set and its file stay as they were |
| `SupervisorCode.NewestFirst` | crates/penguin-daemon/src/supervisor.rs:318-323 | every loaded name once, by descending load number |
| `SupervisorCode.Supervisor.List` | crates/penguin-daemon/src/supervisor.rs:341-359 | exactly one row for every registered or loaded name, with the state of its entry or disabled, and external exactly if it is not registered |
| `SupervisorCode.Supervisor.ReportFailure` | crates/penguin-daemon/src/supervisor.rs:497-550 | is the report step: cancels the loop, counts from what the failure carries over, and parks the module or makes a restart due after the backoff of that count |
| `SupervisorCode.Supervisor.Instantiate` | crates/penguin-daemon/src/supervisor.rs:597-611 | the registry decides first, then the external loader; each failure surfaces as its own error, and a process that could not be dispensed is recorded as torn down |
| `SupervisorCode.Supervisor.StopLocked` | crates/penguin-daemon/src/supervisor.rs:616-634 | is the stop section: cancel, announce, stop the instance, announce, remove |
| `SupervisorCode.Supervisor.PerformScheduledRestart` | crates/penguin-daemon/src/supervisor.rs:644-721 | is one restart step; success stores a new instance running since now with budget and load number kept, and any failure leaves the entry as it was and a report pending |
| `SupervisorCode.Supervisor.ReportFailedRestart` | crates/penguin-daemon/src/supervisor.rs:663-701 | the error a failed restart raises and the report it makes after releasing the lock are one step of its own |
| `SupervisorCode.Supervisor.PollHealthOnce` | crates/penguin-daemon/src/supervisor.rs:730-753 | one probe with its transition; the loop goes back to sleep, or ends if and only if its token is cancelled by then |
| `SupervisorEffects.ProbeObserves` | crates/penguin-daemon/src/supervisor.rs:746-786 | a healthy probe makes a degraded module running and leaves any other state, an impaired one makes it degraded, nothing else of the entries changes, and the event stream grows exactly when the state changes |
| `SupervisorCode.Supervisor.MarkDegraded` | crates/penguin-daemon/src/supervisor.rs:758-770 | sets and announces the state unless it already is degraded or the name is not loaded |
| `SupervisorCode.Supervisor.RestoreRunningIfDegraded` | crates/penguin-daemon/src/supervisor.rs:774-786 | sets and announces running only from degraded |
| `SupervisorInvariants.RunInv` | crates/penguin-daemon/src/supervisor.rs:197-786 | after every run: entries have distinct tokens and load numbers, live loops watch the stored instance, every un-stopped instance is the stored one, plugin processes are accounted for |
| `SupervisorTasks.StepLocal` | crates/penguin-daemon/src/supervisor.rs:197-786 | every step but shutdown leaves the entry, token and tasks of every other module untouched |
| `SupervisorTasks.TasksConserved` | crates/penguin-daemon/src/supervisor.rs:489-786 | in every run, the tasks alive for a name never outnumber the loads that started it |
| `SupervisorTasks.OneLivePoll` | crates/penguin-daemon/src/supervisor.rs:616-743 | in every run, at most one health loop per name has an uncancelled token, the one the loaded entry holds |
| `SupervisorTasks.NothingLeaks` | crates/penguin-daemon/src/supervisor.rs:616-800 | in every run, an instance is the stored one for its name or has been stopped, no name has two un-stopped ones, and a plugin process is torn down at most once, and exactly once when its instance is not stored |
| `SupervisorSituations.OneSituation` | crates/penguin-daemon/src/supervisor.rs:489-786 | in quiescent runs before shutdown, a loaded module is in exactly one situation: one live loop on a never-stopped instance, degraded with one restart under way, or failed with no task |
| `SupervisorSituations.FailedLeftOnlyByUnload` | crates/penguin-daemon/src/supervisor.rs:489-528 | in such runs a failed module stays as it is, without tasks, until it is unloaded |
| `SupervisorLeftovers.OldTasksActIffLeft` | crates/penguin-daemon/src/supervisor.rs:197-252 | tasks older than a start can change the entry of the module it starts if and only if some task of an earlier load of that name is left, which is also when the start takes it out of the three situations |
| `SupervisorFailed.FailedLeftIffTasks` | crates/penguin-daemon/src/supervisor.rs:489-770 | in every reachable state, quiescent or not, a failed module can get out of that state without an unload or a shutdown if and only if some task for its name is left |
| `SupervisorReload.FailedLeftWithoutUnload` | crates/penguin-daemon/src/supervisor.rs:730-770 | a concrete run in which a loop left over from before an unload parks the next load, whose own last probe then takes it out of failed |
| `SupervisorBudget.BudgetIsScheduledRestarts` | crates/penguin-daemon/src/supervisor.rs:512-540 | in quiescent runs, the count is below the budget and equals the restarts scheduled since load or last reset; a failed module has counted the whole budget and had one restart fewer |
| `SupervisorBudget.ParkedIffFailuresSpent` | crates/penguin-daemon/src/supervisor.rs:489-540 | in quiescent runs, whether or not restarts succeed in between, the count equals the failures since load or since the last one that came a window or more after the last start in the run; it never exceeds the budget, and the module is failed if and only if it reaches it |
| `SupervisorTimes.StartStamps` | crates/penguin-daemon/src/supervisor.rs:238-252 | a load stores the time it starts the module at |
| `SupervisorTimes.StartedAtLastStart` | crates/penguin-daemon/src/supervisor.rs:238-252 | in every run, the start time of a loaded module is the time of the load or restart in the run that last started it |
| `SupervisorTimes.RestartDue` | crates/penguin-daemon/src/supervisor.rs:537-550 | a failure that schedules a restart makes it due after the delay drawn for the attempts it carries over |
| `SupervisorTimes.RestartsWait` | crates/penguin-daemon/src/supervisor.rs:537-550 | in every run, a restart happens no earlier than a failure of its module in the run plus the delay that failure drew, which is at least 0.95 times the schedule |
| `SupervisorBudget.FailureCounts` | crates/penguin-daemon/src/supervisor.rs:497-550 | a failure adds one to what it carries over, parks exactly when that reaches the budget, schedules a restart exactly otherwise, and moves neither start time nor load number |
| `SupervisorBudget.OthersKeepBudget` | crates/penguin-daemon/src/supervisor.rs:644-786 | no other step changes the count or the load number; only a successful restart moves the start time; none parks |
| `SupervisorParking.ParkedExactlyWhen` | crates/penguin-daemon/src/supervisor.rs:512-528 | a module whose restarts all fail is parked if and only if the failure that uses up the budget comes within the stability window of its last start, or the budget is one |
| `SupervisorParking.NeverParkedAfterWindow` | crates/penguin-daemon/src/supervisor.rs:512-516 | if its first failure comes after the window, it is never parked however often it fails, and its count stays at one |
| `SupervisorRetry.NotParked` | crates/penguin-daemon/src/supervisor.rs:644-701 | a concrete run with as many failures in a row as the budget allows that ends with another restart scheduled |
| `SupervisorParking.BackoffBounded` | crates/penguin-daemon/src/supervisor.rs:537-550 | the waits of a failing module, from a fresh budget, are at most 1.05 times the schedule of as many attempts, and every failure but a parking one scheduled a restart |
| `SupervisorParking.ParkedBackoff` | crates/penguin-daemon/src/supervisor.rs:512-550 | a module parked from a fresh budget had exactly one restart fewer than the budget, with escalating delays; it waited at most 1.05 times their schedule, and at most 1.575 s under the default budget |
| `SupervisorParking.ParksInTime` | crates/penguin-daemon/src/supervisor.rs:512-550 | if the time not spent in backoff plus 1.05 times the schedule stays under the window, the module is parked by the failure that uses up its budget |
| `SupervisorEvents.EventsMatchList` | crates/penguin-daemon/src/supervisor.rs:341-359 | in every run, replaying a name's state events gives what `list` reports, except between the announcement of a failing restart and its report |
| `SupervisorReplay.DisagreeIffMidRestart` | crates/penguin-daemon/src/supervisor.rs:641-701 | in quiescent runs before shutdown, the two disagree if and only if the name is loaded and a restart of it has announced itself, failed and not reported yet |
| `SupervisorShutdown.StepNames` | crates/penguin-daemon/src/supervisor.rs:238-281 | only loads that start a module and unloads change which names are loaded, and load numbers are kept across restarts |
| `SupervisorShutdown.ShutdownIsLifo` | crates/penguin-daemon/src/supervisor.rs:314-328 | after every run, shutdown stops each loaded instance once and announces the stops in exact reverse order of successful load; nothing stays loaded |
| `SupervisorShutdown.NothingComesBack` | crates/penguin-daemon/src/supervisor.rs:644-651 | after that, no probe, report or restart puts a name back into the map |
| `SupervisorEnabled.EnabledChanges` | crates/penguin-daemon/src/supervisor.rs:254-298 | the enabled-set grows only by a load that starts a module and shrinks only by the unload of a loaded one; otherwise only a boot replaces it, by what it read; shutdown never touches it |
| `SupervisorEnabled.CoveredIffSafeBoot` | crates/penguin-daemon/src/supervisor.rs:286-298 | a step keeps every loaded name enabled if and only if it is not the adoption of names, read earlier, that lack one loaded by now |
| `SupervisorEnabled.RacingLoadDropped` | crates/penguin-daemon/src/supervisor.rs:286-298 | a saved load between the read and the adoption is dropped from the enabled-set, although the file covers what is loaded at both moments |
| `SupervisorEnabled.RacingUnloadUndone` | crates/penguin-daemon/src/supervisor.rs:262-298 | a saved unload between them is undone: the name is enabled again, and the boot loads it |
| `SupervisorEnabled.AdoptionSafeIff` | crates/penguin-daemon/src/supervisor.rs:286-298 | from a read that covers what is loaded, the adoption keeps every loaded name enabled if no load in between starts a name that was not read, and only then unless something is unloaded in between |
| `SupervisorEnabled.LoadedAreEnabled` | crates/penguin-daemon/src/supervisor.rs:254-298 | in every run that boots that way, loaded names are enabled |
| `SupervisorEnabled.FileIsCurrent` | crates/penguin-daemon/src/supervisor.rs:254-281 | in a daemon life whose saves succeed, the file always holds the enabled-set, which covers what is loaded |
| `SupervisorEnabled.RestartBringsBack` | crates/penguin-daemon/src/supervisor.rs:283-328 | with saves succeeding, a fresh daemon whose loads succeed ends up with exactly the old enabled-set, which includes everything loaded at shutdown |
| `External.ExternalModule.Stop` | crates/penguin-daemon/src/external.rs:148-160 | the first stop shuts the process down, even if the wire-level stop failed; any later one does nothing, and the supervisor's record of the instance stays true |
| `External.ExternalModule.StopRepeatedly` | crates/penguin-daemon/src/external.rs:148-160 | over any stops, however they turn out, the process is shut down exactly once, and only the first stop can fail |
| `External.LoadPlugin` | crates/penguin-daemon/src/external.rs:291-327 | a launched process is handed over running to the module returned, or was shut down once by the loader; the result is the one the supervisor's outcome stands for |
| `External.AttemptsRecorded` | crates/penguin-daemon/src/external.rs:291-327 | what the supervisor records of an attempt, by a load or by a restart, agrees with what the attempt did to the process |
| `PersistedState.PersistedState.Save` | crates/penguin-daemon/src/state.rs:70-95 | succeeds if and only if every file operation does; dying after any of them leaves a directory that loads as before or as after and no other file changed; an error leaves the file as it was, and the whole directory if and only if no temporary file was created or a failed chmod or write was cleaned up |
| `PersistedState.FailedRenameLeavesFile` | crates/penguin-daemon/src/state.rs:93-95 | a save whose rename fails, with its temporary file left behind |
| `PersistedState.PersistedState.Load` | crates/penguin-daemon/src/state.rs:47-61 | missing and empty files are an empty set; unreadable and malformed ones are told apart |
| `PersistedState.PersistedState.Add` | crates/penguin-daemon/src/state.rs:99-101 | adds the name and says whether it is new |
| `PersistedState.PersistedState.Remove` | crates/penguin-daemon/src/state.rs:104-106 | removes the name and says whether it was there |
| `PersistedState.CreateTempFile` | crates/penguin-daemon/src/state.rs:151-171 | succeeds if and only if some attempt finds its name free after all earlier ones found theirs taken and none hit another error; creates a file that did not exist and is not `enabled.json`, or changes nothing |
| `PersistedState.TempNames` | crates/penguin-daemon/src/state.rs:149-177 | temporary names are the prefix and the random draw in lower-case hexadecimal, different for different draws |
| `PersistedState.WriteAll` | crates/penguin-daemon/src/state.rs:86-90 | succeeds if and only if no write fails or takes nothing before all data is taken, and then all of it is there; touches the temporary file only |
| `Backoff.UnjitteredDelay` | crates/penguin-daemon/src/backoff.rs:49-63 | without jitter the delay is 100 ms doubled per attempt, capped at 30 s |
| `Backoff.BaseBounds` | crates/penguin-daemon/src/backoff.rs:18-31 | the schedule starts at 100 ms, doubles with each attempt up to 30 s, and reaches that exactly from attempt 9 on |
| `Backoff.JitterBounds` | crates/penguin-daemon/src/backoff.rs:49-63 | jitter scales the capped delay by 0.95 plus the fraction, rounded down, so by at most 5% either way |
| `Backoff.DelayForRandom` | crates/penguin-daemon/src/backoff.rs:69-72 | the production delay stays within those bounds |
| `Backoff.TotalBound` | crates/penguin-daemon/src/backoff.rs:49-72 | successive delays add up to at most 1.05 times the schedule |
| `Backoff.DefaultTotal` | crates/penguin-daemon/src/backoff.rs:18-31 | four escalating delays, as a module parked under the default budget has had (`ParkedBackoff`), add up to at most 1.575 s |
| `Calendar.CivilCounts` | crates/penguin-cli-core/src/timestamp.rs:35-47 | for every integer the closed form gives a valid date, and counting days by leap years and month lengths gives the integer back |
| `Calendar.CivilInvertsCounting` | crates/penguin-cli-core/src/timestamp.rs:35-47 | and for every valid date, the closed form of its day number is that date |
| `Calendar.CivilSteps` | crates/penguin-cli-core/src/timestamp.rs:35-47 | the next integer has the calendar's next day |
| `Calendar.CivilIsStepping` | crates/penguin-cli-core/src/timestamp.rs:28-47 | the closed form is day-by-day stepping from 1970-01-01, in both directions |
| `Timestamp.FormatRoundTrips` | crates/penguin-cli-core/src/timestamp.rs:17-26 | every 64-bit nanosecond count formats to 19 characters that read back as its second, rounded down |
| `Timestamp.FormatLayout` | crates/penguin-cli-core/src/timestamp.rs:14-26 | the text has the form `YYYY-MM-DD HH:MM:SS`, and its fields are a calendar date and a clock time that count to the second |
| `Timestamp.FormatOrders` | crates/penguin-cli-core/src/timestamp.rs:17-26 | string order is time order, with equality exactly within one second |
| `LogRing.RingsHoldNewest` | crates/penguin-daemon/src/logring.rs:79-88 | after any appends over any sources, a ring holds exactly the newest lines of its own source's history |
| `LogRing.Ring.RingsAreThose` | crates/penguin-daemon/src/logring.rs:79-88 | the rings that are updated in place are those of `RingsHoldNewest` |
| `LogRing.Ring.Append` | crates/penguin-daemon/src/logring.rs:79-88 | extends the history of its source, and of no other, and keeps the ring and the live tail true to it |
| `LogRing.Ring.Backlog` | crates/penguin-daemon/src/logring.rs:95-107 | the newest lines asked for that are still held, oldest first |
| `LogRing.Ring.Subscribe` | crates/penguin-daemon/src/logring.rs:112-116 | a receiver at the end of the history, which stays as it is |
| `Streams.OpenTail` | crates/penguin-daemon/src/service.rs:341-352 | subscribes before it takes the snapshot, so that lines racing it are within reach of both; the snapshot is the newest lines asked for that are held |
| `Streams.ForwardTurn` | crates/penguin-daemon/src/service.rs:638-659 | sends the next line whenever one is due; ends if and only if a send finds the client gone, the receiver lagged, or a tail that does not follow is through |
| `Streams.TailLogs` | crates/penguin-daemon/src/service.rs:334-361 | under every schedule of appends to any sources, the stream is a prefix of the snapshot, or the snapshot and then a gap-free run of the history from the subscription on; it ends only for a reason, and once the forwarder has had a turn per line since the last append it has sent everything |
| `Streams.TailByIndex` | crates/penguin-daemon/src/service.rs:638-659 | which history indices such a stream has sent |
| `Streams.TwiceIffRacing` | crates/penguin-daemon/src/service.rs:341-350 | a line is sent twice if and only if it was appended between subscription and snapshot, fits the snapshot and has been forwarded |
| `Streams.WatchEvents` | crates/penguin-daemon/src/service.rs:615-631 | for every ring size and schedule, the stream is a gap-free prefix of the matching events since subscription; it ends only by overrun or by the client leaving, and once the forwarder has had a turn per event since the last publication it has sent all of them |
| `Streams.WatchNext` | crates/penguin-daemon/src/service.rs:615-631 | a turn of an open watch takes the next event if there is one; it ends as overrun if and only if the ring has dropped that event, and as disconnected if and only if the event matches and the client is gone |
| `Streams.MatchingIs` | crates/penguin-daemon/src/service.rs:620-630 | an empty filter lets every event through, any other one exactly those of that module |
| `Streams.MatchingConcat` | crates/penguin-daemon/src/service.rs:620-630 | and in the order they were published |
| `Streams.EventBroker.Publish` | crates/penguin-daemon/src/broker.rs:51-53 | appends to what every later reader sees |
| `Streams.EventBroker.Subscribe` | crates/penguin-daemon/src/broker.rs:57-59 | a reader of future events only |
| `PluginBroker.OneClaim` | crates/penguin-goplugin-host/src/broker.rs:167-174 | in every interleaving at most one dial per id claims the slot |
| `PluginBroker.RefusedIffDialled` | crates/penguin-goplugin-host/src/broker.rs:167-174 | after every run, a new dial is refused if and only if that id was dialled before, and otherwise claims the slot and waits |
| `PluginBroker.ReceivesFirst` | crates/penguin-goplugin-host/src/broker.rs:167-192 | what a dial receives is the first announcement that reached its id, whichever came first |
| `PluginBroker.WaitingGetsFirst` | crates/penguin-goplugin-host/src/broker.rs:176-187 | a waiting dial can receive exactly when an announcement has reached its id, and can time out exactly when none has |
| `PluginBroker.NeverBlocks` | crates/penguin-goplugin-host/src/broker.rs:199-224 | after any run, whatever its slot looks like, the announcement in hand can be handed on and the next one taken and delivered, which changes no dial and no other slot |
| `PluginBroker.Broker.DispatchInbound` | crates/penguin-goplugin-host/src/broker.rs:199-224 | one round of the loop is an arrival and a delivery of the machine |
| `PluginBroker.Broker.Claim` | crates/penguin-goplugin-host/src/broker.rs:167-174 | the first half of a dial is one step; it claims or is refused |
| `PluginBroker.Broker.Await` | crates/penguin-goplugin-host/src/broker.rs:176-187 | the second half is one step: receive what is there, or time out |
| `Base64.DecodeEncode` | crates/penguin-goplugin-host/src/handshake.rs:137-144 | decoding inverts encoding |
| `Base64.EncodeDecode` | crates/penguin-goplugin-host/src/handshake.rs:137-144 | an accepted text is the only encoding of its bytes |
| `Base64.OnlyAlphabetDecodes` | crates/penguin-goplugin-host/src/handshake.rs:137-144 | padded or otherwise foreign text is rejected |
| `Base64.Ranks` | crates/penguin-goplugin-host/src/handshake.rs:137-144 | the symbols have the ranks of the standard alphabet, and no other character has one |
| `Base64.GroupsAreNumbers` | crates/penguin-goplugin-host/src/handshake.rs:137-144 | every four symbols, read in base 64, are the number their three bytes are in base 256 |
| `Base64.LastGroupIsNumber` | crates/penguin-goplugin-host/src/handshake.rs:137-144 | and a last group of two or three symbols is its bytes followed by zero bits |
| `Handshake.RoundTrip` | crates/penguin-goplugin-host/src/handshake.rs:89-135 | printing and parsing gives a handshake back if and only if no field holds a bar and its certificate, if any, has at least 38 bytes |
| `Handshake.ExtraFieldsIgnored` | crates/penguin-goplugin-host/src/handshake.rs:114-134 | fields after the sixth change nothing, errors included |
| `Handshake.CertField` | crates/penguin-goplugin-host/src/handshake.rs:121-126 | an encoded certificate clears the length threshold exactly from 38 bytes on |
| `Handshake.AcceptedLines` | crates/penguin-goplugin-host/src/handshake.rs:89-135 | what an accepted line must look like, field by field |
| `Handshake.RejectedLines` | crates/penguin-goplugin-host/src/handshake.rs:89-135 | which error a rejected line gives: that of the first check that fails |
| `Handshake.NumeralParses` | crates/penguin-goplugin-host/src/handshake.rs:95-104 | a numeral, with or without a plus sign, parses to its number if that fits 32 bits |
| `Handshake.OthersDoNot` | crates/penguin-goplugin-host/src/handshake.rs:95-104 | nothing with another character, and no sign alone, parses |
| `Handshake.JoinSplit` | crates/penguin-goplugin-host/src/handshake.rs:90 | the fields of a line are all of it |

## Left out

- gRPC plumbing, status codes and protobuf copies of the daemon service: thin translations.
- Launching plugin processes, mutual TLS and stdio draining: process accounting starts at a successful launch.
- `status`, `health`, `commands`, `dispatch`, session proxying and bridge actions: they look a module up and delegate.
- Dropping a request midway: every asynchronous method is taken to complete once it has begun.
- Interleaving inside a lock section: a section, with the module calls it awaits, is one instant. The error event of a failed restart, published just after the lock is released, is part of the report step.
- Scheduler fairness: the run properties are about safety, not that something eventually happens.
- 32-bit and 64-bit overflow of the restart count, load numbers, tokens and ids: all are unbounded here.
- Overflow of `civil_from_days` within 719468 of the largest 64-bit day count: no nanosecond timestamp reaches it.
- Rounding of 64-bit floats in the backoff: it is computed over real numbers, with the truncating final cast.
- The JSON codec of the enabled-set: any encoder with a matching decoder is a parameter.
- Order of iteration over sets and maps, and of the rows of `list`: the model takes any order.
- Permission bits, and the creation of missing parent directories beyond whether it succeeds.
- The power-of-two rounding of a broadcast ring's size: the size is a parameter.
- Announcing a listener to a plugin, serving it, and connecting to an announced address: the broker model ends where the address is received or the wait ends.
- Message texts of errors and events: only their kind is kept.
- Configuration, licensing, updates, peer authorization, plugin verification, command line, tray and desktop: not part of this model.
