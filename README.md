# FitNesse test-system registry and Fit client handshake, in Dafny

This project models two sequential pieces of FitNesse's test-system layer and proves properties of them.

**The test-system registry.** `MultipleTestSystemFactory` is a mutable table from a test-system type name to a factory. A new registry holds the four built-in factories: remote and in-process Slim, and remote and in-process Fit. `registerTestSystemFactory` inserts or overwrites an entry under the name exactly as given. `create` lower-cases the descriptor's type, looks it up and delegates to that factory. Factories are opaque tags (`FactoryKind`). The selected factory's own `create` is the parameter `invoke`, because the builders it calls are not part of this model. This creates an asymmetry, which the model proves: a name registered with an upper-case letter is stored but can never be selected.

**The command-running Fit client.** `CommandRunningFitClient` starts the Fit engine and waits for it to connect back, in one of two ways:
- out of process: a separate process started with the command line `command host port ticket`, supervised by a timeout watchdog and an early-termination watchdog;
- in process: a thread running the engine's entry point with `["-x", host, port, ticket]`.

The client's threads are not modelled. Each actor's guarded check-then-act becomes one atomic event of a sequential state machine (`FitHandshake`). The actors are the acceptor, the two watchdogs, the process or entry-point thread, and the caller of start, join and kill.
- Each watchdog takes two events. First its sleep returns (line 173) or its wait for the process returns (line 199). Then it checks under the monitor (lines 174-180, 200-205). Once its sleep or wait has returned, an interrupt no longer stops it.
- The caller's `kill` is one event. The out-of-process kill ends the process (line 147) before it interrupts the watchdogs (line 148). The event's parameter `earlyTerminationWakesFirst` says whether the early-termination watchdog's wait returned in between. If it did, that watchdog can still report after `kill` has returned (`EarlyTerminationReportAfterKill`). The timeout watchdog's sleep does not depend on the process, so its return between lines 147 and 148 is the same as a `TimeoutWakes` event just before the call.
- The strategy's `start` is one event as well. A `kill` from another thread that lands inside it is not represented: see the first lines of "## Left out". Any other step of another thread inside `start`, `join` or `kill` is a step just before or just after that call.

The classes in `CommandRunningClient` keep the Java fields and update them in place. Each of their methods is specified by the state-machine step it performs. The properties are proved about the state machine and about runs (event sequences) of it (`FitHandshakeProperties`).

Files:
- `wrappers.dfy`: Option and Result.
- `text.dfy`: `String.toLowerCase`, `Integer.toString` with its inverse, and space-separated fields.
- `registry.dfy`: the registry.
- `fit_launch.dfy`: the ticket and the launch arguments.
- `fit_handshake.dfy`: the state machine.
- `fit_handshake_properties.dfy`: its invariants and properties.
- `command_running_client.dfy`: the classes.

## Behaviour of the code worth knowing

- Registration stores the name verbatim, and only the lookup key is lower-cased. A name registered with an upper-case letter can never be selected (`UpperCaseRegistrationIsUnreachable`).
- For an unknown type, `create` dereferences the null it gets from the map. The model returns `UnknownTestSystemType` with the lower-cased key.
- `kill` or `join` before `start` throws a `NullPointerException` on the unset command runner or entry-point thread. `join` also throws one from `closeServer` when the server was never created (`KillAndJoinBeforeStart`).
- `acceptSocket` sets `connectionEstablished` even after a timeout report (`LateAcceptAfterTimeout`).
- Both watchdogs can report in one run (`BothWatchdogsCanReport`).
- The timeout watchdog can report after `kill` has completed, when its sleep returned before the interrupt (`TimeoutReportAfterKill`).
- The early-termination watchdog can report after `kill` has completed, because the process dies before the watchdogs are interrupted (`EarlyTerminationReportAfterKill`).
- The timeout watchdog tests the base client's `isSuccessfullyStarted`, not `connectionEstablished`. The model takes that flag as a parameter of the event.

## Model

| member | source | states |
|---|---|---|
| Text.LowerChar | src/fitnesse/testrunner/MultipleTestSystemFactory.java:38 | the lower-cased character is never upper-case, a character changes exactly when it is an upper-case letter, and a capital becomes the letter 32 code points above it |
| Text.ToLower | src/fitnesse/testrunner/MultipleTestSystemFactory.java:38 | `toLowerCase` keeps the length and lower-cases each character in its place |
| Text.ToLowerIdempotent | src/fitnesse/testrunner/MultipleTestSystemFactory.java:38 | lower-casing an already lower-cased type changes nothing |
| Text.NotALowerCaseForm | src/fitnesse/testrunner/MultipleTestSystemFactory.java:34-38 | a string with an upper-case letter is the lower-case form of no string |
| Text.Decimal | src/fitnesse/testsystems/fit/CommandRunningFitClient.java:124 | the decimal form of an int is non-empty, has no space, and has a leading '-' exactly for negatives |
| Text.DecimalRoundTrip | src/fitnesse/testsystems/fit/CommandRunningFitClient.java:226 | parsing `Integer.toString(n)` gives back n |
| Text.DecimalInjective | src/fitnesse/testsystems/fit/CommandRunningFitClient.java:226 | different numbers have different decimal forms |
| Text.ParseDecimal | src/fitnesse/testsystems/fit/CommandRunningFitClient.java:226 | the inverse of `Integer.toString`: a digit string parses to a non-negative number, a negative result comes from a leading '-', and nothing with a space parses |
| Text.Split | src/fitnesse/testsystems/fit/CommandRunningFitClient.java:124-125 | the fields between single spaces, empty ones included, so that the concatenations can be stated field by field; there is always at least one field |
| Text.SplitAtSpace | src/fitnesse/testsystems/fit/CommandRunningFitClient.java:124-125 | joining two strings with a space joins their field lists |
| TestSystemRegistry.DefaultFactories | src/fitnesse/testrunner/MultipleTestSystemFactory.java:25-30 | the initial keys are exactly "slim", "slim^inprocess", "fit" and "fit^inprocess", each mapped to its own factory kind |
| TestSystemRegistry.Lookup | src/fitnesse/testrunner/MultipleTestSystemFactory.java:38 | a factory is found exactly when the lower-cased type is a key, and it is the entry under that key |
| TestSystemRegistry.LookupIgnoresCase | src/fitnesse/testrunner/MultipleTestSystemFactory.java:38 | a type and its lower-case form select the same factory |
| TestSystemRegistry.FitSpellings | src/fitnesse/testrunner/MultipleTestSystemFactory.java:38 | "FIT", "Fit" and "fit" select the same factory |
| TestSystemRegistry.DefaultLookup | src/fitnesse/testrunner/MultipleTestSystemFactory.java:25-38 | in a new registry each built-in kind is selected exactly by the spellings of its own name, and no custom factory is selected |
| TestSystemRegistry.RegisteredLowerCaseNameIsSelected | src/fitnesse/testrunner/MultipleTestSystemFactory.java:33-38 | after registering a name with no upper-case letter, every spelling of it selects the new factory (last registration wins) |
| TestSystemRegistry.UpperCaseRegistrationIsUnreachable | src/fitnesse/testrunner/MultipleTestSystemFactory.java:33-38 | a name with an upper-case letter is stored verbatim, yet registering it changes no lookup |
| TestSystemRegistry.Delegated | src/fitnesse/testrunner/MultipleTestSystemFactory.java:39-40 | create passes on exactly the test system the factory returned, or the factory's exception |
| TestSystemRegistry.MultipleTestSystemFactory.constructor | src/fitnesse/testrunner/MultipleTestSystemFactory.java:25-30 | after the four registrations the table is the default table |
| TestSystemRegistry.MultipleTestSystemFactory.RegisterTestSystemFactory | src/fitnesse/testrunner/MultipleTestSystemFactory.java:33-35 | the entry under the name becomes the new factory and every other entry is unchanged |
| TestSystemRegistry.MultipleTestSystemFactory.Create | src/fitnesse/testrunner/MultipleTestSystemFactory.java:37-41 | an unregistered lower-cased type fails with no factory invoked; otherwise the result is the selected factory's result; the table is only read |
| TestSystemRegistry.RegisterUpperCaseExample | src/fitnesse/testrunner/MultipleTestSystemFactory.java:25-38 | after registering a custom factory under "FIT", the type "FIT" still selects the built-in Fit factory |
| FitLaunch.GenerateTicketNumber | src/fitnesse/testsystems/fit/CommandRunningFitClient.java:36-38 | the ticket is 3863 (0xF17), written "3863" |
| FitLaunch.FitArguments | src/fitnesse/testsystems/fit/CommandRunningFitClient.java:124 | the fields of the arguments are the host's fields followed by the port and the ticket in decimal, whatever the host holds |
| FitLaunch.CommandLine | src/fitnesse/testsystems/fit/CommandRunningFitClient.java:123-125 | the fields of the command line are the command's fields, then the host's fields, then port and ticket |
| FitLaunch.InProcessArguments | src/fitnesse/testsystems/fit/CommandRunningFitClient.java:226 | the in-process vector has length 4: "-x", the host, then port and ticket that parse back to their values |
| FitLaunch.FitArgumentsFields | src/fitnesse/testsystems/fit/CommandRunningFitClient.java:124 | for a host without spaces, the fit arguments are exactly three fields: host, port, ticket |
| FitLaunch.CommandLineFields | src/fitnesse/testsystems/fit/CommandRunningFitClient.java:123-127 | for a host without spaces, the command line's fields are the command's fields followed by host, port and ticket |
| FitLaunch.CommandLineRoundTrip | src/fitnesse/testsystems/fit/CommandRunningFitClient.java:123-127 | host, port and ticket can be read back from the last three fields of the command line |
| FitLaunch.SameTripleInBothModes | src/fitnesse/testsystems/fit/CommandRunningFitClient.java:226 | the in-process vector is "-x" followed by the fields of the out-of-process arguments |
| FitHandshake.KillVigilantThreads | src/fitnesse/testsystems/fit/CommandRunningFitClient.java:156-161 | a watchdog that was never created stays uncreated; afterwards no watchdog is still waiting; a watchdog not waiting is untouched; the runner is untouched |
| FitHandshake.StartStrategy | src/fitnesse/testsystems/fit/CommandRunningFitClient.java:129-137 | out of process: the runner gets the command line with host, port and ticket, and on success the process runs and both watchdogs wait; a failed launch creates no watchdog. In process: on success the entry-point thread gets the four arguments and the stand-in runner exists; a failed lookup changes nothing. The kind of strategy is kept |
| FitHandshake.JoinStrategy | src/fitnesse/testsystems/fit/CommandRunningFitClient.java:139-143 | a null runner or thread throws and changes nothing; otherwise out of process the process has ended and no watchdog still waits, and in process the entry-point thread has returned with its arguments |
| FitHandshake.KillStrategy | src/fitnesse/testsystems/fit/CommandRunningFitClient.java:145-149 | a null runner or stand-in throws and changes nothing; otherwise out of process no process runs and no watchdog waits, the timeout watchdog is left woken exactly when it already was, and the early-termination watchdog exactly when it already was or when its wait returned between the kill of a running process and the interrupts; in process nothing changes |
| FitHandshake.Enabled | src/fitnesse/testsystems/fit/CommandRunningFitClient.java:40-97 | kill and join can be called at any time; start only on a client not yet started; watchdog and process events only out of process; the entry point only in process |
| FitHandshake.CloseServer | src/fitnesse/testsystems/fit/CommandRunningFitClient.java:86-92 | only the server and the call log change; close is always attempted; a failure is logged and the pending outcome kept; a null server throws |
| FitHandshake.JoinStep | src/fitnesse/testsystems/fit/CommandRunningFitClient.java:75-84 | join keeps the ticket, the flag and the reports, begins with the strategy's join and ends with the server's close, and closes a listening server when close succeeds |
| FitHandshake.Step | src/fitnesse/testsystems/fit/CommandRunningFitClient.java:40-97 | every event keeps the ticket and the kind of strategy, adds at most one report and only appends calls; the flag becomes true only by a successful acceptSocket |
| FitHandshakeProperties.Inv | src/fitnesse/testsystems/fit/CommandRunningFitClient.java:25-210 | a client built by the constructor: ticket 3863; before start a pristine strategy, no connection and no report; after start an out-of-process runner exists; watchdogs exist together and only after a launch; each report at most once and only from its actor |
| FitHandshake.NewClient | src/fitnesse/testsystems/fit/CommandRunningFitClient.java:30-38 | a new client holds the given strategy and the ticket 3863, with no connection, no server, and no reports or calls |
| FitHandshakeProperties.NewClientInv | src/fitnesse/testsystems/fit/CommandRunningFitClient.java:25-34 | a new client has the ticket 3863, no connection, and satisfies the client invariant |
| FitHandshakeProperties.StepPreservesInv | src/fitnesse/testsystems/fit/CommandRunningFitClient.java:40-97 | every event keeps the client invariant: reports are accounted for, watchdogs exist only after a launch |
| FitHandshakeProperties.RunPreservesInv | src/fitnesse/testsystems/fit/CommandRunningFitClient.java:40-97 | every run of events keeps the client invariant |
| FitHandshakeProperties.ConnectionFlagRule | src/fitnesse/testsystems/fit/CommandRunningFitClient.java:56-62 | after an event the flag is set exactly when it was set before or the event is a successful acceptSocket |
| FitHandshakeProperties.ConnectionStaysEstablished | src/fitnesse/testsystems/fit/CommandRunningFitClient.java:56-73 | once true, `connectionEstablished` stays true over any run |
| FitHandshakeProperties.ConnectionNeedsAccept | src/fitnesse/testsystems/fit/CommandRunningFitClient.java:27-62 | without a successful acceptSocket the flag stays false |
| FitHandshakeProperties.TimeoutSleepIsUnconditional | src/fitnesse/testsystems/fit/CommandRunningFitClient.java:173 | once started, the timeout watchdog's sleep can return whatever the process and the connection do, and its return only wakes the watchdog |
| FitHandshakeProperties.TimeoutGuard | src/fitnesse/testsystems/fit/CommandRunningFitClient.java:171-184 | the timeout watchdog reports "socket not received on time" exactly when its sleep returned before any interrupt and the client is not successfully started; it never touches the connection flag |
| FitHandshakeProperties.EarlyTerminationWaitsForProcess | src/fitnesse/testsystems/fit/CommandRunningFitClient.java:199 | the early-termination watchdog's wait returns only once the process has exited or been killed, and then only the watchdog changes |
| FitHandshakeProperties.EarlyTerminationGuard | src/fitnesse/testsystems/fit/CommandRunningFitClient.java:196-210 | the early-termination watchdog reports exactly when its wait returned before any interrupt and no connection is established |
| FitHandshakeProperties.NoEarlyTerminationAfterAccept | src/fitnesse/testsystems/fit/CommandRunningFitClient.java:196-210 | once connected, no later run adds an early-termination report |
| FitHandshakeProperties.ReportsAtMostOnce | src/fitnesse/testsystems/fit/CommandRunningFitClient.java:129-210 | from construction, each failure is reported at most once; an in-process client has no watchdog reports; a failed start excludes them |
| FitHandshakeProperties.RunKeepsMode | src/fitnesse/testsystems/fit/CommandRunningFitClient.java:26 | a client keeps its kind of strategy over any run |
| FitHandshakeProperties.InterruptsOnlyCreatedWatchdogs | src/fitnesse/testsystems/fit/CommandRunningFitClient.java:156-161 | killVigilantThreads leaves null watchdogs alone, interrupts the waiting ones, and does not stop a watchdog whose sleep or wait has returned |
| FitHandshakeProperties.KillAndJoinBeforeStart | src/fitnesse/testsystems/fit/CommandRunningFitClient.java:75-149 | before start, kill and join touch no watchdog and throw on the null runner; join still attempts to close the server |
| FitHandshakeProperties.KillAfterStart | src/fitnesse/testsystems/fit/CommandRunningFitClient.java:145-161 | after start, the out-of-process kill completes, stops a running process and leaves no watchdog waiting; the timeout watchdog is left woken exactly when its sleep returned before kill, the early-termination watchdog exactly when its wait returned first |
| FitHandshakeProperties.SilenceIsKept | src/fitnesse/testsystems/fit/CommandRunningFitClient.java:171-210 | after start, an event never revives an interrupted or finished watchdog and adds no report for it |
| FitHandshakeProperties.SilencedWatchdogsStaySilent | src/fitnesse/testsystems/fit/CommandRunningFitClient.java:171-210 | a watchdog interrupted or finished before its sleep or wait returned never reports again |
| FitHandshakeProperties.NoWatchdogReportAfterKill | src/fitnesse/testsystems/fit/CommandRunningFitClient.java:145-210 | after a kill that follows a completed start, no run adds a timeout report unless that watchdog's sleep had returned before kill, and none adds an early-termination report unless that watchdog's wait had returned before the interrupts |
| FitHandshakeProperties.InProcessKillStopsNothing | src/fitnesse/testsystems/fit/CommandRunningFitClient.java:243-246 | the in-process kill completes and leaves the entry-point thread as it was |
| FitHandshakeProperties.JoinCallOrder | src/fitnesse/testsystems/fit/CommandRunningFitClient.java:75-92 | join calls strategy join, super join and strategy kill in that order, or only strategy join if it threw; it then always closes the server and logs a close failure |
| FitHandshakeProperties.CloseFailureIsNotPropagated | src/fitnesse/testsystems/fit/CommandRunningFitClient.java:86-92 | a failing close changes neither join's outcome nor the strategy; a successful close leaves the server closed |
| FitHandshakeProperties.JoinAfterStart | src/fitnesse/testsystems/fit/CommandRunningFitClient.java:75-84 | after start, the out-of-process join completes with the full call order, the process has ended and no watchdog still waits |
| FitHandshakeProperties.StartLaunches | src/fitnesse/testsystems/fit/CommandRunningFitClient.java:40-49 | start binds the given port and launches with host, port and ticket 3863; a successful launch creates both watchdogs, a failed one creates none and reports the failure |
| FitHandshakeProperties.LateAcceptAfterTimeout | src/fitnesse/testsystems/fit/CommandRunningFitClient.java:56-62 | a connection accepted after the timeout watchdog reported still sets the connection flag |
| FitHandshakeProperties.BothWatchdogsCanReport | src/fitnesse/testsystems/fit/CommandRunningFitClient.java:171-210 | a process that exits unconnected can draw both the early-termination and the timeout report |
| FitHandshakeProperties.EarlyTerminationReportAfterKill | src/fitnesse/testsystems/fit/CommandRunningFitClient.java:145-149 | a kill that completes can still be followed by an early-termination report, when the watchdog's wait for the killed process returned before the interrupt |
| FitHandshakeProperties.TimeoutReportAfterKill | src/fitnesse/testsystems/fit/CommandRunningFitClient.java:145-183 | a kill that completes and kills the process can be followed by both watchdogs' reports, when the timeout watchdog's sleep returned before kill and the early-termination watchdog's wait before the interrupt |
| CommandRunningClient.OutOfProcessCommandRunner.constructor | src/fitnesse/testsystems/fit/CommandRunningFitClient.java:118-121 | a new strategy has no runner and no watchdogs |
| CommandRunningClient.OutOfProcessCommandRunner.MakeCommandRunner | src/fitnesse/testsystems/fit/CommandRunningFitClient.java:123-127 | the runner holds the command line "command host port ticket", not yet launched |
| CommandRunningClient.OutOfProcessCommandRunner.Start | src/fitnesse/testsystems/fit/CommandRunningFitClient.java:129-137 | starts the runner and both watchdogs; a failed launch leaves them uncreated |
| CommandRunningClient.OutOfProcessCommandRunner.KillVigilantThreads | src/fitnesse/testsystems/fit/CommandRunningFitClient.java:156-161 | interrupts each non-null watchdog |
| CommandRunningClient.OutOfProcessCommandRunner.Join | src/fitnesse/testsystems/fit/CommandRunningFitClient.java:139-143 | waits for the process, then interrupts the watchdogs; throws on a null runner |
| CommandRunningClient.OutOfProcessCommandRunner.Kill | src/fitnesse/testsystems/fit/CommandRunningFitClient.java:145-149 | kills the process, then interrupts the watchdogs, except the early-termination watchdog if its wait returned in between; throws on a null runner |
| CommandRunningClient.OutOfProcessCommandRunner.ProcessExits | src/fitnesse/testsystems/fit/CommandRunningFitClient.java:199 | a running process ends on its own |
| CommandRunningClient.OutOfProcessCommandRunner.TimeoutSleepReturns | src/fitnesse/testsystems/fit/CommandRunningFitClient.java:173 | a sleeping timeout thread becomes woken, and nothing else changes |
| CommandRunningClient.OutOfProcessCommandRunner.FinishTimeoutThread | src/fitnesse/testsystems/fit/CommandRunningFitClient.java:172-183 | the thread goes on to its check exactly when its sleep returned, not when an interrupt stopped it, and then finishes |
| CommandRunningClient.OutOfProcessCommandRunner.EarlyTerminationWaitReturns | src/fitnesse/testsystems/fit/CommandRunningFitClient.java:198-199 | after the process ended, the waiting thread is woken and can no longer be stopped by an interrupt |
| CommandRunningClient.OutOfProcessCommandRunner.FinishEarlyTerminationThread | src/fitnesse/testsystems/fit/CommandRunningFitClient.java:197-208 | the thread goes on to its check exactly when its wait returned, not when an interrupt stopped it, and then finishes |
| CommandRunningClient.InProcessCommandRunner.constructor | src/fitnesse/testsystems/fit/CommandRunningFitClient.java:220-222 | a new in-process strategy has no thread and no stand-in runner |
| CommandRunningClient.InProcessCommandRunner.Start | src/fitnesse/testsystems/fit/CommandRunningFitClient.java:224-232 | starts the entry-point thread with the four arguments and creates the stand-in runner; a missing entry point starts nothing |
| CommandRunningClient.InProcessCommandRunner.Join | src/fitnesse/testsystems/fit/CommandRunningFitClient.java:234-241 | waits for the entry-point thread; throws on a null thread |
| CommandRunningClient.InProcessCommandRunner.Kill | src/fitnesse/testsystems/fit/CommandRunningFitClient.java:243-246 | changes nothing; throws on a null stand-in runner |
| CommandRunningClient.InProcessCommandRunner.EntryPointReturns | src/fitnesse/testsystems/fit/CommandRunningFitClient.java:255-259 | the entry-point thread returns, keeping its arguments |
| CommandRunningClient.CommandRunningFitClient.constructor | src/fitnesse/testsystems/fit/CommandRunningFitClient.java:30-34 | a new client has ticket 3863, no connection, no server and the given strategy |
| CommandRunningClient.CommandRunningFitClient.IsConnectionEstablished | src/fitnesse/testsystems/fit/CommandRunningFitClient.java:71-73 | the answer is the connection flag of the client's state, which only a successful accept sets (`ConnectionFlagRule`) |
| CommandRunningClient.CommandRunningFitClient.ExceptionOccurred | src/fitnesse/testsystems/fit/CommandRunningFitClient.java:47 | the failure is appended to the reports |
| CommandRunningClient.CommandRunningFitClient.Start | src/fitnesse/testsystems/fit/CommandRunningFitClient.java:40-49 | performs the start step: bind, start the strategy with the ticket, report a start failure |
| CommandRunningClient.CommandRunningFitClient.AcceptSocket | src/fitnesse/testsystems/fit/CommandRunningFitClient.java:56-62 | performs the accept step: the flag becomes true unless the base client threw |
| CommandRunningClient.CommandRunningFitClient.TimeoutSleepReturns | src/fitnesse/testsystems/fit/CommandRunningFitClient.java:173 | performs the TimeoutWakes step of the state machine and keeps the client invariant |
| CommandRunningClient.CommandRunningFitClient.RunTimeoutWatchdog | src/fitnesse/testsystems/fit/CommandRunningFitClient.java:171-184 | performs the timeout step of the state machine |
| CommandRunningClient.CommandRunningFitClient.EarlyTerminationWaitReturns | src/fitnesse/testsystems/fit/CommandRunningFitClient.java:199 | performs the step in which the early-termination watchdog's wait returns |
| CommandRunningClient.CommandRunningFitClient.RunEarlyTerminationWatchdog | src/fitnesse/testsystems/fit/CommandRunningFitClient.java:200-208 | performs the early-termination check step of the state machine |
| CommandRunningClient.CommandRunningFitClient.ProcessExits | src/fitnesse/testsystems/fit/CommandRunningFitClient.java:199 | performs the process-exit step |
| CommandRunningClient.CommandRunningFitClient.EntryPointReturns | src/fitnesse/testsystems/fit/CommandRunningFitClient.java:255-259 | performs the entry-point-return step |
| CommandRunningClient.CommandRunningFitClient.JoinCommandRunningStrategy | src/fitnesse/testsystems/fit/CommandRunningFitClient.java:77 | dispatches join to the strategy's kind |
| CommandRunningClient.CommandRunningFitClient.KillCommandRunningStrategy | src/fitnesse/testsystems/fit/CommandRunningFitClient.java:80 | dispatches kill to the strategy's kind |
| CommandRunningClient.CommandRunningFitClient.Kill | src/fitnesse/testsystems/fit/CommandRunningFitClient.java:94-97 | performs the kill step: super kill, then strategy kill, with the early-termination watchdog's race as a parameter |
| CommandRunningClient.CommandRunningFitClient.CloseServer | src/fitnesse/testsystems/fit/CommandRunningFitClient.java:86-92 | closes the server, logs a close failure and keeps the pending outcome; a null server throws |
| CommandRunningClient.CommandRunningFitClient.Join | src/fitnesse/testsystems/fit/CommandRunningFitClient.java:75-84 | performs the join step: strategy join, super join, strategy kill, and the server close in all cases |
| CommandRunningClient.ConnectedRun | src/fitnesse/testsystems/fit/CommandRunningFitClient.java:40-84 | a client that connects, sees its process exit and is joined has reported nothing and has closed its server |

## Left out

- FitHandshakeProperties.NoWatchdogReportAfterKill: covers only a `kill` after the strategy's `start` has completed. The strategy's `start` is one atomic event, so a `kill` from another thread that runs after `asynchronousStart` (line 132) and before the watchdogs are created (lines 133-136) is not modelled. That `kill` ends the process and finds both watchdog fields null, and `start` then creates two watchdogs that can both report after `kill` has returned. The model cannot reach a killed runner together with a waiting watchdog.
- The in-process counterpart of that race is not modelled either: a `kill` between `fastFitServer.start()` (line 228) and the assignment of the stand-in runner (line 229) throws a `NullPointerException` while the entry point is already running.
- Threads, `Thread.sleep`, `interrupt`, `synchronized` and `notify` are not modelled. Each watchdog is woken once its sleep or wait returns, and an interrupt does not stop it after that. Its guarded check under the monitor is one atomic event.
- The `waitForConnection` polling loop (lines 64-69) is left out because it is timing-based. `CommandRunningClient.CommandRunningFitClient.Start` returns right after the strategy starts. The events that follow stand for what happens during the wait.
- `CommandRunningClient.CommandRunningFitClient.Start` requires a client that was never started. Calling `start` a second time would leave earlier threads running beyond the model's reach.
- The base class `FitClient` is not part of this model. Its `acceptSocket`, `join` and `kill` are recorded as calls, or as a `superSucceeds` flag. `isSuccessfullyStarted` is a parameter of the timeout event. `exceptionOccurred` is recorded as a report.
- `SocketService` and `SocketCatcher` (port binding, accepting, ticket validation) are network I/O and are not modelled. The port is a parameter, and an `Accept` event is a connection the socket catcher handed over. A failure to bind is not modelled.
- `getLocalhostName` is a DNS lookup. The host is a parameter, and the lookup's `RuntimeException` is not modelled.
- `CommandRunner` and `MockCommandRunner` are not modelled as processes. The process is a status (not launched, running, exited, killed). What `join` or `kill` do to a runner that was never launched is not modelled; the status is left unchanged. The out-of-process strategy's environment variables are not modelled.
- Reflection in `getTestRunnerMethod` and `tryCreateTestRunner` is a foreign runtime lookup. Whether the entry point is found is a parameter. The entry point's own exceptions, which the code swallows, make no difference to the model.
- The `InterruptedException` that the in-process `join` catches is not modelled.
- `getExecutionLog` and `getCommandRunner` are left out. They only hand out the unmodelled runner.
- The four nested factory classes are tags. The builders and test systems they construct are collaborators outside this model. A factory's `create` is the parameter `invoke`.
- Logging and the durations (60000 ms timeout, 1000 ms debounce, 100 ms poll) are not modelled. Wall-clock time is not modelled.
- Text.ToLower: lower-cases only Basic Latin and Latin-1 capitals. Other scripts and locale-specific rules of Java's `toLowerCase` (such as Turkish dotted I) are not modelled.
- Text.Decimal: ints are unbounded. The 32-bit range of Java's `int` is not modelled because ports and the ticket are far inside it.
