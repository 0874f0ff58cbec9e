/**
 * The handshake and lifecycle of a command-running Fit client as a
 * sequential state machine.  Each concurrent actor of the client (the
 * socket acceptor, the timeout watchdog, the early-termination watchdog,
 * the engine process or in-process thread, and the caller of start, join
 * and kill) contributes atomic events; a watchdog's check-then-act under
 * the client's monitor is one event, and the return of a watchdog's sleep
 * or wait is an event of its own.  Threads, sleeping and the polling wait
 * of start are not modelled.
 */
module FitHandshake {
  import opened Wrappers
  import FitLaunch

  /** One watchdog thread of the out-of-process strategy. */
  datatype Watchdog =
    | NotCreated    // the thread field is still null
    | Watching      // started; asleep or waiting, it has not acted yet
    | Woken         // its sleep or wait has returned: an interrupt can no longer stop its check
    | Interrupted   // interrupted before acting: its sleep or wait will throw and it reports nothing
    | Finished      // its run method has returned

  /** The engine process behind a CommandRunner. */
  datatype ProcessStatus = NotLaunched | Running | Exited | Killed

  datatype Runner = Runner(commandLine: string, status: ProcessStatus)

  /** The thread that runs the in-process entry point, with the arguments it was given. */
  datatype EntryPointThread = Alive(arguments: seq<string>) | Returned(arguments: seq<string>)

  /** The state of the two command running strategies, their nullable fields as options. */
  datatype Strategy =
    | OutOfProcess(command: string, commandRunner: Option<Runner>,
                   timeoutThread: Watchdog, earlyTerminationThread: Watchdog)
    | InProcess(testRunner: string, fastFitServer: Option<EntryPointThread>, mockRunnerCreated: bool)

  /** The socket service: null before start, then listening on the port it was given, then closed. */
  datatype Server = Unbound | Listening(port: int) | Closed(port: int)

  /** What is passed to the client's exceptionOccurred. */
  datatype Report = SocketNotReceivedOnTime | TerminatedBeforeConnection | StartFailed

  /** The calls start, join and kill make on the strategy, the base client and the server. */
  datatype Call = StrategyStart | StrategyJoin | StrategyKill | SuperJoin | SuperKill | ServerClose | CloseFailureLogged

  datatype Fault =
    | NullReference  // a method reached a field that start never set
    | LaunchFailed   // the process could not be started, or the entry point was not found
    | AcceptFailed   // the base client's acceptSocket threw

  datatype Outcome = Completed | Thrown(fault: Fault)

  datatype Client = Client(
    ticketNumber: int,
    connectionEstablished: bool,
    server: Server,
    strategy: Strategy,
    reports: seq<Report>,
    calls: seq<Call>)

  datatype Event =
    | Start(host: string, port: int, launchSucceeds: bool)  // the caller's start
    | Accept(superSucceeds: bool)                          // the acceptor hands over a connection
    | TimeoutWakes                                         // the timeout watchdog's sleep returns
    | TimeoutFires(successfullyStarted: bool)              // the timeout watchdog checks, or its interrupt lands
    | ProcessExits                                         // the engine process ends by itself
    | EarlyTerminationWakes                                // the early-termination watchdog's wait for the process returns
    | EarlyTerminationFires                                // the early-termination watchdog checks, or its interrupt lands
    | EntryPointReturns                                    // the in-process entry point returns
    | Kill(earlyTerminationWakesFirst: bool)               // the caller's kill; see KillStrategy
    | Join(closeSucceeds: bool)                            // the caller's join

  datatype StrategyTransition = StrategyTransition(strategy: Strategy, outcome: Outcome)
  datatype Transition = Transition(client: Client, outcome: Outcome)

  function NewOutOfProcess(command: string): Strategy {
    OutOfProcess(command, None, NotCreated, NotCreated)
  }

  function NewInProcess(testRunner: string): Strategy {
    InProcess(testRunner, None, false)
  }

  /** A strategy that start has not touched yet. */
  predicate Pristine(st: Strategy) {
    match st
    case OutOfProcess(command, _, _, _) => st == NewOutOfProcess(command)
    case InProcess(testRunner, _, _) => st == NewInProcess(testRunner)
  }

  /** The constructor: the fixed ticket, no connection, no server yet. */
  function NewClient(st: Strategy): (c: Client)
    ensures c.strategy == st && c.ticketNumber == 3863
    ensures !c.connectionEstablished && c.server == Unbound
    ensures c.reports == [] && c.calls == []
  {
    Client(FitLaunch.GenerateTicketNumber(), false, Unbound, st, [], [])
  }

  /**
   * Thread.interrupt on a watchdog that exists; a null field is skipped.  Only
   * a watchdog still asleep or waiting is stopped: once woken, it goes on.
   */
  function Interrupt(w: Watchdog): Watchdog {
    if w == Watching then Interrupted else w
  }

  /** killVigilantThreads: interrupts each watchdog that was created, and only those. */
  function KillVigilantThreads(st: Strategy): (r: Strategy)
    requires st.OutOfProcess?
    ensures r.OutOfProcess? && r.command == st.command && r.commandRunner == st.commandRunner
    ensures (r.timeoutThread == NotCreated <==> st.timeoutThread == NotCreated)
         && (r.earlyTerminationThread == NotCreated <==> st.earlyTerminationThread == NotCreated)
    ensures r.timeoutThread != Watching && r.earlyTerminationThread != Watching
    ensures st.timeoutThread != Watching ==> r.timeoutThread == st.timeoutThread
    ensures st.earlyTerminationThread != Watching ==> r.earlyTerminationThread == st.earlyTerminationThread
  {
    st.(timeoutThread := Interrupt(st.timeoutThread),
        earlyTerminationThread := Interrupt(st.earlyTerminationThread))
  }

  /**
   * The strategy's start.  Out of process: build the command line, launch
   * it, then create both watchdogs.  In process: build the argument vector,
   * find the entry point, start its thread and create the stand-in runner.
   */
  function StartStrategy(st: Strategy, host: string, port: int, ticketNumber: int, launchSucceeds: bool): (t: StrategyTransition)
    ensures t.strategy.OutOfProcess? == st.OutOfProcess?
    ensures t.outcome == (if launchSucceeds then Completed else Thrown(LaunchFailed))
    ensures st.OutOfProcess? ==>
              && t.strategy.command == st.command
              && t.strategy.commandRunner.Some?
              && t.strategy.commandRunner.value.commandLine == FitLaunch.CommandLine(st.command, host, port, ticketNumber)
              && t.strategy.commandRunner.value.status == (if launchSucceeds then Running else NotLaunched)
              && (launchSucceeds ==> t.strategy.timeoutThread == Watching && t.strategy.earlyTerminationThread == Watching)
              && (!launchSucceeds ==> t.strategy.timeoutThread == st.timeoutThread
                                      && t.strategy.earlyTerminationThread == st.earlyTerminationThread)
    ensures st.InProcess? ==>
              && (launchSucceeds ==> t.strategy == st.(fastFitServer := Some(Alive(FitLaunch.InProcessArguments(host, port, ticketNumber))),
                                                      mockRunnerCreated := true))
              && (!launchSucceeds ==> t.strategy == st)
  {
    match st
    case OutOfProcess(command, _, _, _) =>
      var line := FitLaunch.CommandLine(command, host, port, ticketNumber);
      if launchSucceeds then
        StrategyTransition(st.(commandRunner := Some(Runner(line, Running)),
                               timeoutThread := Watching, earlyTerminationThread := Watching), Completed)
      else
        StrategyTransition(st.(commandRunner := Some(Runner(line, NotLaunched))), Thrown(LaunchFailed))
    case InProcess(_, _, _) =>
      if launchSucceeds then
        StrategyTransition(st.(fastFitServer := Some(Alive(FitLaunch.InProcessArguments(host, port, ticketNumber))),
                               mockRunnerCreated := true), Completed)
      else
        StrategyTransition(st, Thrown(LaunchFailed))
  }

  /** The strategy's join: wait for the process (then stop the watchdogs) or for the entry-point thread. */
  function JoinStrategy(st: Strategy): (t: StrategyTransition)
    ensures t.strategy.OutOfProcess? == st.OutOfProcess?
    ensures t.outcome.Thrown? <==> (if st.OutOfProcess? then st.commandRunner.None? else st.fastFitServer.None?)
    ensures t.outcome.Thrown? ==> t.outcome == Thrown(NullReference) && t.strategy == st
    ensures t.outcome == Completed && st.OutOfProcess? ==>
              && t.strategy.command == st.command
              && t.strategy.commandRunner.Some?
              && t.strategy.commandRunner.value.commandLine == st.commandRunner.value.commandLine
              && t.strategy.commandRunner.value.status != Running
              && t.strategy.timeoutThread != Watching && t.strategy.earlyTerminationThread != Watching
    ensures t.outcome == Completed && st.InProcess? ==>
              t.strategy == st.(fastFitServer := Some(Returned(st.fastFitServer.value.arguments)))
  {
    match st
    case OutOfProcess(_, runner, _, _) =>
      if runner.None? then StrategyTransition(st, Thrown(NullReference))
      else
        var ended := if runner.value.status == Running then runner.value.(status := Exited) else runner.value;
        StrategyTransition(KillVigilantThreads(st.(commandRunner := Some(ended))), Completed)
    case InProcess(_, thread, _) =>
      if thread.None? then StrategyTransition(st, Thrown(NullReference))
      else StrategyTransition(st.(fastFitServer := Some(Returned(thread.value.arguments))), Completed)
  }

  /**
   * The strategy's kill: kill the process, then stop the watchdogs; or kill
   * the stand-in, which does nothing.  Between the kill of a running process
   * and the interrupts, the early-termination watchdog's wait for that
   * process may return: earlyTerminationWakesFirst says whether it did, in
   * which case the interrupt no longer stops its check.
   */
  function KillStrategy(st: Strategy, earlyTerminationWakesFirst: bool): (t: StrategyTransition)
    ensures t.strategy.OutOfProcess? == st.OutOfProcess?
    ensures t.outcome.Thrown? <==> (if st.OutOfProcess? then st.commandRunner.None? else !st.mockRunnerCreated)
    ensures t.outcome.Thrown? ==> t.outcome == Thrown(NullReference) && t.strategy == st
    ensures t.outcome == Completed && st.OutOfProcess? ==>
              && t.strategy.command == st.command
              && t.strategy.commandRunner.Some?
              && t.strategy.commandRunner.value.commandLine == st.commandRunner.value.commandLine
              && t.strategy.commandRunner.value.status != Running
              && t.strategy.timeoutThread != Watching && t.strategy.earlyTerminationThread != Watching
              && (t.strategy.timeoutThread == Woken <==> st.timeoutThread == Woken)
              && (t.strategy.earlyTerminationThread == Woken
                  <==> (st.earlyTerminationThread == Woken
                        || (earlyTerminationWakesFirst && st.earlyTerminationThread == Watching
                            && st.commandRunner.value.status == Running)))
    ensures st.InProcess? ==> t.strategy == st
  {
    match st
    case OutOfProcess(_, runner, _, early) =>
      if runner.None? then StrategyTransition(st, Thrown(NullReference))
      else
        var running := runner.value.status == Running;
        var killed := if running then runner.value.(status := Killed) else runner.value;
        var woken := if running && earlyTerminationWakesFirst && early == Watching then Woken else early;
        StrategyTransition(KillVigilantThreads(st.(commandRunner := Some(killed), earlyTerminationThread := woken)), Completed)
    case InProcess(_, _, created) =>
      if !created then StrategyTransition(st, Thrown(NullReference)) else StrategyTransition(st, Completed)
  }

  /** A watchdog whose sleep or wait is over: returned normally, or thrown by an interrupt. */
  predicate ReadyToCheck(w: Watchdog) {
    w == Woken || w == Interrupted
  }

  predicate ProcessEnded(runner: Option<Runner>) {
    runner.Some? && (runner.value.status == Exited || runner.value.status == Killed)
  }

  /** When an event can happen at all. */
  predicate Enabled(c: Client, e: Event)
    ensures e.Kill? || e.Join? ==> Enabled(c, e)
    ensures Enabled(c, e) && e.Start? ==> c.server == Unbound
    ensures Enabled(c, e) && (e.TimeoutWakes? || e.TimeoutFires? || e.ProcessExits? || e.EarlyTerminationWakes? || e.EarlyTerminationFires?)
            ==> c.strategy.OutOfProcess?
    ensures Enabled(c, e) && e.EntryPointReturns? ==> c.strategy.InProcess?
  {
    match e
    case Start(_, _, _) => c.server == Unbound
    case Accept(_) => c.server.Listening?
    case TimeoutWakes => c.strategy.OutOfProcess? && c.strategy.timeoutThread == Watching
    case TimeoutFires(_) => c.strategy.OutOfProcess? && ReadyToCheck(c.strategy.timeoutThread)
    case ProcessExits =>
      c.strategy.OutOfProcess? && c.strategy.commandRunner.Some? && c.strategy.commandRunner.value.status == Running
    case EarlyTerminationWakes =>
      c.strategy.OutOfProcess? && c.strategy.earlyTerminationThread == Watching && ProcessEnded(c.strategy.commandRunner)
    case EarlyTerminationFires =>
      c.strategy.OutOfProcess? && ReadyToCheck(c.strategy.earlyTerminationThread)
    case EntryPointReturns =>
      c.strategy.InProcess? && c.strategy.fastFitServer.Some? && c.strategy.fastFitServer.value.Alive?
    case Kill(_) => true
    case Join(_) => true
  }

  /** closeServer, run in join's finally: a close error is logged; a null server throws. */
  function CloseServer(c: Client, pending: Outcome, closeSucceeds: bool): (t: Transition)
    ensures t.client.(server := c.server, calls := c.calls) == c
    ensures t.client.calls == c.calls + [ServerClose] + (if !closeSucceeds && c.server != Unbound then [CloseFailureLogged] else [])
    ensures t.outcome == if c.server == Unbound then Thrown(NullReference) else pending
    ensures t.client.server == if closeSucceeds && c.server.Listening? then Closed(c.server.port) else c.server
  {
    match c.server
    case Unbound => Transition(c.(calls := c.calls + [ServerClose]), Thrown(NullReference))
    case Listening(port) =>
      if closeSucceeds then Transition(c.(server := Closed(port), calls := c.calls + [ServerClose]), pending)
      else Transition(c.(calls := c.calls + [ServerClose, CloseFailureLogged]), pending)
    case Closed(port) =>
      if closeSucceeds then Transition(c.(calls := c.calls + [ServerClose]), pending)
      else Transition(c.(calls := c.calls + [ServerClose, CloseFailureLogged]), pending)
  }

  /** join: strategy join, base join, strategy kill; whatever happens, then close the server. */
  function JoinStep(c: Client, closeSucceeds: bool): (t: Transition)
    ensures t.client.ticketNumber == c.ticketNumber && t.client.connectionEstablished == c.connectionEstablished
    ensures t.client.reports == c.reports
    ensures t.client.strategy.OutOfProcess? == c.strategy.OutOfProcess?
    ensures t.client.server == if closeSucceeds && c.server.Listening? then Closed(c.server.port) else c.server
    ensures |t.client.calls| > |c.calls| && t.client.calls[..|c.calls|] == c.calls && t.client.calls[|c.calls|] == StrategyJoin
    ensures var n := |t.client.calls|;
            n >= |c.calls| + 2
            && (t.client.calls[n - 1] == ServerClose || (t.client.calls[n - 1] == CloseFailureLogged && t.client.calls[n - 2] == ServerClose))
  {
    var joined := JoinStrategy(c.strategy);
    if joined.outcome.Thrown? then
      CloseServer(c.(strategy := joined.strategy, calls := c.calls + [StrategyJoin]), joined.outcome, closeSucceeds)
    else
      var killed := KillStrategy(joined.strategy, false);
      CloseServer(c.(strategy := killed.strategy, calls := c.calls + [StrategyJoin, SuperJoin, StrategyKill]),
                  killed.outcome, closeSucceeds)
  }

  function Step(c: Client, e: Event): (t: Transition)
    requires Enabled(c, e)
    ensures t.client.ticketNumber == c.ticketNumber
    ensures t.client.strategy.OutOfProcess? == c.strategy.OutOfProcess?
    ensures |c.reports| <= |t.client.reports| <= |c.reports| + 1 && t.client.reports[..|c.reports|] == c.reports
    ensures |c.calls| <= |t.client.calls| && t.client.calls[..|c.calls|] == c.calls
    ensures t.client.connectionEstablished == (c.connectionEstablished || e == Accept(true))
  {
    match e
    case Start(host, port, launchSucceeds) =>
      var started := StartStrategy(c.strategy, host, port, c.ticketNumber, launchSucceeds);
      var reports := if started.outcome.Thrown? then c.reports + [StartFailed] else c.reports;
      Transition(c.(server := Listening(port), strategy := started.strategy,
                    reports := reports, calls := c.calls + [StrategyStart]), Completed)
    case Accept(superSucceeds) =>
      if superSucceeds then Transition(c.(connectionEstablished := true), Completed)
      else Transition(c, Thrown(AcceptFailed))
    case TimeoutWakes =>
      Transition(c.(strategy := c.strategy.(timeoutThread := Woken)), Completed)
    case TimeoutFires(successfullyStarted) =>
      var fails := c.strategy.timeoutThread == Woken && !successfullyStarted;
      Transition(c.(strategy := c.strategy.(timeoutThread := Finished),
                    reports := c.reports + if fails then [SocketNotReceivedOnTime] else []), Completed)
    case ProcessExits =>
      Transition(c.(strategy := c.strategy.(commandRunner := Some(c.strategy.commandRunner.value.(status := Exited)))),
                 Completed)
    case EarlyTerminationWakes =>
      Transition(c.(strategy := c.strategy.(earlyTerminationThread := Woken)), Completed)
    case EarlyTerminationFires =>
      var fails := c.strategy.earlyTerminationThread == Woken && !c.connectionEstablished;
      Transition(c.(strategy := c.strategy.(earlyTerminationThread := Finished),
                    reports := c.reports + if fails then [TerminatedBeforeConnection] else []), Completed)
    case EntryPointReturns =>
      Transition(c.(strategy := c.strategy.(fastFitServer := Some(Returned(c.strategy.fastFitServer.value.arguments)))),
                 Completed)
    case Kill(earlyTerminationWakesFirst) =>
      var killed := KillStrategy(c.strategy, earlyTerminationWakesFirst);
      Transition(c.(strategy := killed.strategy, calls := c.calls + [SuperKill, StrategyKill]), killed.outcome)
    case Join(closeSucceeds) =>
      JoinStep(c, closeSucceeds)
  }

  /** The client after a sequence of events, or None if some event could not happen. */
  function Run(c: Client, events: seq<Event>): Option<Client>
    decreases |events|
  {
    if events == [] then Some(c)
    else if !Enabled(c, events[0]) then None
    else Run(Step(c, events[0]).client, events[1..])
  }
}
