/**
 * The command-running Fit client and its two command running strategies
 * as objects whose fields change in place.  Every method is specified by
 * the step of the handshake state machine it performs: afterwards the
 * object's abstract state is that step applied to the state before.
 */
module CommandRunningClient {
  import opened Wrappers
  import FitLaunch
  import opened FitHandshake
  import FitHandshakeProperties

  /** Runs the engine as a separate process, supervised by two watchdogs. */
  class OutOfProcessCommandRunner {
    const command: string
    var commandRunner: Option<Runner>
    var timeoutThread: Watchdog
    var earlyTerminationThread: Watchdog

    function State(): Strategy
      reads this
    {
      OutOfProcess(command, commandRunner, timeoutThread, earlyTerminationThread)
    }

    constructor (command: string)
      ensures State() == NewOutOfProcess(command)
    {
      this.command := command;
      commandRunner := None;
      timeoutThread := NotCreated;
      earlyTerminationThread := NotCreated;
    }

    /** Builds the runner for the command line "command host port ticket"; nothing is launched yet. */
    method MakeCommandRunner(host: string, port: int, ticketNumber: int)
      modifies this`commandRunner
      ensures commandRunner == Some(Runner(FitLaunch.CommandLine(command, host, port, ticketNumber), NotLaunched))
    {
      var fitArguments := FitLaunch.FitArguments(host, port, ticketNumber);
      var commandLine := command + " " + fitArguments;
      commandRunner := Some(Runner(commandLine, NotLaunched));
    }

    /** Launches the process, then creates and starts both watchdogs; a failed launch creates none. */
    method Start(host: string, port: int, ticketNumber: int, launchSucceeds: bool) returns (outcome: Outcome)
      modifies this
      ensures StrategyTransition(State(), outcome) == StartStrategy(old(State()), host, port, ticketNumber, launchSucceeds)
    {
      MakeCommandRunner(host, port, ticketNumber);
      if !launchSucceeds {
        return Thrown(LaunchFailed);  // asynchronousStart threw
      }
      commandRunner := Some(commandRunner.value.(status := Running));
      timeoutThread := Watching;
      earlyTerminationThread := Watching;
      outcome := Completed;
    }

    /** Interrupts each watchdog thread that exists. */
    method KillVigilantThreads()
      modifies this`timeoutThread, this`earlyTerminationThread
      ensures State() == FitHandshake.KillVigilantThreads(old(State()))
    {
      if timeoutThread != NotCreated {
        timeoutThread := Interrupt(timeoutThread);
      }
      if earlyTerminationThread != NotCreated {
        earlyTerminationThread := Interrupt(earlyTerminationThread);
      }
    }

    /** Waits for the process to end, then interrupts the watchdogs. */
    method Join() returns (outcome: Outcome)
      modifies this
      ensures StrategyTransition(State(), outcome) == JoinStrategy(old(State()))
    {
      if commandRunner.None? {
        return Thrown(NullReference);
      }
      if commandRunner.value.status == Running {
        commandRunner := Some(commandRunner.value.(status := Exited));
      }
      KillVigilantThreads();
      outcome := Completed;
    }

    /**
     * Kills the process, then interrupts the watchdogs.  In between, the
     * early-termination watchdog's wait for the killed process may return.
     */
    method Kill(earlyTerminationWakesFirst: bool) returns (outcome: Outcome)
      modifies this
      ensures StrategyTransition(State(), outcome) == KillStrategy(old(State()), earlyTerminationWakesFirst)
    {
      if commandRunner.None? {
        return Thrown(NullReference);
      }
      if commandRunner.value.status == Running {
        commandRunner := Some(commandRunner.value.(status := Killed));
        if earlyTerminationWakesFirst && earlyTerminationThread == Watching {
          earlyTerminationThread := Woken;
        }
      }
      KillVigilantThreads();
      outcome := Completed;
    }

    /** The engine process ends by itself. */
    method ProcessExits()
      requires commandRunner.Some? && commandRunner.value.status == Running
      modifies this`commandRunner
      ensures commandRunner == Some(old(commandRunner.value).(status := Exited))
    {
      commandRunner := Some(commandRunner.value.(status := Exited));
    }

    /** The timeout thread's sleep returns; from now on an interrupt cannot stop its check. */
    method TimeoutSleepReturns()
      requires timeoutThread == Watching
      modifies this`timeoutThread
      ensures timeoutThread == Woken
    {
      timeoutThread := Woken;
    }

    /** The timeout thread goes on to its check, unless an interrupt stopped its sleep. */
    method FinishTimeoutThread() returns (checks: bool)
      requires ReadyToCheck(timeoutThread)
      modifies this`timeoutThread
      ensures checks <==> old(timeoutThread) == Woken
      ensures timeoutThread == Finished
    {
      checks := timeoutThread == Woken;
      timeoutThread := Finished;
    }

    /** The early-termination thread's wait for the process returns, once the process has ended. */
    method EarlyTerminationWaitReturns()
      requires earlyTerminationThread == Watching && ProcessEnded(commandRunner)
      modifies this`earlyTerminationThread
      ensures earlyTerminationThread == Woken
    {
      earlyTerminationThread := Woken;
    }

    /** The early-termination thread goes on to its check, unless an interrupt stopped its sleep or wait. */
    method FinishEarlyTerminationThread() returns (checks: bool)
      requires ReadyToCheck(earlyTerminationThread)
      modifies this`earlyTerminationThread
      ensures checks <==> old(earlyTerminationThread) == Woken
      ensures earlyTerminationThread == Finished
    {
      checks := earlyTerminationThread == Woken;
      earlyTerminationThread := Finished;
    }
  }

  /** Runs the engine's entry point on a thread of this process, with a stand-in runner and no watchdogs. */
  class InProcessCommandRunner {
    const testRunner: string
    var fastFitServer: Option<EntryPointThread>
    var commandRunnerCreated: bool

    function State(): Strategy
      reads this
    {
      InProcess(testRunner, fastFitServer, commandRunnerCreated)
    }

    constructor (testRunner: string)
      ensures State() == NewInProcess(testRunner)
    {
      this.testRunner := testRunner;
      fastFitServer := None;
      commandRunnerCreated := false;
    }

    /** Starts the entry point with ["-x", host, port, ticket]; a missing entry point starts nothing. */
    method Start(host: string, port: int, ticketNumber: int, entryPointFound: bool) returns (outcome: Outcome)
      modifies this
      ensures StrategyTransition(State(), outcome) == StartStrategy(old(State()), host, port, ticketNumber, entryPointFound)
    {
      var arguments := FitLaunch.InProcessArguments(host, port, ticketNumber);
      if !entryPointFound {
        return Thrown(LaunchFailed);  // the entry-point lookup threw
      }
      fastFitServer := Some(Alive(arguments));
      commandRunnerCreated := true;
      outcome := Completed;
    }

    /** Waits for the entry-point thread to return. */
    method Join() returns (outcome: Outcome)
      modifies this
      ensures StrategyTransition(State(), outcome) == JoinStrategy(old(State()))
    {
      if fastFitServer.None? {
        return Thrown(NullReference);
      }
      fastFitServer := Some(Returned(fastFitServer.value.arguments));
      outcome := Completed;
    }

    /** Kills the stand-in runner, which stops nothing. */
    method Kill() returns (outcome: Outcome)
      ensures StrategyTransition(State(), outcome) == KillStrategy(State(), false)
    {
      if !commandRunnerCreated {
        return Thrown(NullReference);
      }
      outcome := Completed;
    }

    /** The entry point returns by itself. */
    method EntryPointReturns()
      requires fastFitServer.Some? && fastFitServer.value.Alive?
      modifies this`fastFitServer
      ensures fastFitServer == Some(Returned(old(fastFitServer.value.arguments)))
    {
      fastFitServer := Some(Returned(fastFitServer.value.arguments));
    }
  }

  /** The strategy a client was given: one of the two kinds. */
  datatype StrategyRef =
    | OutOfProcessRef(outOfProcess: OutOfProcessCommandRunner)
    | InProcessRef(inProcess: InProcessCommandRunner)

  function ObjectOf(r: StrategyRef): object {
    match r
    case OutOfProcessRef(o) => o
    case InProcessRef(i) => i
  }

  function StateOf(r: StrategyRef): Strategy
    reads ObjectOf(r)
  {
    match r
    case OutOfProcessRef(o) => o.State()
    case InProcessRef(i) => i.State()
  }

  class CommandRunningFitClient {
    const ticketNumber: int
    const commandRunningStrategy: StrategyRef
    var connectionEstablished: bool
    var server: Server
    ghost var reports: seq<Report>  // the failures passed to the base client's exceptionOccurred
    ghost var calls: seq<Call>      // the calls made on the strategy, the base client and the server

    ghost function State(): Client
      reads this, ObjectOf(commandRunningStrategy)
    {
      Client(ticketNumber, connectionEstablished, server, StateOf(commandRunningStrategy), reports, calls)
    }

    ghost predicate Valid()
      reads this, ObjectOf(commandRunningStrategy)
    {
      FitHandshakeProperties.Inv(State())
    }

    constructor (strategy: StrategyRef)
      requires Pristine(StateOf(strategy))
      ensures commandRunningStrategy == strategy
      ensures Valid() && State() == NewClient(StateOf(strategy))
    {
      ticketNumber := FitLaunch.GenerateTicketNumber();
      commandRunningStrategy := strategy;
      connectionEstablished := false;
      server := Unbound;
      reports := [];
      calls := [];
      new;
      FitHandshakeProperties.NewClientInv(StateOf(strategy));
    }

    /** isConnectionEstablished: the flag of the client's state, which only a successful accept sets. */
    function IsConnectionEstablished(): (r: bool)
      reads this, ObjectOf(commandRunningStrategy)
      ensures r == State().connectionEstablished
    {
      connectionEstablished
    }

    /** The base client's exceptionOccurred, recorded. */
    method ExceptionOccurred(report: Report)
      modifies this`reports
      ensures reports == old(reports) + [report]
    {
      reports := reports + [report];
    }

    /** Binds the server on the given port and starts the strategy with the ticket; a start failure is reported. */
    method Start(host: string, port: int, launchSucceeds: bool)
      requires Valid() && server == Unbound
      modifies this, ObjectOf(commandRunningStrategy)
      ensures Valid() && State() == Step(old(State()), Event.Start(host, port, launchSucceeds)).client
    {
      ghost var before := State();
      ghost var started := StartStrategy(before.strategy, host, port, ticketNumber, launchSucceeds);
      server := Listening(port);
      calls := calls + [StrategyStart];
      var outcome: Outcome;
      match commandRunningStrategy {
        case OutOfProcessRef(o) => outcome := o.Start(host, port, ticketNumber, launchSucceeds);
        case InProcessRef(i) => outcome := i.Start(host, port, ticketNumber, launchSucceeds);
      }
      assert StateOf(commandRunningStrategy) == started.strategy && outcome == started.outcome;
      if outcome.Thrown? {
        ExceptionOccurred(StartFailed);
      }
      assert State() == Step(before, Event.Start(host, port, launchSucceeds)).client;
      FitHandshakeProperties.StartPreservesInv(before, host, port, launchSucceeds);
    }

    /** The acceptor's hand-over: after the base client took the socket, the connection is established. */
    method AcceptSocket(superSucceeds: bool) returns (outcome: Outcome)
      requires Valid() && server.Listening?
      modifies this
      ensures Valid() && Transition(State(), outcome) == Step(old(State()), Accept(superSucceeds))
    {
      if !superSucceeds {
        return Thrown(AcceptFailed);
      }
      connectionEstablished := true;
      outcome := Completed;
    }

    /** The timeout watchdog's sleep returns. */
    method TimeoutSleepReturns()
      requires Valid() && Enabled(State(), TimeoutWakes)
      modifies ObjectOf(commandRunningStrategy)
      ensures Valid() && State() == Step(old(State()), TimeoutWakes).client
    {
      commandRunningStrategy.outOfProcess.TimeoutSleepReturns();
      FitHandshakeProperties.StepPreservesInv(old(State()), TimeoutWakes);
    }

    /** The timeout watchdog: once awake, it reports unless the client is successfully started. */
    method RunTimeoutWatchdog(successfullyStarted: bool)
      requires Valid() && Enabled(State(), TimeoutFires(successfullyStarted))
      modifies this, ObjectOf(commandRunningStrategy)
      ensures Valid() && State() == Step(old(State()), TimeoutFires(successfullyStarted)).client
    {
      ghost var before := State();
      ghost var after := Step(before, TimeoutFires(successfullyStarted)).client;
      var o := commandRunningStrategy.outOfProcess;
      var checks := o.FinishTimeoutThread();
      assert o.State() == after.strategy;
      if checks && !successfullyStarted {
        ExceptionOccurred(SocketNotReceivedOnTime);
      }
      assert reports == after.reports;
      FitHandshakeProperties.TimeoutPreservesInv(before, successfullyStarted);
    }

    /** The early-termination watchdog: once the process ended, it reports unless the connection is established. */
    method RunEarlyTerminationWatchdog()
      requires Valid() && Enabled(State(), EarlyTerminationFires)
      modifies this, ObjectOf(commandRunningStrategy)
      ensures Valid() && State() == Step(old(State()), EarlyTerminationFires).client
    {
      ghost var before := State();
      ghost var after := Step(before, EarlyTerminationFires).client;
      var o := commandRunningStrategy.outOfProcess;
      var checks := o.FinishEarlyTerminationThread();
      assert o.State() == after.strategy;
      if checks && !IsConnectionEstablished() {
        ExceptionOccurred(TerminatedBeforeConnection);
      }
      assert reports == after.reports;
      FitHandshakeProperties.EarlyTerminationPreservesInv(before);
    }

    /** The early-termination watchdog's wait for the ended process returns. */
    method EarlyTerminationWaitReturns()
      requires Valid() && Enabled(State(), EarlyTerminationWakes)
      modifies ObjectOf(commandRunningStrategy)
      ensures Valid() && State() == Step(old(State()), EarlyTerminationWakes).client
    {
      commandRunningStrategy.outOfProcess.EarlyTerminationWaitReturns();
      FitHandshakeProperties.StepPreservesInv(old(State()), EarlyTerminationWakes);
    }

    method ProcessExits()
      requires Valid() && Enabled(State(), Event.ProcessExits)
      modifies ObjectOf(commandRunningStrategy)
      ensures Valid() && State() == Step(old(State()), Event.ProcessExits).client
    {
      commandRunningStrategy.outOfProcess.ProcessExits();
      FitHandshakeProperties.StepPreservesInv(old(State()), Event.ProcessExits);
    }

    method EntryPointReturns()
      requires Valid() && Enabled(State(), Event.EntryPointReturns)
      modifies ObjectOf(commandRunningStrategy)
      ensures Valid() && State() == Step(old(State()), Event.EntryPointReturns).client
    {
      commandRunningStrategy.inProcess.EntryPointReturns();
      FitHandshakeProperties.StepPreservesInv(old(State()), Event.EntryPointReturns);
    }

    method JoinCommandRunningStrategy() returns (outcome: Outcome)
      modifies ObjectOf(commandRunningStrategy)
      ensures StrategyTransition(StateOf(commandRunningStrategy), outcome) == JoinStrategy(old(StateOf(commandRunningStrategy)))
    {
      match commandRunningStrategy {
        case OutOfProcessRef(o) => outcome := o.Join();
        case InProcessRef(i) => outcome := i.Join();
      }
    }

    method KillCommandRunningStrategy(earlyTerminationWakesFirst: bool) returns (outcome: Outcome)
      modifies ObjectOf(commandRunningStrategy)
      ensures StrategyTransition(StateOf(commandRunningStrategy), outcome)
           == KillStrategy(old(StateOf(commandRunningStrategy)), earlyTerminationWakesFirst)
    {
      match commandRunningStrategy {
        case OutOfProcessRef(o) => outcome := o.Kill(earlyTerminationWakesFirst);
        case InProcessRef(i) => outcome := i.Kill();
      }
    }

    /** Kills the base client, then the strategy. */
    method Kill(earlyTerminationWakesFirst: bool) returns (outcome: Outcome)
      requires Valid()
      modifies this, ObjectOf(commandRunningStrategy)
      ensures Valid() && Transition(State(), outcome) == Step(old(State()), Event.Kill(earlyTerminationWakesFirst))
    {
      ghost var before := State();
      ghost var killed := KillStrategy(before.strategy, earlyTerminationWakesFirst);
      calls := calls + [SuperKill];
      calls := calls + [StrategyKill];
      outcome := KillCommandRunningStrategy(earlyTerminationWakesFirst);
      assert StateOf(commandRunningStrategy) == killed.strategy && outcome == killed.outcome;
      assert State() == before.(strategy := killed.strategy, calls := before.calls + [SuperKill, StrategyKill]);
      FitHandshakeProperties.KillPreservesInv(before, earlyTerminationWakesFirst);
    }

    /** Closes the server, as join's finally block: a close error is logged, the pending outcome kept. */
    method CloseServer(pending: Outcome, closeSucceeds: bool) returns (outcome: Outcome)
      modifies this`server, this`calls
      ensures Transition(State(), outcome) == FitHandshake.CloseServer(old(State()), pending, closeSucceeds)
    {
      calls := calls + [ServerClose];
      if server == Unbound {
        return Thrown(NullReference);
      }
      if closeSucceeds {
        server := Closed(server.port);
      } else {
        calls := calls + [CloseFailureLogged];
      }
      outcome := pending;
    }

    /** Joins the strategy and the base client, kills the strategy, and always closes the server. */
    method Join(closeSucceeds: bool) returns (outcome: Outcome)
      requires Valid()
      modifies this, ObjectOf(commandRunningStrategy)
      ensures Valid() && Transition(State(), outcome) == Step(old(State()), Event.Join(closeSucceeds))
    {
      ghost var before := State();
      ghost var joined := JoinStrategy(before.strategy);
      calls := calls + [StrategyJoin];
      var pending := JoinCommandRunningStrategy();
      assert pending == joined.outcome && StateOf(commandRunningStrategy) == joined.strategy;
      ghost var mid: Client;
      if pending == Completed {
        ghost var killed := KillStrategy(joined.strategy, false);
        calls := calls + [SuperJoin];
        calls := calls + [StrategyKill];
        pending := KillCommandRunningStrategy(false);
        mid := before.(strategy := killed.strategy, calls := before.calls + [StrategyJoin, SuperJoin, StrategyKill]);
        assert pending == killed.outcome;
      } else {
        mid := before.(strategy := joined.strategy, calls := before.calls + [StrategyJoin]);
      }
      assert State() == mid;
      assert Step(before, Event.Join(closeSucceeds)) == FitHandshake.CloseServer(mid, pending, closeSucceeds);
      outcome := CloseServer(pending, closeSucceeds);
      FitHandshakeProperties.JoinPreservesInv(before, closeSucceeds);
    }
  }

  /** A run in which the engine connects, then exits and is joined: nothing is reported as a failure. */
  method ConnectedRun(host: string, port: int) returns (client: CommandRunningFitClient, outcome: Outcome)
    ensures client.reports == [] && client.connectionEstablished
    ensures outcome == Completed && client.server == Closed(port)
  {
    var strategy := new OutOfProcessCommandRunner("java fit.FitServer");
    client := new CommandRunningFitClient(OutOfProcessRef(strategy));
    client.Start(host, port, true);
    assert client.server == Listening(port) && client.reports == [];
    assert strategy.commandRunner.value.status == Running && strategy.earlyTerminationThread == Watching;
    var accepted := client.AcceptSocket(true);
    assert client.connectionEstablished && strategy.commandRunner.value.status == Running;
    client.ProcessExits();
    assert strategy.earlyTerminationThread == Watching && ProcessEnded(strategy.commandRunner);
    client.EarlyTerminationWaitReturns();
    assert strategy.earlyTerminationThread == Woken && client.connectionEstablished && client.reports == [];
    client.RunEarlyTerminationWatchdog();
    assert client.reports == [] && client.server == Listening(port);
    ghost var before := client.State();
    ghost var joined := Step(before, Event.Join(true));
    FitHandshakeProperties.JoinAfterStart(before, true);
    outcome := client.Join(true);
    assert client.State() == joined.client && outcome == joined.outcome;
  }
}
