/**
 * What the handshake state machine guarantees: the connection flag only
 * ever goes from false to true, each watchdog reports at most once and
 * only when its guard fails, interrupted watchdogs stay silent, and join
 * closes the server last whatever happened before.
 */
module FitHandshakeProperties {
  import opened Wrappers
  import FitLaunch
  import opened FitHandshake

  /** Neither watchdog of the strategy exists. */
  predicate NoWatchdogs(st: Strategy) {
    st.InProcess? || (st.timeoutThread == NotCreated && st.earlyTerminationThread == NotCreated)
  }

  predicate StrategyConsistent(st: Strategy) {
    match st
    case OutOfProcess(_, runner, timeout, early) =>
      (timeout == NotCreated <==> early == NotCreated)
      && (timeout != NotCreated ==> runner.Some? && runner.value.status != NotLaunched)
    case InProcess(_, thread, created) => thread.Some? <==> created
  }

  function Reported(c: Client, r: Report): nat {
    multiset(c.reports)[r]
  }

  /** Each kind of report at most once, and only from the actor that can make it. */
  predicate ReportsAccounted(c: Client) {
    && Reported(c, SocketNotReceivedOnTime) <= 1
    && Reported(c, TerminatedBeforeConnection) <= 1
    && Reported(c, StartFailed) <= 1
    && (c.strategy.InProcess? ==> Reported(c, SocketNotReceivedOnTime) == 0 && Reported(c, TerminatedBeforeConnection) == 0)
    && (c.strategy.OutOfProcess? && c.strategy.timeoutThread != Finished ==> Reported(c, SocketNotReceivedOnTime) == 0)
    && (c.strategy.OutOfProcess? && c.strategy.earlyTerminationThread != Finished ==> Reported(c, TerminatedBeforeConnection) == 0)
    && (Reported(c, StartFailed) == 1 ==> NoWatchdogs(c.strategy))
  }

  /** What holds of every client reachable from its constructor. */
  predicate Inv(c: Client) {
    && c.ticketNumber == 3863
    && (c.server == Unbound ==> Pristine(c.strategy) && !c.connectionEstablished && c.reports == [])
    && (c.server != Unbound && c.strategy.OutOfProcess? ==> c.strategy.commandRunner.Some?)
    && StrategyConsistent(c.strategy)
    && ReportsAccounted(c)
  }

  lemma NewClientInv(st: Strategy)
    requires Pristine(st)
    ensures Inv(NewClient(st))
    ensures !NewClient(st).connectionEstablished && NewClient(st).ticketNumber == 3863
  {
  }

  lemma StartPreservesInv(c: Client, host: string, port: int, launchSucceeds: bool)
    requires Inv(c) && c.server == Unbound
    ensures Inv(Step(c, Start(host, port, launchSucceeds)).client)
  {
    var d := Step(c, Start(host, port, launchSucceeds)).client;
    assert d.reports == if launchSucceeds then [] else [StartFailed];
  }

  lemma TimeoutPreservesInv(c: Client, successfullyStarted: bool)
    requires Inv(c) && Enabled(c, TimeoutFires(successfullyStarted))
    ensures Inv(Step(c, TimeoutFires(successfullyStarted)).client)
  {
    var d := Step(c, TimeoutFires(successfullyStarted)).client;
    assert Reported(d, TerminatedBeforeConnection) == Reported(c, TerminatedBeforeConnection);
    assert Reported(d, StartFailed) == Reported(c, StartFailed);
  }

  lemma EarlyTerminationPreservesInv(c: Client)
    requires Inv(c) && Enabled(c, EarlyTerminationFires)
    ensures Inv(Step(c, EarlyTerminationFires).client)
  {
    var d := Step(c, EarlyTerminationFires).client;
    assert Reported(d, SocketNotReceivedOnTime) == Reported(c, SocketNotReceivedOnTime);
    assert Reported(d, StartFailed) == Reported(c, StartFailed);
  }

  lemma KillPreservesInv(c: Client, earlyTerminationWakesFirst: bool)
    requires Inv(c)
    ensures Inv(Step(c, Kill(earlyTerminationWakesFirst)).client)
  {
  }

  lemma JoinPreservesInv(c: Client, closeSucceeds: bool)
    requires Inv(c)
    ensures Inv(Step(c, Join(closeSucceeds)).client)
  {
  }

  lemma StepPreservesInv(c: Client, e: Event)
    requires Inv(c) && Enabled(c, e)
    ensures Inv(Step(c, e).client)
  {
    match e
    case Start(host, port, ok) => StartPreservesInv(c, host, port, ok);
    case TimeoutFires(started) => TimeoutPreservesInv(c, started);
    case EarlyTerminationFires => EarlyTerminationPreservesInv(c);
    case Kill(wakes) => KillPreservesInv(c, wakes);
    case Join(ok) => JoinPreservesInv(c, ok);
    case _ =>
  }

  lemma {:induction false} RunPreservesInv(c: Client, events: seq<Event>)
    requires Inv(c)
    ensures Run(c, events).Some? ==> Inv(Run(c, events).value)
    decreases |events|
  {
    if events != [] && Enabled(c, events[0]) {
      StepPreservesInv(c, events[0]);
      RunPreservesInv(Step(c, events[0]).client, events[1..]);
    }
  }

  // ------------------------------------------------------------ the connection flag

  /** Only a successful acceptSocket writes the flag, and it writes true. */
  lemma ConnectionFlagRule(c: Client, e: Event)
    requires Enabled(c, e)
    ensures Step(c, e).client.connectionEstablished == (c.connectionEstablished || e == Accept(true))
  {
  }

  /** Once established, the connection stays established whatever happens next. */
  lemma {:induction false} ConnectionStaysEstablished(c: Client, events: seq<Event>)
    requires c.connectionEstablished
    ensures Run(c, events).Some? ==> Run(c, events).value.connectionEstablished
    decreases |events|
  {
    if events != [] && Enabled(c, events[0]) {
      ConnectionFlagRule(c, events[0]);
      ConnectionStaysEstablished(Step(c, events[0]).client, events[1..]);
    }
  }

  /** The flag is false from construction until an acceptSocket succeeds. */
  lemma {:induction false} ConnectionNeedsAccept(c: Client, events: seq<Event>)
    requires !c.connectionEstablished
    requires Accept(true) !in events
    ensures Run(c, events).Some? ==> !Run(c, events).value.connectionEstablished
    decreases |events|
  {
    if events != [] && Enabled(c, events[0]) {
      assert events[0] != Accept(true);
      ConnectionFlagRule(c, events[0]);
      assert Accept(true) !in events[1..] by { assert forall i :: 0 <= i < |events| - 1 ==> events[1..][i] == events[i + 1]; }
      ConnectionNeedsAccept(Step(c, events[0]).client, events[1..]);
    }
  }

  // ------------------------------------------------------------ the watchdogs' guards

  /** The timeout watchdog's sleep can return at any time after start, whatever the process and the connection do. */
  lemma TimeoutSleepIsUnconditional(c: Client)
    requires c.strategy.OutOfProcess? && c.strategy.timeoutThread == Watching
    ensures Enabled(c, TimeoutWakes)
    ensures Step(c, TimeoutWakes).client == c.(strategy := c.strategy.(timeoutThread := Woken))
  {
  }

  /** The timeout watchdog reports iff its sleep returned before any interrupt and the client is not successfully started. */
  lemma TimeoutGuard(c: Client, successfullyStarted: bool)
    requires Enabled(c, TimeoutFires(successfullyStarted))
    ensures var d := Step(c, TimeoutFires(successfullyStarted)).client;
            d.connectionEstablished == c.connectionEstablished && d.strategy.timeoutThread == Finished
            && (c.strategy.timeoutThread == Woken && !successfullyStarted ==> d.reports == c.reports + [SocketNotReceivedOnTime])
            && (c.strategy.timeoutThread == Interrupted || successfullyStarted ==> d.reports == c.reports)
  {
  }

  /** The early-termination watchdog's wait returns only once the process has ended, killed or by itself. */
  lemma EarlyTerminationWaitsForProcess(c: Client)
    requires Enabled(c, EarlyTerminationWakes)
    ensures c.strategy.commandRunner.Some? && c.strategy.commandRunner.value.status in {Exited, Killed}
    ensures Step(c, EarlyTerminationWakes).client == c.(strategy := c.strategy.(earlyTerminationThread := Woken))
  {
  }

  /** The early-termination watchdog reports iff its wait returned before any interrupt and no connection is established. */
  lemma EarlyTerminationGuard(c: Client)
    requires Enabled(c, EarlyTerminationFires)
    ensures var d := Step(c, EarlyTerminationFires).client;
            d.strategy.earlyTerminationThread == Finished
            && (c.strategy.earlyTerminationThread == Woken && !c.connectionEstablished ==> d.reports == c.reports + [TerminatedBeforeConnection])
            && (c.strategy.earlyTerminationThread == Interrupted || c.connectionEstablished ==> d.reports == c.reports)
  {
  }

  /** After an accepted connection the process may exit at any time: no early-termination failure is reported. */
  lemma {:induction false} NoEarlyTerminationAfterAccept(c: Client, events: seq<Event>)
    requires c.connectionEstablished
    ensures Run(c, events).Some? ==> Reported(Run(c, events).value, TerminatedBeforeConnection) == Reported(c, TerminatedBeforeConnection)
    decreases |events|
  {
    if events != [] && Enabled(c, events[0]) {
      var d := Step(c, events[0]).client;
      assert Reported(d, TerminatedBeforeConnection) == Reported(c, TerminatedBeforeConnection) by {
        if events[0].TimeoutFires? || events[0].Start? {
          assert multiset(d.reports)[TerminatedBeforeConnection] == multiset(c.reports)[TerminatedBeforeConnection];
        } else if events[0] == EarlyTerminationFires || events[0] == EarlyTerminationWakes {
          assert d.reports == c.reports;
        }
      }
      ConnectionFlagRule(c, events[0]);
      NoEarlyTerminationAfterAccept(d, events[1..]);
    }
  }

  /** Every watchdog reports at most once, an in-process client never, and a failed start rules both out. */
  lemma ReportsAtMostOnce(st: Strategy, events: seq<Event>)
    requires Pristine(st)
    ensures var r := Run(NewClient(st), events);
            r.Some? ==>
              && Reported(r.value, SocketNotReceivedOnTime) <= 1
              && Reported(r.value, TerminatedBeforeConnection) <= 1
              && Reported(r.value, StartFailed) <= 1
              && (st.InProcess? ==> Reported(r.value, SocketNotReceivedOnTime) == 0 && Reported(r.value, TerminatedBeforeConnection) == 0)
              && (Reported(r.value, StartFailed) == 1 ==> Reported(r.value, SocketNotReceivedOnTime) == 0 && Reported(r.value, TerminatedBeforeConnection) == 0)
  {
    NewClientInv(st);
    RunPreservesInv(NewClient(st), events);
    RunKeepsMode(NewClient(st), events);
  }

  /** No event changes the kind of strategy. */
  lemma {:induction false} RunKeepsMode(c: Client, events: seq<Event>)
    ensures Run(c, events).Some? ==> Run(c, events).value.strategy.InProcess? == c.strategy.InProcess?
    decreases |events|
  {
    if events != [] && Enabled(c, events[0]) {
      RunKeepsMode(Step(c, events[0]).client, events[1..]);
    }
  }

  // ------------------------------------------------------------ kill and join

  /** killVigilantThreads leaves a watchdog that was never created as it is; it interrupts the ones waiting. */
  lemma InterruptsOnlyCreatedWatchdogs(st: Strategy)
    requires st.OutOfProcess?
    ensures st.timeoutThread == NotCreated ==> KillVigilantThreads(st).timeoutThread == NotCreated
    ensures st.earlyTerminationThread == NotCreated ==> KillVigilantThreads(st).earlyTerminationThread == NotCreated
    ensures st.timeoutThread == Watching ==> KillVigilantThreads(st).timeoutThread == Interrupted
    ensures st.earlyTerminationThread == Watching ==> KillVigilantThreads(st).earlyTerminationThread == Interrupted
    ensures st.timeoutThread == Woken ==> KillVigilantThreads(st).timeoutThread == Woken
    ensures st.earlyTerminationThread == Woken ==> KillVigilantThreads(st).earlyTerminationThread == Woken
  {
  }

  /** Before start, kill and join touch no watchdog; both fail on the unset runner (and join also on the unset server). */
  lemma KillAndJoinBeforeStart(st: Strategy, earlyTerminationWakesFirst: bool, closeSucceeds: bool)
    requires Pristine(st)
    ensures Step(NewClient(st), Kill(earlyTerminationWakesFirst)).client.strategy == st
    ensures Step(NewClient(st), Kill(earlyTerminationWakesFirst)).outcome == Thrown(NullReference)
    ensures Step(NewClient(st), Join(closeSucceeds)).client.strategy == st
    ensures Step(NewClient(st), Join(closeSucceeds)).outcome == Thrown(NullReference)
    ensures Step(NewClient(st), Join(closeSucceeds)).client.calls == [StrategyJoin, ServerClose]
  {
  }

  /**
   * Once start has run, kill of the out-of-process strategy completes and
   * leaves no watchdog waiting.  A watchdog is left woken, and so still to
   * report, exactly when its sleep or wait returned first: the timeout
   * watchdog before kill, the early-termination watchdog before kill or
   * between the kill of the process and the interrupts.
   */
  lemma KillAfterStart(c: Client, earlyTerminationWakesFirst: bool)
    requires Inv(c) && c.server != Unbound && c.strategy.OutOfProcess?
    ensures var t := Step(c, Kill(earlyTerminationWakesFirst));
            t.outcome == Completed
            && t.client.strategy.timeoutThread != Watching && t.client.strategy.earlyTerminationThread != Watching
            && t.client.strategy.commandRunner.value.status != Running
            && (t.client.strategy.timeoutThread == Woken <==> c.strategy.timeoutThread == Woken)
            && (t.client.strategy.earlyTerminationThread == Woken
                <==> (c.strategy.earlyTerminationThread == Woken
                      || (earlyTerminationWakesFirst && c.strategy.earlyTerminationThread == Watching
                          && c.strategy.commandRunner.value.status == Running)))
  {
  }

  /** The timeout watchdog can no longer report: neither asleep nor woken. */
  predicate TimeoutSilenced(st: Strategy) {
    st.OutOfProcess? && st.timeoutThread != Watching && st.timeoutThread != Woken
  }

  /** The early-termination watchdog can no longer report: neither waiting nor woken. */
  predicate EarlyTerminationSilenced(st: Strategy) {
    st.OutOfProcess? && st.earlyTerminationThread != Watching && st.earlyTerminationThread != Woken
  }

  /** One event after start: a silenced watchdog stays silenced and adds no report. */
  lemma SilenceIsKept(c: Client, e: Event)
    requires c.server != Unbound && c.strategy.OutOfProcess? && Enabled(c, e)
    ensures var d := Step(c, e).client;
            d.server != Unbound
            && (TimeoutSilenced(c.strategy) ==>
                  TimeoutSilenced(d.strategy) && Reported(d, SocketNotReceivedOnTime) == Reported(c, SocketNotReceivedOnTime))
            && (EarlyTerminationSilenced(c.strategy) ==>
                  EarlyTerminationSilenced(d.strategy) && Reported(d, TerminatedBeforeConnection) == Reported(c, TerminatedBeforeConnection))
  {
    var d := Step(c, e).client;
    if e.TimeoutFires? {
      assert d.reports == c.reports + if c.strategy.timeoutThread == Woken && !e.successfullyStarted then [SocketNotReceivedOnTime] else [];
      assert multiset(d.reports)[TerminatedBeforeConnection] == multiset(c.reports)[TerminatedBeforeConnection];
    } else if e.EarlyTerminationFires? {
      assert d.reports == c.reports + if c.strategy.earlyTerminationThread == Woken && !c.connectionEstablished then [TerminatedBeforeConnection] else [];
      assert multiset(d.reports)[SocketNotReceivedOnTime] == multiset(c.reports)[SocketNotReceivedOnTime];
    } else {
      assert d.reports == c.reports;
    }
  }

  /** A watchdog that is interrupted or finished, and not past its sleep or wait, never reports again. */
  lemma {:induction false} SilencedWatchdogsStaySilent(c: Client, events: seq<Event>)
    requires c.server != Unbound && c.strategy.OutOfProcess?
    ensures var r := Run(c, events);
            r.Some? ==>
              && (TimeoutSilenced(c.strategy) ==> Reported(r.value, SocketNotReceivedOnTime) == Reported(c, SocketNotReceivedOnTime))
              && (EarlyTerminationSilenced(c.strategy) ==> Reported(r.value, TerminatedBeforeConnection) == Reported(c, TerminatedBeforeConnection))
    decreases |events|
  {
    if events != [] && Enabled(c, events[0]) {
      SilenceIsKept(c, events[0]);
      SilencedWatchdogsStaySilent(Step(c, events[0]).client, events[1..]);
    }
  }

  /**
   * Kill after a completed start: from then on a watchdog reports nothing
   * unless its sleep or wait returned before kill interrupted it.
   */
  lemma NoWatchdogReportAfterKill(c: Client, earlyTerminationWakesFirst: bool, events: seq<Event>)
    requires Inv(c) && c.server != Unbound && c.strategy.OutOfProcess?
    ensures var r := Run(c, [Kill(earlyTerminationWakesFirst)] + events);
            r.Some? && c.strategy.timeoutThread != Woken
            ==> Reported(r.value, SocketNotReceivedOnTime) == Reported(c, SocketNotReceivedOnTime)
    ensures var r := Run(c, [Kill(earlyTerminationWakesFirst)] + events);
            r.Some? && c.strategy.earlyTerminationThread != Woken
            && !(earlyTerminationWakesFirst && c.strategy.earlyTerminationThread == Watching
                 && c.strategy.commandRunner.value.status == Running)
            ==> Reported(r.value, TerminatedBeforeConnection) == Reported(c, TerminatedBeforeConnection)
  {
    var k := Kill(earlyTerminationWakesFirst);
    KillAfterStart(c, earlyTerminationWakesFirst);
    SilenceIsKept(c, k);
    assert ([k] + events)[1..] == events;
    SilencedWatchdogsStaySilent(Step(c, k).client, events);
  }

  /** In-process kill completes but stops nothing: the entry-point thread is as it was. */
  lemma InProcessKillStopsNothing(c: Client, earlyTerminationWakesFirst: bool)
    requires Inv(c) && c.strategy.InProcess? && c.strategy.mockRunnerCreated
    ensures Step(c, Kill(earlyTerminationWakesFirst)).outcome == Completed
    ensures Step(c, Kill(earlyTerminationWakesFirst)).client.strategy == c.strategy
  {
  }

  /** The calls join makes, in order: close is always attempted last, and a failed close is only logged. */
  function JoinCalls(strategyJoinThrew: bool, closeLogged: bool): seq<Call> {
    (if strategyJoinThrew then [StrategyJoin] else [StrategyJoin, SuperJoin, StrategyKill])
    + [ServerClose] + (if closeLogged then [CloseFailureLogged] else [])
  }

  lemma JoinCallOrder(c: Client, closeSucceeds: bool)
    ensures var t := Step(c, Join(closeSucceeds));
            t.client.calls == c.calls + JoinCalls(JoinStrategy(c.strategy).outcome.Thrown?, !closeSucceeds && c.server != Unbound)
  {
  }

  /** A close failure changes neither the outcome of join nor the strategy; only a missing server throws from close. */
  lemma CloseFailureIsNotPropagated(c: Client)
    requires c.server != Unbound
    ensures Step(c, Join(false)).outcome == Step(c, Join(true)).outcome
    ensures Step(c, Join(false)).client.strategy == Step(c, Join(true)).client.strategy
    ensures Step(c, Join(true)).client.server.Closed?
  {
  }

  /** Join after start of the out-of-process strategy: the process has ended and no watchdog still waits. */
  lemma JoinAfterStart(c: Client, closeSucceeds: bool)
    requires Inv(c) && c.server != Unbound && c.strategy.OutOfProcess?
    ensures var t := Step(c, Join(closeSucceeds));
            t.outcome == Completed
            && t.client.calls == c.calls + JoinCalls(false, !closeSucceeds)
            && t.client.reports == c.reports && t.client.connectionEstablished == c.connectionEstablished
            && t.client.server == (if closeSucceeds && c.server.Listening? then Closed(c.server.port) else c.server)
            && t.client.strategy.commandRunner.value.status != Running
            && t.client.strategy.timeoutThread != Watching && t.client.strategy.earlyTerminationThread != Watching
  {
  }

  // ------------------------------------------------------------ start

  /** start launches with host, port and the fixed ticket; success creates both watchdogs, failure neither. */
  lemma StartLaunches(c: Client, host: string, port: int, launchSucceeds: bool)
    requires Inv(c) && c.server == Unbound
    ensures var t := Step(c, Start(host, port, launchSucceeds));
            t.outcome == Completed && t.client.server == Listening(port)
            && (t.client.strategy.OutOfProcess? ==>
                  t.client.strategy.commandRunner.Some?
                  && t.client.strategy.commandRunner.value.commandLine
                     == FitLaunch.CommandLine(c.strategy.command, host, port, 3863)
                  && (launchSucceeds <==> t.client.strategy.timeoutThread == Watching)
                  && (launchSucceeds <==> t.client.strategy.earlyTerminationThread == Watching))
            && (t.client.strategy.InProcess? && launchSucceeds ==>
                  t.client.strategy.fastFitServer == Some(Alive(FitLaunch.InProcessArguments(host, port, 3863))))
            && (t.client.reports == if launchSucceeds then [] else [StartFailed])
            && NoWatchdogs(t.client.strategy) == (!launchSucceeds || c.strategy.InProcess?)
  {
  }

  // ------------------------------------------------------------ races the code allows

  /** A connection accepted after the timeout was reported still sets the flag. */
  lemma LateAcceptAfterTimeout(command: string, host: string, port: int)
    ensures var r := Run(NewClient(NewOutOfProcess(command)),
                         [Start(host, port, true), TimeoutWakes, TimeoutFires(false), Accept(true)]);
            r.Some? && r.value.reports == [SocketNotReceivedOnTime] && r.value.connectionEstablished
  {
    var es := [Start(host, port, true), TimeoutWakes, TimeoutFires(false), Accept(true)];
    var c0 := NewClient(NewOutOfProcess(command));
    var c1 := Step(c0, es[0]).client;
    assert c1.strategy.timeoutThread == Watching && c1.reports == [];
    var c2 := Step(c1, es[1]).client;
    assert c2.strategy.timeoutThread == Woken && c2.reports == [] && c2.server.Listening?;
    var c3 := Step(c2, es[2]).client;
    assert c3.reports == [SocketNotReceivedOnTime] && c3.server.Listening?;
    var c4 := Step(c3, es[3]).client;
    assert Run(c3, es[3..]) == Some(c4) by { assert es[3..][1..] == []; }
    assert Run(c2, es[2..]) == Run(c3, es[3..]) by { assert es[2..][1..] == es[3..]; }
    assert Run(c1, es[1..]) == Run(c2, es[2..]) by { assert es[1..][1..] == es[2..]; }
  }

  /** Both watchdogs can report: the process exits before connecting and the timeout also expires. */
  lemma BothWatchdogsCanReport(command: string, host: string, port: int)
    ensures var r := Run(NewClient(NewOutOfProcess(command)),
                         [Start(host, port, true), ProcessExits, EarlyTerminationWakes,
                          EarlyTerminationFires, TimeoutWakes, TimeoutFires(false)]);
            r.Some? && r.value.reports == [TerminatedBeforeConnection, SocketNotReceivedOnTime]
  {
    var es := [Start(host, port, true), ProcessExits, EarlyTerminationWakes, EarlyTerminationFires, TimeoutWakes, TimeoutFires(false)];
    var c0 := NewClient(NewOutOfProcess(command));
    var c1 := Step(c0, es[0]).client;
    assert c1.strategy.commandRunner.value.status == Running && !c1.connectionEstablished && c1.reports == [];
    assert c1.strategy.timeoutThread == Watching && c1.strategy.earlyTerminationThread == Watching;
    var c2 := Step(c1, es[1]).client;
    assert c2.strategy.timeoutThread == Watching && c2.reports == [];
    var c3 := Step(c2, es[2]).client;
    assert c3.strategy.earlyTerminationThread == Woken && c3.strategy.timeoutThread == Watching && c3.reports == [];
    var c4 := Step(c3, es[3]).client;
    assert c4.strategy.timeoutThread == Watching && c4.reports == [TerminatedBeforeConnection];
    var c5 := Step(c4, es[4]).client;
    assert c5.strategy.timeoutThread == Woken && c5.reports == [TerminatedBeforeConnection];
    var c6 := Step(c5, es[5]).client;
    assert c6.reports == [TerminatedBeforeConnection, SocketNotReceivedOnTime];
    assert Run(c5, es[5..]) == Some(c6) by { assert es[5..][1..] == []; }
    assert Run(c4, es[4..]) == Run(c5, es[5..]) by { assert es[4..][1..] == es[5..]; }
    assert Run(c3, es[3..]) == Run(c4, es[4..]) by { assert es[3..][1..] == es[4..]; }
    assert Run(c2, es[2..]) == Run(c3, es[3..]) by { assert es[2..][1..] == es[3..]; }
    assert Run(c1, es[1..]) == Run(c2, es[2..]) by { assert es[1..][1..] == es[2..]; }
  }

  /**
   * Kill does not always silence the early-termination watchdog: the process
   * dies first, the watchdog's wait returns before the interrupt, and it
   * reports the early termination after kill has completed.
   */
  lemma EarlyTerminationReportAfterKill(command: string, host: string, port: int)
    ensures var c := Step(NewClient(NewOutOfProcess(command)), Start(host, port, true)).client;
            var r := Run(c, [Kill(true), EarlyTerminationFires]);
            Step(c, Kill(true)).outcome == Completed && r.Some? && r.value.reports == [TerminatedBeforeConnection]
  {
    var c := Step(NewClient(NewOutOfProcess(command)), Start(host, port, true)).client;
    var es := [Kill(true), EarlyTerminationFires];
    var c1 := Step(c, es[0]).client;
    var c2 := Step(c1, es[1]).client;
    assert es[1..][1..] == [];
    assert Run(c2, []) == Some(c2);
  }

  /**
   * Nor does kill always silence the timeout watchdog: its sleep returns
   * before kill, the interrupts find both watchdogs past their sleep or
   * wait, and after kill has completed both report.
   */
  lemma TimeoutReportAfterKill(command: string, host: string, port: int)
    ensures var c0 := Step(NewClient(NewOutOfProcess(command)), Start(host, port, true)).client;
            var c := Step(c0, TimeoutWakes).client;
            var r := Run(c, [Kill(true), EarlyTerminationFires, TimeoutFires(false)]);
            Step(c, Kill(true)).outcome == Completed && Step(c, Kill(true)).client.strategy.commandRunner.value.status == Killed
            && r.Some? && r.value.reports == [TerminatedBeforeConnection, SocketNotReceivedOnTime]
  {
    var c0 := Step(NewClient(NewOutOfProcess(command)), Start(host, port, true)).client;
    assert c0.strategy.timeoutThread == Watching && c0.strategy.earlyTerminationThread == Watching;
    assert c0.strategy.commandRunner.value.status == Running && c0.reports == [] && !c0.connectionEstablished;
    var c := Step(c0, TimeoutWakes).client;
    var es := [Kill(true), EarlyTerminationFires, TimeoutFires(false)];
    var c1 := Step(c, es[0]).client;
    assert c1.strategy.timeoutThread == Woken && c1.strategy.earlyTerminationThread == Woken && c1.reports == [];
    var c2 := Step(c1, es[1]).client;
    assert c2.strategy.timeoutThread == Woken && c2.reports == [TerminatedBeforeConnection];
    var c3 := Step(c2, es[2]).client;
    assert c3.reports == [TerminatedBeforeConnection, SocketNotReceivedOnTime];
    assert Run(c2, es[2..]) == Some(c3) by { assert es[2..][1..] == []; }
    assert Run(c1, es[1..]) == Run(c2, es[2..]) by { assert es[1..][1..] == es[2..]; }
  }
}
