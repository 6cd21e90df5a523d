/** The shutdown sequence of main.go: after the signal it stops signal
    delivery, marks the process as shutting down, waits for the readiness
    change to propagate, drains the HTTP server under a deadline, cancels the
    requests still running, and waits a further hard period only when the
    drain failed. The process-wide flag, the handlers that read it and the
    serving goroutine's exit check are here too. */
module Shutdown {
  import opened Wrappers
  import opened Errors
  import opened Http

  /** The deadline given to server.Shutdown, in seconds. */
  const ShutdownPeriod: nat := 15
  /** The extra wait after a failed drain, in seconds. */
  const ShutdownHardPeriod: nat := 3
  /** The wait that lets health checks see the new readiness, in seconds. */
  const ReadinessDrainDelay: nat := 5

  datatype Phase = Running | Draining | Terminating | Exited

  /** What main does once the server is running, in the order it does it. */
  datatype Event =
    | StopSignals                                // stop(): later signals get the default action
    | MarkShuttingDown                           // isShuttingDown.Store(true)
    | Sleep(seconds: nat)                        // time.Sleep
    | ServerShutdown(deadline: nat, elapsed: nat)  // server.Shutdown under a deadline, and how long it blocked
    | CancelOngoing                              // stopOngoingGracefully()
    | CancelDeadline                             // the deferred cancel() of the shutdown context
    | SyncLogger                                 // the deferred logger.Sync()

  /** What server.Shutdown did: how long it blocked and what it returned. */
  datatype DrainResult = DrainResult(elapsed: nat, err: Option<Err>)

  /** From the signal to the end of the readiness drain delay. */
  function SignalEvents(): seq<Event> {
    [StopSignals, MarkShuttingDown, Sleep(ReadinessDrainDelay)]
  }

  /** The drain and the cancellation of the requests still running. */
  function DrainEvents(d: DrainResult): seq<Event> {
    [ServerShutdown(ShutdownPeriod, d.elapsed), CancelOngoing]
  }

  /** The hard wait after a failed drain, then main's deferred calls, last
      registered first. */
  function ExitEvents(d: DrainResult): seq<Event> {
    (if d.err.Some? then [Sleep(ShutdownHardPeriod)] else []) + [CancelDeadline, StopSignals, SyncLogger]
  }

  /** Everything main has done by the time it reaches phase p. */
  function EventsThrough(p: Phase, d: DrainResult): seq<Event> {
    match p
    case Running => []
    case Draining => SignalEvents()
    case Terminating => SignalEvents() + DrainEvents(d)
    case Exited => SignalEvents() + DrainEvents(d) + ExitEvents(d)
  }

  /** Everything main does from the signal to its return. */
  function Timeline(d: DrainResult): seq<Event> {
    EventsThrough(Exited, d)
  }

  function Count(events: seq<Event>, e: Event): nat {
    if |events| == 0 then 0
    else (if events[0] == e then 1 else 0) + Count(events[1..], e)
  }

  /** Wall-clock time the events take: the sleeps and the drain. */
  function Elapsed(events: seq<Event>): nat {
    if |events| == 0 then 0
    else
      (match events[0]
       case Sleep(s) => s
       case ServerShutdown(_, t) => t
       case _ => 0) + Elapsed(events[1..])
  }

  /* ---------- the handlers and the serving goroutine ---------- */

  /** A plain-text response. */
  datatype Reply = Reply(status: int, text: string)

  /** readinessHandler: 200 "ok" while the flag is false, 503 "shutting down"
      once it is true. */
  function ReadinessReply(shuttingDown: bool): (r: Reply)
    ensures r.status == StatusOK <==> !shuttingDown
    ensures r.status == StatusServiceUnavailable <==> shuttingDown
    ensures r.text == if shuttingDown then "shutting down" else "ok"
  {
    if shuttingDown then Reply(StatusServiceUnavailable, "shutting down") else Reply(StatusOK, "ok")
  }

  /** helloWorldHandler: the greeting when the 2-second timer fires first,
      503 "request canceled" when the request context is done first. */
  function HelloWorldReply(race: Race): (r: Reply)
    ensures r.status == StatusOK <==> race == TimerFired
    ensures race == TimerFired ==> r.text == "Hello, World!"
    ensures race == RequestDone ==> r == Reply(StatusServiceUnavailable, "request canceled")
  {
    match race
    case TimerFired => Reply(StatusOK, "Hello, World!")
    case RequestDone => Reply(StatusServiceUnavailable, "request canceled")
  }

  /** What server.ListenAndServe returned to the serving goroutine. */
  datatype ServeExit = NilError | ServerClosed | ServeFailed(err: Err)

  /** The serving goroutine panics on any error but http.ErrServerClosed. */
  function ServePanics(exit: ServeExit): (panics: bool)
    ensures panics <==> exit.ServeFailed?
  {
    match exit
    case ServeFailed(_) => true
    case _ => false
  }

  /* ---------- the coordinator ---------- */

  /** main's state from the moment the server is started. */
  class Coordinator {
    var phase: Phase
    /** The process-wide isShuttingDown flag. */
    var isShuttingDown: bool
    /** Whether ongoingCtx, the context of every request, is cancelled. */
    var ongoingCancelled: bool
    /** What server.Shutdown returned. */
    var drainErr: Option<Err>
    /** The drain as it happened, once it has. */
    ghost var drain: DrainResult
    /** Everything done since the signal. */
    ghost var events: seq<Event>

    ghost predicate Valid()
      reads this
    {
      && events == EventsThrough(phase, drain)
      && isShuttingDown == (phase != Running)
      && ongoingCancelled == (phase == Terminating || phase == Exited)
      && ((phase == Terminating || phase == Exited) ==> drainErr == drain.err)
    }

    /** The set-up of main: the server serves, the flag is false. */
    constructor ()
      ensures Valid() && phase == Running && !isShuttingDown && !ongoingCancelled && events == []
    {
      phase := Running;
      isShuttingDown := false;
      ongoingCancelled := false;
      drainErr := None;
      drain := DrainResult(0, None);
      events := [];
    }

    /** The signal arrives: stop signal delivery, set the flag, and wait the
        readiness drain delay. */
    method ReceiveSignal()
      requires Valid() && phase == Running
      modifies this
      ensures Valid() && phase == Draining
      ensures isShuttingDown && !ongoingCancelled
      ensures events == old(events) + SignalEvents()
    {
      events := events + [StopSignals];
      isShuttingDown := true;
      events := events + [MarkShuttingDown];
      events := events + [Sleep(ReadinessDrainDelay)];
      phase := Draining;
    }

    /** Drain the server under the shutdown deadline, then cancel the
        requests still running whatever the drain returned. */
    method DrainServer(result: DrainResult) returns (err: Option<Err>)
      requires Valid() && phase == Draining
      modifies this
      ensures Valid() && phase == Terminating
      ensures drain == result && err == result.err
      ensures isShuttingDown && ongoingCancelled
      ensures events == old(events) + DrainEvents(result)
    {
      drain := result;
      events := events + [ServerShutdown(ShutdownPeriod, result.elapsed)];
      drainErr := result.err;
      ongoingCancelled := true;
      events := events + [CancelOngoing];
      phase := Terminating;
      err := drainErr;
    }

    /** Wait the hard period if the drain failed, then return from main. */
    method Exit()
      requires Valid() && phase == Terminating
      modifies this
      ensures Valid() && phase == Exited
      ensures drain == old(drain) && isShuttingDown
      ensures events == old(events) + ExitEvents(drain)
    {
      if drainErr.Some? {
        events := events + [Sleep(ShutdownHardPeriod)];
      }
      events := events + [CancelDeadline];
      events := events + [StopSignals];
      events := events + [SyncLogger];
      phase := Exited;
    }

    /** main from the signal onwards, given what server.Shutdown does. */
    method Run(result: DrainResult) returns (err: Option<Err>)
      requires Valid() && phase == Running
      modifies this
      ensures Valid() && phase == Exited
      ensures err == result.err
      ensures events == Timeline(result)
    {
      ReceiveSignal();
      err := DrainServer(result);
      Exit();
    }

    /** readinessHandler, reading the process-wide flag: 200 "ok" while it
        is false, 503 "shutting down" once it is true. */
    function ReadinessHandler(): (r: Reply)
      reads this
      ensures r.status == StatusOK <==> !isShuttingDown
      ensures r.status == StatusServiceUnavailable <==> isShuttingDown
      ensures r.text == if isShuttingDown then "shutting down" else "ok"
    {
      ReadinessReply(isShuttingDown)
    }
  }

  /* ---------- what the sequence guarantees ---------- */

  lemma {:induction false} CountAppend(a: seq<Event>, b: seq<Event>, e: Event)
    ensures Count(a + b, e) == Count(a, e) + Count(b, e)
  {
    if |a| == 0 {
      assert a + b == b;
    } else {
      assert (a + b)[0] == a[0];
      assert (a + b)[1..] == a[1..] + b;
      CountAppend(a[1..], b, e);
    }
  }

  lemma {:induction false} ElapsedAppend(a: seq<Event>, b: seq<Event>)
    ensures Elapsed(a + b) == Elapsed(a) + Elapsed(b)
  {
    if |a| == 0 {
      assert a + b == b;
    } else {
      assert (a + b)[0] == a[0];
      assert (a + b)[1..] == a[1..] + b;
      ElapsedAppend(a[1..], b);
    }
  }

  lemma {:induction false} CountCons(x: Event, s: seq<Event>, e: Event)
    ensures Count([x] + s, e) == (if x == e then 1 else 0) + Count(s, e)
  {
    assert ([x] + s)[1..] == s;
  }

  lemma {:induction false} ElapsedCons(x: Event, s: seq<Event>)
    ensures Elapsed([x] + s) == Elapsed([x]) + Elapsed(s)
  {
    assert ([x] + s)[1..] == s;
    assert [x][1..] == [];
  }

  /** The flag is stored exactly once, right after signal delivery is
      stopped, whatever the drain does. */
  lemma FlagStoredOnceAfterStop(d: DrainResult)
    ensures Count(Timeline(d), MarkShuttingDown) == 1
    ensures Timeline(d)[0] == StopSignals && Timeline(d)[1] == MarkShuttingDown
  {
    var e := MarkShuttingDown;
    var hard: seq<Event> := if d.err.Some? then [Sleep(ShutdownHardPeriod)] else [];
    var tail := [CancelDeadline, StopSignals, SyncLogger];
    assert Timeline(d) == SignalEvents() + DrainEvents(d) + hard + tail;
    CountAppend(SignalEvents() + DrainEvents(d) + hard, tail, e);
    CountAppend(SignalEvents() + DrainEvents(d), hard, e);
    CountAppend(SignalEvents(), DrainEvents(d), e);
    CountCons(StopSignals, [MarkShuttingDown, Sleep(ReadinessDrainDelay)], e);
    CountCons(MarkShuttingDown, [Sleep(ReadinessDrainDelay)], e);
    CountCons(Sleep(ReadinessDrainDelay), [], e);
    CountCons(ServerShutdown(ShutdownPeriod, d.elapsed), [CancelOngoing], e);
    CountCons(CancelOngoing, [], e);
    if d.err.Some? { CountCons(Sleep(ShutdownHardPeriod), [], e); }
    CountCons(CancelDeadline, [StopSignals, SyncLogger], e);
    CountCons(StopSignals, [SyncLogger], e);
    CountCons(SyncLogger, [], e);
  }

  /** The phases run in a fixed order: flag, readiness delay, drain under
      the 15-second deadline, then cancellation of the running requests,
      which happens whether or not the drain failed. */
  lemma ShutdownOrder(d: DrainResult)
    ensures |Timeline(d)| >= 5
    ensures Timeline(d)[1] == MarkShuttingDown
    ensures Timeline(d)[2] == Sleep(ReadinessDrainDelay)
    ensures Timeline(d)[3] == ServerShutdown(ShutdownPeriod, d.elapsed)
    ensures Timeline(d)[4] == CancelOngoing
  {
  }

  /** The hard wait happens if and only if server.Shutdown returned an error. */
  lemma HardWaitIffDrainFailed(d: DrainResult)
    ensures Sleep(ShutdownHardPeriod) in Timeline(d) <==> d.err.Some?
  {
    if d.err.None? {
      assert Timeline(d) == [StopSignals, MarkShuttingDown, Sleep(ReadinessDrainDelay),
        ServerShutdown(ShutdownPeriod, d.elapsed), CancelOngoing, CancelDeadline, StopSignals, SyncLogger];
    } else {
      assert Timeline(d)[5] == Sleep(ShutdownHardPeriod);
    }
  }

  /** Time from the signal to the return of main: the readiness delay, the
      drain, and the hard period exactly when the drain failed. */
  lemma ShutdownDuration(d: DrainResult)
    ensures Elapsed(Timeline(d)) ==
      ReadinessDrainDelay + d.elapsed + (if d.err.Some? then ShutdownHardPeriod else 0)
  {
    var hard: seq<Event> := if d.err.Some? then [Sleep(ShutdownHardPeriod)] else [];
    var tail := [CancelDeadline, StopSignals, SyncLogger];
    assert Timeline(d) == SignalEvents() + DrainEvents(d) + hard + tail;
    ElapsedAppend(SignalEvents() + DrainEvents(d) + hard, tail);
    ElapsedAppend(SignalEvents() + DrainEvents(d), hard);
    ElapsedAppend(SignalEvents(), DrainEvents(d));
    ElapsedCons(StopSignals, [MarkShuttingDown, Sleep(ReadinessDrainDelay)]);
    ElapsedCons(MarkShuttingDown, [Sleep(ReadinessDrainDelay)]);
    ElapsedCons(ServerShutdown(ShutdownPeriod, d.elapsed), [CancelOngoing]);
    ElapsedCons(CancelDeadline, [StopSignals, SyncLogger]);
    ElapsedCons(StopSignals, [SyncLogger]);
  }

  /** If server.Shutdown keeps to its deadline, main returns at most
      5 + 15 + 3 = 23 seconds after the signal. */
  lemma ShutdownWithinBudget(d: DrainResult)
    requires d.elapsed <= ShutdownPeriod
    ensures Elapsed(Timeline(d)) <= ReadinessDrainDelay + ShutdownPeriod + ShutdownHardPeriod
    ensures Elapsed(Timeline(d)) <= 23
  {
    ShutdownDuration(d);
  }

  /** The readiness endpoint answers 200 exactly while the coordinator has
      not seen the signal, and 503 from then on. */
  lemma ReadinessFollowsPhase(c: Coordinator)
    requires c.Valid()
    ensures c.ReadinessHandler().status == StatusOK <==> c.phase == Running
    ensures c.ReadinessHandler().status == StatusServiceUnavailable <==> c.phase != Running
  {
  }
}
