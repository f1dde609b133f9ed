/**
 * winsvc.go: the stop-timeout default, Init's configuration defaulting, the
 * last-write-wins error box, the end of the workload goroutine with its
 * panic recovery, the Execute control loop and both branches of run.
 *
 * Goroutines, channels, timers and signals are replaced by a trace of
 * events. A `select` takes the first event in the trace that one of its
 * cases waits for and passes over the others: the main Execute loop waits
 * for the workload and for control requests, the stop wait for the workload
 * and the stop timer, the interactive run first for the workload and an
 * interrupt, then for the workload and the stop timer. A trace that runs out
 * before the select is answered leaves the call still waiting.
 */
module Winsvc {
  import opened Errors
  import opened Strconv
  import opened Flags

  // ---------------------------------------------------------------------
  // Durations: Go's time.Duration, int64 nanoseconds.
  // ---------------------------------------------------------------------

  const Millisecond: int := 1_000_000

  /** The stop timeout used when the registry cannot supply one: 20000 ms. */
  const DefaultStopTimeout: int := 20000 * Millisecond

  /**
   * getStopTimeout. `registryValue` is the WaitToKillServiceTimeout string,
   * or None when the Control key cannot be opened or the value cannot be
   * read. A value Atoi accepts is taken as milliseconds (the product wraps
   * as int64 does); anything else gives the 20000 ms default.
   */
  function GetStopTimeout(registryValue: Option<string>): (d: int)
    ensures IsInt64(d)
    ensures registryValue.None? ==> d == DefaultStopTimeout
    ensures registryValue.Some? && Atoi(registryValue.value).None? ==> d == DefaultStopTimeout
    ensures registryValue.Some? && Atoi(registryValue.value).Some? ==>
              d == Wrap64(Millisecond * Atoi(registryValue.value).value)
  {
    match registryValue
    case None => DefaultStopTimeout
    case Some(sv) =>
      match Atoi(sv)
      case None => DefaultStopTimeout
      case Some(v) => Wrap64(Millisecond * v)
  }

  // ---------------------------------------------------------------------
  // Configuration and Init.
  // ---------------------------------------------------------------------

  /** The Config fields the lifecycle reads: the service name and TimeoutStop (nanoseconds). */
  datatype Config = Config(name: string, timeoutStop: int)

  /** Init either ends the process through log.Fatalf (status 1) or goes on with a config and a command. */
  datatype InitResult = InitFatal(logged: Error) | Ready(config: Config, cmd: Command)

  /**
   * Init's defaulting: outside an interactive session the command is forced
   * to run; an empty name is fatal; a zero TimeoutStop becomes the default
   * read at start-up, any other TimeoutStop is kept.
   */
  function InitDefaults(c: Config, cmd: Command, interactive: bool, timeStopDefault: int): (r: InitResult)
    ensures r.InitFatal? <==> c.name == ""
    ensures r.InitFatal? ==> r.logged == ErrEmptyName
    ensures r.Ready? ==> r.cmd == (if interactive then cmd else CmdRun)
    ensures r.Ready? ==> r.config.name == c.name
    ensures r.Ready? && c.timeoutStop == 0 ==> r.config.timeoutStop == timeStopDefault
    ensures r.Ready? && c.timeoutStop != 0 ==> r.config.timeoutStop == c.timeoutStop
  {
    var effective := if interactive then cmd else CmdRun;
    if |c.name| == 0 then InitFatal(ErrEmptyName)
    else if c.timeoutStop == 0 then Ready(c.(timeoutStop := timeStopDefault), effective)
    else Ready(c, effective)
  }

  // ---------------------------------------------------------------------
  // The control-plane messages (golang.org/x/sys/windows/svc).
  // ---------------------------------------------------------------------

  datatype State = Stopped | StartPending | StopPending | Running | ContinuePending | PausePending | Paused

  /** One bit of a Status's Accepts mask. */
  datatype Accept = AcceptStop | AcceptShutdown | AcceptOther(bit: nat)

  datatype Status = Status(state: State, accepts: set<Accept>)

  /** A ChangeRequest's Cmd: the three the loop looks at, and every other command. */
  datatype Control = Interrogate | Stop | Shutdown | OtherControl(code: nat)

  datatype ChangeRequest = ChangeRequest(cmd: Control, currentStatus: Status)

  const CmdAccepted: set<Accept> := {AcceptStop, AcceptShutdown}
  const StartPendingStatus: Status := Status(StartPending, {})
  const RunningStatus: Status := Status(Running, CmdAccepted)
  const StopPendingStatus: Status := Status(StopPending, {})

  /** The two reports Execute sends before it looks at any request. */
  const Prologue: seq<Status> := [StartPendingStatus, RunningStatus]

  // ---------------------------------------------------------------------
  // The workload and the events of a trace.
  // ---------------------------------------------------------------------

  /** How the run function ends: it returns an error (nil is None), or it panics. */
  datatype WorkloadEnd = Return(err: Option<Error>) | Panic

  datatype Event =
    | Ended(end: WorkloadEnd)     // the workload goroutine has ended (finishRun is done)
    | Request(req: ChangeRequest) // a change request arrives on r
    | Interrupt                   // os.Interrupt or SIGTERM arrives on sig
    | TimerFired                  // the stop timer, time.After(TimeoutStop), fires

  /** Events a select of the main Execute loop answers. */
  predicate Decides(e: Event) {
    e.Ended? || (e.Request? && (e.req.cmd == Stop || e.req.cmd == Shutdown))
  }

  /** Events that end a wait on the workload bounded by the stop timer. */
  predicate EndsWait(e: Event) {
    e.Ended? || e.TimerFired?
  }

  /** recoverer after a panic: swallowed once the context is cancelled, os.Exit(2) before. */
  datatype PanicDisposition = Swallowed | ExitProcess(code: nat)

  function Recoverer(cancelled: bool): (d: PanicDisposition)
    ensures d == Swallowed <==> cancelled
    ensures d.ExitProcess? ==> d.code == 2
  {
    if cancelled then Swallowed else ExitProcess(2)
  }

  /** How the workload goroutine ends: finishRun is signalled, or the process exits. */
  datatype Completion = Finished | Exited(code: nat)

  /**
   * The goroutine ends by signalling finishRun when the run function
   * returned, or when it panicked after cancellation; a panic before
   * cancellation exits the process with status 2.
   */
  function CompletionOf(end: WorkloadEnd, cancelled: bool): (c: Completion)
    ensures c == Finished <==> end.Return? || cancelled
    ensures c.Exited? ==> c.code == 2
  {
    match end
    case Return(_) => Finished
    case Panic =>
      match Recoverer(cancelled)
      case Swallowed => Finished
      case ExitProcess(code) => Exited(code)
  }

  /** The stored error after the goroutine: setError is reached only when the run function returns. */
  function ErrorAfter(end: WorkloadEnd, stored: Option<Error>): (r: Option<Error>)
    ensures end.Return? ==> r == end.err
    ensures end.Panic? ==> r == stored
  {
    match end
    case Return(err) => err
    case Panic => stored
  }

  // ---------------------------------------------------------------------
  // Execute, as a function of the trace.
  // ---------------------------------------------------------------------

  /** What Execute does: return its (svcSpecificEC, exitCode) pair, end the process, or keep waiting. */
  datatype ExecOutcome = Returns(svcSpecificExitCode: bool, exitCode: nat) | ProcessExit(code: nat) | StillWaiting

  /** The reports Execute sends on `changes`, what it does, and the state it leaves behind. */
  datatype ExecRun = ExecRun(reports: seq<Status>, outcome: ExecOutcome, cancelled: bool, stored: Option<Error>)

  function Emit(sts: seq<Status>, r: ExecRun): ExecRun {
    r.(reports := sts + r.reports)
  }

  /** The outcome once the workload goroutine completes, given the pair Execute would return. */
  function Outcome(c: Completion, svcSpecificExitCode: bool, exitCode: nat): ExecOutcome {
    match c
    case Finished => Returns(svcSpecificExitCode, exitCode)
    case Exited(code) => ProcessExit(code)
  }

  /** Execute from the start of the trace: the prologue, then the request loop. */
  function Executed(trace: seq<Event>, cancelled: bool, stored: Option<Error>): (r: ExecRun)
    ensures |r.reports| >= 2 && r.reports[..2] == Prologue
  {
    Emit(Prologue, Listen(trace, cancelled, stored))
  }

  /** The request loop: one select per iteration, over finishRun and r. */
  function Listen(trace: seq<Event>, cancelled: bool, stored: Option<Error>): ExecRun
    decreases |trace|
  {
    if trace == [] then ExecRun([], StillWaiting, cancelled, stored)
    else
      match trace[0]
      case Ended(end) =>
        ExecRun([], Outcome(CompletionOf(end, cancelled), true, 1), cancelled, ErrorAfter(end, stored))
      case Request(req) =>
        (match req.cmd
         case Interrogate => Emit([req.currentStatus], Listen(trace[1..], cancelled, stored))
         case Stop => Emit([StopPendingStatus], AwaitStop(trace[1..], stored))
         case Shutdown => Emit([StopPendingStatus], AwaitStop(trace[1..], stored))
         case OtherControl(_) => Listen(trace[1..], cancelled, stored))
      case Interrupt => Listen(trace[1..], cancelled, stored)
      case TimerFired => Listen(trace[1..], cancelled, stored)
  }

  /** After cancelSvc: one select over finishRun and the stop timer, then Execute returns (false, 0). */
  function AwaitStop(trace: seq<Event>, stored: Option<Error>): ExecRun
    decreases |trace|
  {
    if trace == [] then ExecRun([], StillWaiting, true, stored)
    else
      match trace[0]
      case Ended(end) =>
        ExecRun([], Outcome(CompletionOf(end, true), false, 0), true, ErrorAfter(end, stored))
      case TimerFired => ExecRun([], Returns(false, 0), true, stored)
      case Request(_) => AwaitStop(trace[1..], stored)
      case Interrupt => AwaitStop(trace[1..], stored)
  }

  // ---------------------------------------------------------------------
  // run, as a function of the trace.
  // ---------------------------------------------------------------------

  /** What run does: return an error (nil is None), end the process, or keep waiting. */
  datatype RunResult = RunReturned(err: Option<Error>) | RunExit(code: nat) | RunWaiting

  /** The interactive run: its result, whether it cancelled the workload, and the stored error. */
  datatype Session = Session(result: RunResult, cancelled: bool, stored: Option<Error>)

  /** The session once the workload goroutine completes: run returns getError(). */
  function Settle(c: Completion, cancelled: bool, stored: Option<Error>): Session {
    match c
    case Finished => Session(RunReturned(stored), cancelled, stored)
    case Exited(code) => Session(RunExit(code), cancelled, stored)
  }

  /**
   * The interactive branch's first select, over sig and finishRun. When the
   * workload ends first the second select is answered at once by finishRun.
   */
  function AwaitSignal(trace: seq<Event>, stored: Option<Error>): Session
    decreases |trace|
  {
    if trace == [] then Session(RunWaiting, false, stored)
    else
      match trace[0]
      case Interrupt => AwaitFinish(trace[1..], stored)
      case Ended(end) => Settle(CompletionOf(end, false), false, ErrorAfter(end, stored))
      case Request(_) => AwaitSignal(trace[1..], stored)
      case TimerFired => AwaitSignal(trace[1..], stored)
  }

  /** The second select after cancelSvc, over finishRun and the stop timer. */
  function AwaitFinish(trace: seq<Event>, stored: Option<Error>): Session
    decreases |trace|
  {
    if trace == [] then Session(RunWaiting, true, stored)
    else
      match trace[0]
      case Ended(end) => Settle(CompletionOf(end, true), true, ErrorAfter(end, stored))
      case TimerFired => Session(RunReturned(stored), true, stored)
      case Request(_) => AwaitFinish(trace[1..], stored)
      case Interrupt => AwaitFinish(trace[1..], stored)
  }

  /**
   * run with a manager present. Outside an interactive session svc.Run
   * either fails to connect to the service manager (`dispatched` false)
   * and yields `dispatchErr` without calling Execute, or hands the trace to
   * Execute and, once Execute returns, yields `dispatchErr`. Either way run
   * prefers the stored workload error to it.
   */
  function RunOutcome(interactive: bool, dispatched: bool, trace: seq<Event>, stored: Option<Error>, dispatchErr: Option<Error>): RunResult {
    if interactive then AwaitSignal(trace, stored).result
    else if !dispatched then RunReturned(if stored.Some? then stored else dispatchErr)
    else
      var e := Executed(trace, false, stored);
      match e.outcome
      case Returns(_, _) => RunReturned(if e.stored.Some? then e.stored else dispatchErr)
      case ProcessExit(code) => RunExit(code)
      case StillWaiting => RunWaiting
  }

  // ---------------------------------------------------------------------
  // The state the source updates in place.
  // ---------------------------------------------------------------------

  /** errorSvc: the error box the workload goroutine writes and run reads. */
  class ErrorBox {
    var err: Option<Error>

    /** Init creates the box holding nil. */
    constructor ()
      ensures err == None
    {
      err := None;
    }

    /** setError: the new value replaces the old one, whatever it was. */
    method Set(e: Option<Error>)
      modifies this
      ensures err == e
    {
      err := e;
    }

    /** getError: the value of the most recent Set. */
    method Get() returns (e: Option<Error>)
      ensures e == err
    {
      e := err;
    }
  }

  /** manager: the configuration, whether ctxSvc has been cancelled, and the error box. */
  class Manager {
    var config: Config
    var cancelled: bool
    const errBox: ErrorBox

    constructor (c: Config)
      ensures config == c && !cancelled
      ensures fresh(errBox) && errBox.err == None
    {
      config := c;
      cancelled := false;
      errBox := new ErrorBox();
    }

    /**
     * The tail of runFuncWithNotify's goroutine: setError with the run
     * function's result, or, after a panic, recoverer.
     */
    method CompleteWorkload(end: WorkloadEnd) returns (c: Completion)
      modifies errBox
      ensures c == CompletionOf(end, cancelled)
      ensures errBox.err == ErrorAfter(end, old(errBox.err))
    {
      match end
      case Return(err) =>
        errBox.Set(err);
        c := Finished;
      case Panic =>
        match Recoverer(cancelled) {
          case Swallowed => c := Finished;
          case ExitProcess(code) => c := Exited(code);
        }
    }

    /** Execute: the status reports it sends, and what it does, for a trace of events. */
    method Execute(trace: seq<Event>) returns (reports: seq<Status>, outcome: ExecOutcome)
      modifies this, errBox
      ensures config == old(config)
      ensures reports == Executed(trace, old(cancelled), old(errBox.err)).reports
      ensures outcome == Executed(trace, old(cancelled), old(errBox.err)).outcome
      ensures cancelled == Executed(trace, old(cancelled), old(errBox.err)).cancelled
      ensures errBox.err == Executed(trace, old(cancelled), old(errBox.err)).stored
    {
      ghost var c0, s0 := cancelled, errBox.err;
      reports := [StartPendingStatus];
      // runFuncWithNotify starts the workload here.
      reports := reports + [RunningStatus];
      var i := 0;
      while i < |trace| && !Decides(trace[i])
        invariant 0 <= i <= |trace|
        invariant cancelled == c0 && errBox.err == s0
        invariant Executed(trace, c0, s0) == Emit(reports, Listen(trace[i..], c0, s0))
      {
        assert trace[i..][1..] == trace[i + 1..];
        if trace[i].Request? && trace[i].req.cmd == Interrogate {
          reports := reports + [trace[i].req.currentStatus];
        }
        i := i + 1;
      }
      if i == |trace| {
        outcome := StillWaiting;
        return;
      }
      if trace[i].Ended? {
        var c := CompleteWorkload(trace[i].end);
        outcome := Outcome(c, true, 1);
        return;
      }
      // Stop or Shutdown
      assert trace[i..][1..] == trace[i + 1..];
      reports := reports + [StopPendingStatus];
      cancelled := true;
      var j := i + 1;
      while j < |trace| && !EndsWait(trace[j])
        invariant i + 1 <= j <= |trace|
        invariant cancelled && errBox.err == s0
        invariant Executed(trace, c0, s0) == Emit(reports, AwaitStop(trace[j..], s0))
      {
        assert trace[j..][1..] == trace[j + 1..];
        j := j + 1;
      }
      if j == |trace| {
        outcome := StillWaiting;
      } else if trace[j].TimerFired? {
        outcome := Returns(false, 0);
      } else {
        var c := CompleteWorkload(trace[j].end);
        outcome := Outcome(c, false, 0);
      }
    }
  }

  /**
   * Init: apply the defaults and, unless that is fatal, create the manager
   * with an empty error box. It hands back the command it would dispatch.
   */
  method Init(c: Config, cmd: Command, interactive: bool, timeStopDefault: int) returns (r: InitResult, svcMan: Manager?)
    ensures r == InitDefaults(c, cmd, interactive, timeStopDefault)
    ensures r.InitFatal? ==> svcMan == null
    ensures r.Ready? ==> svcMan != null && fresh(svcMan) && fresh(svcMan.errBox)
    ensures r.Ready? ==> svcMan.config == r.config && !svcMan.cancelled && svcMan.errBox.err == None
  {
    r := InitDefaults(c, cmd, interactive, timeStopDefault);
    svcMan := null;
    if r.Ready? {
      svcMan := new Manager(r.config);
    }
  }

  /**
   * run: errSvcInit without a manager; otherwise a fresh context, then the
   * managed branch (svc.Run driving Execute) or the interactive branch.
   */
  method Run(svcMan: Manager?, interactive: bool, dispatched: bool, trace: seq<Event>, dispatchErr: Option<Error>) returns (res: RunResult)
    modifies if svcMan == null then {} else {svcMan, svcMan.errBox}
    ensures svcMan == null ==> res == RunReturned(Some(ErrSvcInit))
    ensures svcMan != null ==> svcMan.config == old(svcMan.config)
    ensures svcMan != null ==> res == RunOutcome(interactive, dispatched, trace, old(svcMan.errBox.err), dispatchErr)
    ensures svcMan != null && interactive ==>
              svcMan.cancelled == AwaitSignal(trace, old(svcMan.errBox.err)).cancelled &&
              svcMan.errBox.err == AwaitSignal(trace, old(svcMan.errBox.err)).stored
    ensures svcMan != null && !interactive && !dispatched ==>
              !svcMan.cancelled && svcMan.errBox.err == old(svcMan.errBox.err)
    ensures svcMan != null && !interactive && dispatched ==>
              svcMan.cancelled == Executed(trace, false, old(svcMan.errBox.err)).cancelled &&
              svcMan.errBox.err == Executed(trace, false, old(svcMan.errBox.err)).stored
  {
    if svcMan == null {
      return RunReturned(Some(ErrSvcInit));
    }
    ghost var s0 := svcMan.errBox.err;
    svcMan.cancelled := false;
    if !interactive && !dispatched {
      // svc.Run could not connect to the service manager
      var errSvc := svcMan.errBox.Get();
      return RunReturned(if errSvc.Some? then errSvc else dispatchErr);
    }
    if !interactive {
      var _, outcome := svcMan.Execute(trace);
      var errSvc := svcMan.errBox.Get();
      match outcome {
        case Returns(_, _) => res := RunReturned(if errSvc.Some? then errSvc else dispatchErr);
        case ProcessExit(code) => res := RunExit(code);
        case StillWaiting => res := RunWaiting;
      }
      return;
    }
    // first select: sig or finishRun
    var i := 0;
    while i < |trace| && !(trace[i].Interrupt? || trace[i].Ended?)
      invariant 0 <= i <= |trace|
      invariant !svcMan.cancelled && svcMan.errBox.err == s0
      invariant AwaitSignal(trace, s0) == AwaitSignal(trace[i..], s0)
    {
      assert trace[i..][1..] == trace[i + 1..];
      i := i + 1;
    }
    if i == |trace| {
      return RunWaiting;
    }
    if trace[i].Ended? {
      var c := svcMan.CompleteWorkload(trace[i].end);
      if c.Exited? {
        return RunExit(c.code);
      }
      // second select: finishRun is already done
      var e := svcMan.errBox.Get();
      return RunReturned(e);
    }
    assert trace[i..][1..] == trace[i + 1..];
    svcMan.cancelled := true;
    // second select: finishRun or the stop timer
    var j := i + 1;
    while j < |trace| && !EndsWait(trace[j])
      invariant i + 1 <= j <= |trace|
      invariant svcMan.cancelled && svcMan.errBox.err == s0
      invariant AwaitSignal(trace, s0) == AwaitFinish(trace[j..], s0)
    {
      assert trace[j..][1..] == trace[j + 1..];
      j := j + 1;
    }
    if j == |trace| {
      return RunWaiting;
    }
    if trace[j].Ended? {
      // the context is cancelled, so a panic is swallowed here
      var _ := svcMan.CompleteWorkload(trace[j].end);
    }
    var e := svcMan.errBox.Get();
    res := RunReturned(e);
  }
}
