/**
 * What the lifecycle of winsvc.go promises, proved of the functions that
 * specify Execute, run and the configuration defaults.
 */
module WinsvcProperties {
  import opened Errors
  import opened Strconv
  import opened Flags
  import opened Winsvc

  // ---------------------------------------------------------------------
  // Configuration.
  // ---------------------------------------------------------------------

  /** A WaitToKillServiceTimeout written as a decimal number of milliseconds is read back as that duration. */
  lemma StopTimeoutFromRegistry(ms: int)
    requires IsInt64(ms * Millisecond)
    ensures GetStopTimeout(Some(Itoa(ms))) == ms * Millisecond
  {
    assert IsInt64(ms) by {
      if ms >= 0 {
        assert ms <= ms * Millisecond;
      } else {
        assert ms * Millisecond <= ms;
      }
    }
    AtoiItoa(ms);
  }

  /** Applying Init's defaults to what they produced changes nothing. */
  lemma InitDefaultsIdempotent(c: Config, cmd: Command, interactive: bool, timeStopDefault: int)
    requires InitDefaults(c, cmd, interactive, timeStopDefault).Ready?
    ensures var r := InitDefaults(c, cmd, interactive, timeStopDefault);
            InitDefaults(r.config, r.cmd, interactive, timeStopDefault) == r
  {
  }

  // ---------------------------------------------------------------------
  // Execute.
  // ---------------------------------------------------------------------

  /** The reports an event sends back in the request loop: the current status of an Interrogate, nothing otherwise. */
  function EchoOf(e: Event): seq<Status> {
    if e.Request? && e.req.cmd == Interrogate then [e.req.currentStatus] else []
  }

  function Echoes(trace: seq<Event>): seq<Status> {
    if trace == [] then [] else EchoOf(trace[0]) + Echoes(trace[1..])
  }

  function Repeat<T>(x: T, n: nat): seq<T> {
    if n == 0 then [] else [x] + Repeat(x, n - 1)
  }

  lemma EmitEmit(a: seq<Status>, b: seq<Status>, r: ExecRun)
    ensures Emit(a, Emit(b, r)) == Emit(a + b, r)
  {
    assert a + (b + r.reports) == (a + b) + r.reports;
  }

  /** One iteration of the request loop on an event that does not end it. */
  lemma ListenStep(trace: seq<Event>, cancelled: bool, stored: Option<Error>)
    requires trace != [] && !Decides(trace[0])
    ensures Listen(trace, cancelled, stored) == Emit(EchoOf(trace[0]), Listen(trace[1..], cancelled, stored))
  {
    var r := Listen(trace[1..], cancelled, stored);
    assert Emit([], r) == r;
  }

  /**
   * Until the first Stop, Shutdown or workload end, the request loop sends
   * back exactly the Interrogate statuses, keeps the state and goes on.
   */
  lemma {:induction false} ListenUndecided(trace: seq<Event>, k: nat, cancelled: bool, stored: Option<Error>)
    requires k <= |trace|
    requires forall j :: 0 <= j < k ==> !Decides(trace[j])
    ensures Listen(trace, cancelled, stored) == Emit(Echoes(trace[..k]), Listen(trace[k..], cancelled, stored))
  {
    var r := Listen(trace[k..], cancelled, stored);
    if k == 0 {
      assert trace[..0] == [] && trace[0..] == trace;
      assert Emit([], r) == r;
    } else {
      var prefix := trace[..k];
      assert prefix[0] == trace[0] && prefix[1..] == trace[1..][..k - 1];
      assert Echoes(prefix) == EchoOf(trace[0]) + Echoes(trace[1..][..k - 1]);
      assert trace[1..][k - 1..] == trace[k..];
      ListenStep(trace, cancelled, stored);
      ListenUndecided(trace[1..], k - 1, cancelled, stored);
      EmitEmit(EchoOf(trace[0]), Echoes(trace[1..][..k - 1]), r);
    }
  }

  /** Interrogating N times in Running yields N copies of the status and leaves the loop where it was. */
  lemma {:induction false} RepeatedInterrogate(n: nat, st: Status, rest: seq<Event>, cancelled: bool, stored: Option<Error>)
    ensures Listen(Repeat(Request(ChangeRequest(Interrogate, st)), n) + rest, cancelled, stored)
            == Emit(Repeat(st, n), Listen(rest, cancelled, stored))
  {
    var e := Request(ChangeRequest(Interrogate, st));
    if n == 0 {
      assert Repeat(e, 0) + rest == rest;
      assert Emit([], Listen(rest, cancelled, stored)) == Listen(rest, cancelled, stored);
    } else {
      var t := Repeat(e, n) + rest;
      assert t[0] == e && t[1..] == Repeat(e, n - 1) + rest;
      ListenStep(t, cancelled, stored);
      RepeatedInterrogate(n - 1, st, rest, cancelled, stored);
      EmitEmit([st], Repeat(st, n - 1), Listen(rest, cancelled, stored));
    }
  }

  /** With no Stop, Shutdown or workload end in the trace, Execute is still waiting, having sent the prologue and the echoes. */
  lemma UndecidedTraceWaits(trace: seq<Event>, cancelled: bool, stored: Option<Error>)
    requires forall j :: 0 <= j < |trace| ==> !Decides(trace[j])
    ensures Executed(trace, cancelled, stored) == ExecRun(Prologue + Echoes(trace), StillWaiting, cancelled, stored)
  {
    ListenUndecided(trace, |trace|, cancelled, stored);
    assert trace[..|trace|] == trace;
  }

  /**
   * A workload that returns before any Stop or Shutdown is an unexpected
   * exit: Execute returns (true, 1), sends no StopPending and stores the
   * workload's error.
   */
  lemma EarlyReturnIsFailure(trace: seq<Event>, k: nat, err: Option<Error>, cancelled: bool, stored: Option<Error>)
    requires k < |trace| && trace[k] == Ended(Return(err))
    requires forall j :: 0 <= j < k ==> !Decides(trace[j])
    ensures Executed(trace, cancelled, stored) == ExecRun(Prologue + Echoes(trace[..k]), Returns(true, 1), cancelled, err)
  {
    ListenUndecided(trace, k, cancelled, stored);
  }

  /**
   * A workload that panics before any Stop or Shutdown, under a context not
   * yet cancelled, ends the process with status 2; the stored error keeps
   * its prior value.
   */
  lemma EarlyPanicExits(trace: seq<Event>, k: nat, stored: Option<Error>)
    requires k < |trace| && trace[k] == Ended(Panic)
    requires forall j :: 0 <= j < k ==> !Decides(trace[j])
    ensures Executed(trace, false, stored) == ExecRun(Prologue + Echoes(trace[..k]), ProcessExit(2), false, stored)
  {
    ListenUndecided(trace, k, false, stored);
  }

  /** On the first Stop or Shutdown, Execute sends StopPending once, cancels, and waits on the rest of the trace. */
  lemma StopRequested(trace: seq<Event>, k: nat, cancelled: bool, stored: Option<Error>)
    requires k < |trace| && trace[k].Request? && (trace[k].req.cmd == Stop || trace[k].req.cmd == Shutdown)
    requires forall j :: 0 <= j < k ==> !Decides(trace[j])
    ensures Executed(trace, cancelled, stored)
            == Emit(Prologue + Echoes(trace[..k]) + [StopPendingStatus], AwaitStop(trace[k + 1..], stored))
  {
    ListenUndecided(trace, k, cancelled, stored);
    var t := trace[k..];
    assert t[0] == trace[k] && t[1..] == trace[k + 1..];
    var r := AwaitStop(trace[k + 1..], stored);
    assert Listen(t, cancelled, stored) == Emit([StopPendingStatus], r);
    EmitEmit(Echoes(trace[..k]), [StopPendingStatus], r);
    EmitEmit(Prologue, Echoes(trace[..k]) + [StopPendingStatus], r);
    EmitEmit(Prologue, Echoes(trace[..k]), Emit([StopPendingStatus], r));
    assert Prologue + (Echoes(trace[..k]) + [StopPendingStatus]) == Prologue + Echoes(trace[..k]) + [StopPendingStatus];
  }

  /**
   * The stop wait ends at the first workload end or timer: Execute returns
   * (false, 0) either way, a panic being swallowed, and the stored error is
   * the workload's when it returned first and the prior one otherwise.
   */
  lemma {:induction false} AwaitStopFirstEnd(trace: seq<Event>, m: nat, stored: Option<Error>)
    requires m < |trace| && EndsWait(trace[m])
    requires forall j :: 0 <= j < m ==> !EndsWait(trace[j])
    ensures AwaitStop(trace, stored)
            == ExecRun([], Returns(false, 0), true, if trace[m].Ended? then ErrorAfter(trace[m].end, stored) else stored)
  {
    if m > 0 {
      assert trace[1..][m - 1] == trace[m];
      AwaitStopFirstEnd(trace[1..], m - 1, stored);
    }
  }

  /** Without a workload end or a timer, the stop wait is still waiting, its state unchanged. */
  lemma {:induction false} AwaitStopNoEnd(trace: seq<Event>, stored: Option<Error>)
    requires forall j :: 0 <= j < |trace| ==> !EndsWait(trace[j])
    ensures AwaitStop(trace, stored) == ExecRun([], StillWaiting, true, stored)
  {
    if trace != [] {
      assert forall j :: 0 <= j < |trace| - 1 ==> trace[1..][j] == trace[j + 1];
      AwaitStopNoEnd(trace[1..], stored);
    }
  }

  /**
   * After a Stop or Shutdown, Execute never makes the process exit: it
   * returns (false, 0) exactly when the workload ends or the timer fires
   * later in the trace, and otherwise is still waiting.
   */
  lemma StopIsOrderly(trace: seq<Event>, k: nat, cancelled: bool, stored: Option<Error>)
    requires k < |trace| && trace[k].Request? && (trace[k].req.cmd == Stop || trace[k].req.cmd == Shutdown)
    requires forall j :: 0 <= j < k ==> !Decides(trace[j])
    ensures Executed(trace, cancelled, stored).cancelled
    ensures Executed(trace, cancelled, stored).outcome == Returns(false, 0) || Executed(trace, cancelled, stored).outcome == StillWaiting
    ensures Executed(trace, cancelled, stored).outcome == Returns(false, 0) <==> exists j :: k < j < |trace| && EndsWait(trace[j])
  {
    StopRequested(trace, k, cancelled, stored);
    var rest := trace[k + 1..];
    if exists j :: k < j < |trace| && EndsWait(trace[j]) {
      var m := FirstEndsWait(trace, k + 1);
      assert forall j :: 0 <= j < m - (k + 1) ==> rest[j] == trace[j + k + 1];
      AwaitStopFirstEnd(rest, m - (k + 1), stored);
    } else {
      assert forall j :: 0 <= j < |rest| ==> rest[j] == trace[j + k + 1];
      AwaitStopNoEnd(rest, stored);
    }
  }

  /** The first index at or after `from` whose event ends a stop wait. */
  function FirstEndsWait(trace: seq<Event>, from: nat): (m: nat)
    requires from <= |trace|
    requires exists j :: from <= j < |trace| && EndsWait(trace[j])
    ensures from <= m < |trace| && EndsWait(trace[m])
    ensures forall j :: from <= j < m ==> !EndsWait(trace[j])
    decreases |trace| - from
  {
    if EndsWait(trace[from]) then from else FirstEndsWait(trace, from + 1)
  }

  // ---------------------------------------------------------------------
  // run.
  // ---------------------------------------------------------------------

  /** An interrupt is seen at k, before the workload has ended. */
  ghost predicate InterruptFirst(trace: seq<Event>) {
    exists k :: 0 <= k < |trace| && trace[k].Interrupt? && forall j :: 0 <= j < k ==> !trace[j].Ended?
  }

  lemma {:induction false} AwaitFinishCancelled(trace: seq<Event>, stored: Option<Error>)
    ensures AwaitFinish(trace, stored).cancelled
  {
    if trace != [] && !EndsWait(trace[0]) {
      AwaitFinishCancelled(trace[1..], stored);
    }
  }

  /** The interactive run cancels the workload exactly when the interrupt arrives before the workload ends. */
  lemma {:induction false} CancelsIffInterruptFirst(trace: seq<Event>, stored: Option<Error>)
    ensures AwaitSignal(trace, stored).cancelled <==> InterruptFirst(trace)
  {
    if trace == [] {
    } else if trace[0].Interrupt? {
      AwaitFinishCancelled(trace[1..], stored);
      assert trace[0].Interrupt?;
    } else if trace[0].Ended? {
      assert !InterruptFirst(trace);
    } else {
      CancelsIffInterruptFirst(trace[1..], stored);
      var tail := trace[1..];
      if InterruptFirst(tail) {
        var k :| 0 <= k < |tail| && tail[k].Interrupt? && forall j :: 0 <= j < k ==> !tail[j].Ended?;
        assert trace[k + 1].Interrupt?;
        assert forall j :: 0 <= j < k + 1 ==> !trace[j].Ended? by {
          forall j | 0 <= j < k + 1 ensures !trace[j].Ended? {
            if j > 0 { assert trace[j] == tail[j - 1]; }
          }
        }
      }
      if InterruptFirst(trace) {
        var k :| 0 <= k < |trace| && trace[k].Interrupt? && forall j :: 0 <= j < k ==> !trace[j].Ended?;
        assert k > 0;
        assert tail[k - 1].Interrupt?;
        assert forall j :: 0 <= j < k - 1 ==> !tail[j].Ended? by {
          forall j | 0 <= j < k - 1 ensures !tail[j].Ended? {
            assert tail[j] == trace[j + 1];
          }
        }
      }
    }
  }

  /** The first select of the interactive run passes over everything but an interrupt or the workload's end. */
  lemma {:induction false} AwaitSignalSkips(trace: seq<Event>, k: nat, stored: Option<Error>)
    requires k <= |trace|
    requires forall j :: 0 <= j < k ==> !(trace[j].Interrupt? || trace[j].Ended?)
    ensures AwaitSignal(trace, stored) == AwaitSignal(trace[k..], stored)
  {
    if k > 0 {
      assert trace[1..][k - 1..] == trace[k..];
      AwaitSignalSkips(trace[1..], k - 1, stored);
    }
  }

  /**
   * A workload that returns before any interrupt: run does not cancel it and
   * returns the error the workload returned.
   */
  lemma WorkloadReturnsFirst(trace: seq<Event>, k: nat, err: Option<Error>, stored: Option<Error>)
    requires k < |trace| && trace[k] == Ended(Return(err))
    requires forall j :: 0 <= j < k ==> !(trace[j].Interrupt? || trace[j].Ended?)
    ensures AwaitSignal(trace, stored) == Session(RunReturned(err), false, err)
  {
    AwaitSignalSkips(trace, k, stored);
  }

  /** A workload that panics before any interrupt ends the process with status 2, the stored error untouched. */
  lemma WorkloadPanicsFirst(trace: seq<Event>, k: nat, stored: Option<Error>)
    requires k < |trace| && trace[k] == Ended(Panic)
    requires forall j :: 0 <= j < k ==> !(trace[j].Interrupt? || trace[j].Ended?)
    ensures AwaitSignal(trace, stored) == Session(RunExit(2), false, stored)
  {
    AwaitSignalSkips(trace, k, stored);
  }

  /**
   * After an interrupt the run waits for the workload or the timer,
   * whichever comes first, and then returns the stored error: the
   * workload's when it returned, the prior one after a timeout or a
   * swallowed panic. It never ends the process.
   */
  lemma {:induction false} AwaitFinishFirstEnd(trace: seq<Event>, m: nat, stored: Option<Error>)
    requires m < |trace| && EndsWait(trace[m])
    requires forall j :: 0 <= j < m ==> !EndsWait(trace[j])
    ensures var st := if trace[m].Ended? then ErrorAfter(trace[m].end, stored) else stored;
            AwaitFinish(trace, stored) == Session(RunReturned(st), true, st)
  {
    if m > 0 {
      assert trace[1..][m - 1] == trace[m];
      AwaitFinishFirstEnd(trace[1..], m - 1, stored);
    }
  }

  /** After an interrupt at k, the run goes on with the second select over the rest of the trace. */
  lemma InterruptedRun(trace: seq<Event>, k: nat, stored: Option<Error>)
    requires k < |trace| && trace[k] == Interrupt
    requires forall j :: 0 <= j < k ==> !(trace[j].Interrupt? || trace[j].Ended?)
    ensures AwaitSignal(trace, stored) == AwaitFinish(trace[k + 1..], stored)
  {
    AwaitSignalSkips(trace, k, stored);
    assert trace[k..][1..] == trace[k + 1..];
  }

  /** Under the service manager, a stop followed by the workload returning an error makes run return that error. */
  lemma ManagedStopReturnsWorkloadError(trace: seq<Event>, k: nat, m: nat, e: Error, stored: Option<Error>, dispatchErr: Option<Error>)
    requires k < m < |trace|
    requires trace[k].Request? && (trace[k].req.cmd == Stop || trace[k].req.cmd == Shutdown)
    requires forall j :: 0 <= j < k ==> !Decides(trace[j])
    requires trace[m] == Ended(Return(Some(e)))
    requires forall j :: k < j < m ==> !EndsWait(trace[j])
    ensures RunOutcome(false, true, trace, stored, dispatchErr) == RunReturned(Some(e))
  {
    StopRequested(trace, k, false, stored);
    var rest := trace[k + 1..];
    assert rest[m - (k + 1)] == trace[m];
    assert forall j :: 0 <= j < m - (k + 1) ==> rest[j] == trace[j + k + 1];
    AwaitStopFirstEnd(rest, m - (k + 1), stored);
  }

  /**
   * Outside an interactive session, when svc.Run cannot connect to the
   * service manager, run returns svc.Run's error as long as the box Init
   * created is still empty; a stored workload error would win.
   */
  lemma UndispatchedRunReturnsDispatchError(trace: seq<Event>, stored: Option<Error>, dispatchErr: Option<Error>)
    ensures stored.None? ==> RunOutcome(false, false, trace, stored, dispatchErr) == RunReturned(dispatchErr)
    ensures stored.Some? ==> RunOutcome(false, false, trace, stored, dispatchErr) == RunReturned(stored)
  {
  }

  // The three scenarios of winsvc_test.go, in an interactive session, from the error box Init creates.

  /** TestRunInterrupt: an interrupt, then the workload returns nil once cancelled. */
  lemma RunInterruptScenario(dispatchErr: Option<Error>)
    ensures RunOutcome(true, true, [Interrupt, Ended(Return(None))], None, dispatchErr) == RunReturned(None)
    ensures AwaitSignal([Interrupt, Ended(Return(None))], None).cancelled
  {
    InterruptedRun([Interrupt, Ended(Return(None))], 0, None);
  }

  /** TestRunCancelFunc: the workload returns nil at once; run returns nil without cancelling it. */
  lemma RunCancelFuncScenario(dispatchErr: Option<Error>)
    ensures RunOutcome(true, true, [Ended(Return(None))], None, dispatchErr) == RunReturned(None)
    ensures !AwaitSignal([Ended(Return(None))], None).cancelled
  {
    WorkloadReturnsFirst([Ended(Return(None))], 0, None, None);
  }

  /** TestReturnError: the workload returns "test error" at once; run returns that error. */
  lemma ReturnErrorScenario(dispatchErr: Option<Error>)
    ensures RunOutcome(true, true, [Ended(Return(Some(Message("test error"))))], None, dispatchErr)
            == RunReturned(Some(Message("test error")))
  {
    WorkloadReturnsFirst([Ended(Return(Some(Message("test error"))))], 0, Some(Message("test error")), None);
  }
}
