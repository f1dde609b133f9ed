# winsvc service lifecycle, modelled in Dafny

This project models the lifecycle core of `winsvc`. That is the Go package
that lets a program run as a Windows service. The model covers:

- `Execute`, the handler the service control manager calls. It sends the
  StartPending and Running reports. Then it answers Interrogate, Stop and
  Shutdown requests, cancels the workload on a stop, and waits for the
  workload or the stop timer, whichever comes first.
- The workload goroutine started by `runFuncWithNotify`. The run function's
  error goes into a last-write-wins error box (`setError`/`getError`). A panic
  goes to `recoverer`. It swallows the panic once the workload's context has
  been cancelled, and exits the process with status 2 before that.
- `run`, in both branches. Outside an interactive session, `svc.Run` drives
  `Execute`. In an interactive session, an interrupt races the workload,
  then the workload races the stop timer.
- `getStopTimeout` and `Init`'s defaulting of the command and of a zero
  `TimeoutStop`.
- flag.go: the `command` values, the `actionHandler` table, the `cmd` value
  that `Set` updates in place, `String`, the initial `action`, and
  `runCmd`'s dispatch.

Files:

- `errors.dfy` (`Errors`): `Option`, and the package errors the model returns.
- `strconv.dfy` (`Strconv`): `strconv.Atoi` for a 64-bit `int`, `Itoa`, and int64 wrap-around.
- `flags.dfy` (`Flags`): flag.go.
- `winsvc.dfy` (`Winsvc`): winsvc.go's operations. Pure decisions are functions. `ErrorBox` and `Manager` are classes whose methods update their fields.
- `winsvc_properties.dfy` (`WinsvcProperties`): lemmas about the functions that specify `Execute` and `run`.

## Scheduling as a trace

Goroutines, channels, `time.After`, and `signal.Notify` become one
sequence of events:

- the workload ends (it returns an error or nil, or it panics);
- a change request arrives;
- an interrupt arrives;
- the stop timer fires.

Each `select` takes the first event that one of its cases waits for and
skips the others. For example, a request during the stop wait is never read,
and a timer event in the main loop has no timer behind it. When the trace runs out
before a `select` is answered, the call is "still waiting" (in Go it would
block). `cancelSvc` sets the manager's `cancelled` flag. `Execute` and `Run`
are loops over the trace, proved equal to the functions `Executed`, `Listen`,
`AwaitStop`, `AwaitSignal`, `AwaitFinish` and `RunOutcome`. The lemmas state
the lifecycle's properties in terms of those functions.

Outside the trace, these are parameters:

- whether the session is interactive;
- the registry value (`None` when the key or the value cannot be read);
- the start-up `timeStopDefault`;
- whether `svc.Run` reaches the service manager, and the error it returns;
- the error of an administrative handler.

In Go, durations are int64 nanoseconds. `GetStopTimeout` is the only place
that computes one: it multiplies the registry's millisecond value and wraps
the product as int64 multiplication does. `Config.timeoutStop` is an unbounded
`int`, because the model only copies it and compares it with 0.

## What the code does and does not do

The model follows winsvc.go as written:

- `Execute` never sends a Stopped report.
- There is no one-shot start guard. `Init` replaces the manager on every call.
- An early workload exit always gives `(true, 1)`. No setting makes it tolerated.
- The error box is not written once. `setError` overwrites the value every time.
- `Init` calls `runCmd(cmd)` with `CmdRun` (winsvc.go:164, winsvc.go:184).
  flag.go:81 defines a `runCmd` without parameters and a lower-case `cmdRun`,
  winsvc_test.go:15 assigns a string through `*action`, and winsvc_test.go:34,
  winsvc_test.go:55 and winsvc_test.go:63 call `Init` with two arguments,
  while winsvc.go:162 declares three. None of these
  match, so the files do not compile together. Each file is modelled as
  written. `Init` is modelled up to creating the manager and returns the
  command it would dispatch. The dispatch itself is `Flags.Cmd.RunCmd`,
  which follows flag.go.

## Model

| member | source | states |
|---|---|---|
| `Strconv.Atoi` | winsvc.go:83-86 | a string is accepted exactly when it is an optional sign and at least one ASCII digit, and its value fits in int64; the result is then that value, read positionally and negated after '-' |
| `Strconv.ParseDigits` | winsvc.go:83 | a string parses exactly when it is a non-empty run of ASCII digits, and its value is then the positional sum of its digits |
| `Strconv.LeadingZero` | winsvc.go:83 | a leading '0' does not change what a digit string parses to |
| `Strconv.PlusSign` | winsvc.go:83 | a '+' before a digit string does not change what Atoi yields |
| `Strconv.AtoiItoa` | winsvc.go:83 | Atoi reads back every int64 written in decimal |
| `Strconv.Wrap64` | winsvc.go:88 | the result is an int64, congruent to its input modulo 2^64, and equal to the input when that is already an int64 |
| `Winsvc.GetStopTimeout` | winsvc.go:70-88 | an unreadable key or value, or a string Atoi rejects, gives 20000 ms; a parsed value v gives v ms, wrapped to int64 |
| `WinsvcProperties.StopTimeoutFromRegistry` | winsvc.go:83-88 | a registry value written in decimal milliseconds is read back as exactly that duration, when it fits in int64 |
| `Winsvc.InitDefaults` | winsvc.go:162-173 | the command is forced to run outside an interactive session; an empty name is fatal with errEmptyName; a TimeoutStop of 0 becomes the default, and any other value is kept |
| `WinsvcProperties.InitDefaultsIdempotent` | winsvc.go:163-173 | applying the defaults to their own result changes nothing |
| `Winsvc.Init` | winsvc.go:162-182 | after the defaults, creates a fresh manager with the defaulted config, no cancellation and an empty error box; no manager when fatal |
| `Winsvc.ErrorBox.constructor` | winsvc.go:178-181 | the box starts as nil |
| `Winsvc.ErrorBox.Set` | winsvc.go:187-191 | the new value replaces the old one, whatever that was |
| `Winsvc.ErrorBox.Get` | winsvc.go:193-197 | returns the value of the most recent Set |
| `Winsvc.Manager.constructor` | winsvc.go:175-182 | a manager holds the config, is not cancelled and owns a new error box holding nil |
| `Winsvc.Recoverer` | winsvc.go:420-429 | a panic is swallowed exactly when the context is cancelled; otherwise the process exits with 2 |
| `Winsvc.CompletionOf` | winsvc.go:234-241 | finishRun is signalled exactly when the run function returned or the context was cancelled; otherwise the exit status is 2 |
| `Winsvc.ErrorAfter` | winsvc.go:238-239 | a returned error is stored; after a panic setError is not reached and the prior value stays |
| `Winsvc.Manager.CompleteWorkload` | winsvc.go:236-240 | the goroutine's end updates the box and picks the completion as CompletionOf and ErrorAfter say |
| `Winsvc.Executed` | winsvc.go:433-437 | the first two reports are StartPending, then Running accepting Stop and Shutdown |
| `Winsvc.Manager.Execute` | winsvc.go:432-461 | the reports, the outcome, the cancellation and the stored error are those of `Executed` on the trace |
| `WinsvcProperties.ListenUndecided` | winsvc.go:438-447 | before the first Stop, Shutdown or workload end, the loop sends back exactly the Interrogate statuses, unchanged, and ignores other requests |
| `WinsvcProperties.RepeatedInterrogate` | winsvc.go:445-447 | N Interrogates give N copies of the status and leave the loop where it was |
| `WinsvcProperties.UndecidedTraceWaits` | winsvc.go:438-459 | without a Stop, Shutdown or workload end, Execute keeps waiting after the prologue and the echoes, with state unchanged |
| `WinsvcProperties.EarlyReturnIsFailure` | winsvc.go:441-443 | a workload that returns before any stop makes Execute return (true, 1) with no StopPending, and its error is stored |
| `WinsvcProperties.EarlyPanicExits` | winsvc.go:420-429 | a workload that panics before any stop ends the process with 2, and the stored error keeps its prior value |
| `WinsvcProperties.StopRequested` | winsvc.go:448-451 | on the first Stop or Shutdown, Execute sends StopPending once, cancels, and goes on to the stop wait |
| `WinsvcProperties.AwaitStopFirstEnd` | winsvc.go:452-460 | the stop wait returns (false, 0) at the first workload end or timer; a swallowed panic and a timeout keep the stored error; a return stores its error |
| `WinsvcProperties.AwaitStopNoEnd` | winsvc.go:452-455 | without a workload end or timer, the stop wait keeps waiting |
| `WinsvcProperties.StopIsOrderly` | winsvc.go:448-460 | after a stop, Execute never ends the process: it returns (false, 0) exactly when a workload end or timer follows, and otherwise keeps waiting |
| `Winsvc.Run` | winsvc.go:202-231 | errSvcInit without a manager; otherwise keeps the config, resets the cancellation, and returns and leaves the state as `RunOutcome`, `AwaitSignal` or `Executed` say; when svc.Run cannot connect, Execute is not run and the state is untouched |
| `WinsvcProperties.UndispatchedRunReturnsDispatchError` | winsvc.go:208-213 | when svc.Run fails before dispatching, run returns its error while the box is empty, and the stored error otherwise |
| `WinsvcProperties.ManagedStopReturnsWorkloadError` | winsvc.go:208-213 | under the service manager, a stop and then a workload error make run return that error rather than svc.Run's |
| `WinsvcProperties.CancelsIffInterruptFirst` | winsvc.go:218-224 | the interactive run cancels the workload exactly when an interrupt arrives before the workload ends |
| `WinsvcProperties.AwaitFinishCancelled` | winsvc.go:221-229 | once interrupted, the run stays cancelled |
| `WinsvcProperties.AwaitSignalSkips` | winsvc.go:220-224 | the first select waits only for an interrupt or the workload's end |
| `WinsvcProperties.WorkloadReturnsFirst` | winsvc.go:220-230 | a workload that returns before any interrupt is not cancelled, and run returns its error |
| `WinsvcProperties.WorkloadPanicsFirst` | winsvc.go:234-241 | a workload that panics before any interrupt ends the process with 2, with the stored error untouched |
| `WinsvcProperties.InterruptedRun` | winsvc.go:220-229 | after an interrupt the run goes on with the second select over the rest of the trace |
| `WinsvcProperties.AwaitFinishFirstEnd` | winsvc.go:226-230 | after an interrupt, run returns the stored error at the first workload end or timer: the workload's error when it returned, the prior value otherwise; the process never exits |
| `WinsvcProperties.RunInterruptScenario` | winsvc_test.go:18-44 | an interrupt, then a workload that returns nil: the run is cancelled and returns nil |
| `WinsvcProperties.RunCancelFuncScenario` | winsvc_test.go:46-59 | a workload that returns nil at once: not cancelled, nil returned |
| `WinsvcProperties.ReturnErrorScenario` | winsvc_test.go:61-67 | a workload that returns "test error": run returns that error |
| `Flags.ActionKey` | flag.go:44-46 | the looked-up key is "run" exactly when the value is "run" or is empty outside an interactive session; otherwise the value is used as given |
| `Flags.ActionTableShape` | flag.go:25-35 | the table has exactly the six action names; they select six distinct commands, none of them cmdHelp, each with its own handler |
| `Flags.Call` | flag.go:66-70 | the initial action's help handler always succeeds; any other handler's error is passed through |
| `Flags.Cmd.constructor` | flag.go:64-71 | the initial action has no value, cmdHelp and the help handler |
| `Flags.Cmd.Set` | flag.go:43-56 | records the value; a known name sets the command and handler from its table entry; an unknown name leaves both unchanged; never fails |
| `Flags.Cmd.String` | flag.go:58-60 | returns the value the last Set recorded |
| `Flags.Cmd.RunCmd` | flag.go:81-93 | cmdRun returns its handler's error; every other command exits with 0 when the handler succeeds and is fatal otherwise; help always exits with 0 |
| `Flags.UnknownActionShowsHelp` | flag.go:48-52 | an unknown action name parsed into the initial action keeps help selected: runCmd exits with 0, and String shows the name |

## Left out

- The administrative operations `install`, `uninstall`, `start`, `stop`,
  `restart` and `stopWithWait` (winsvc.go:244-416). They are synchronous
  service-manager calls with polling. Their result is the `external` error
  that `Flags.Cmd.RunCmd` takes. One constant is not modelled: the
  stop-and-wait deadline, `timeStopDefault` plus two 50 ms ticks.
- The package `init` functions (winsvc.go:50-67, flag.go:74-78) are
  `os.Executable`, `os.Chdir`, `svc.IsAnInteractiveSession`, the registry
  read and the `flag` package's parsing. Their results are parameters: the
  interactive flag, the registry value, `timeStopDefault`, and the value
  given to `Set`.
- restart.go and recovery.go. Both set the restart-on-failure policy through
  foreign calls, and they are competing build variants of the same function.
- Timing. Durations are carried in `Config.timeoutStop`, but the trace only
  says whether the timer fired first. How long a wait lasts is not modelled.
- Races and blocking are not modelled. A `select` with two ready cases makes
  a random choice. The trace lists one order of events, and each order is a
  separate trace.
- Logging: `log.Printf`, the `debug.Stack` output, and the messages of
  `log.Fatalf`. `Fatal`/`InitFatal` stand for a fatal log, which exits with status 1.
- The other fields of `svc.Status` and `svc.ChangeRequest` (CheckPoint,
  WaitHint, EventType, …) are not modelled. The other Config fields are used
  only by the administrative operations.
- `svc.Run` is foreign code. It is modelled by the `dispatched` flag and
  the `dispatchErr` it returns: it either fails before calling `Execute`, or
  calls `Execute` once on the trace. Which failures it reports, and their
  messages, are not modelled.
- `WinsvcProperties.EarlyPanicExits`: its reports always include the
  prologue. In Go the workload goroutine starts before `changes <- Running`
  (winsvc.go:435-437), so its `os.Exit(2)` could come before that report. A
  trace cannot place the workload's end before the prologue.
- `Strconv.Atoi`: models Go on a 64-bit platform. On a 32-bit Windows build
  `int` is 32 bits, and larger values would be range errors.
- `Flags.Cmd.RunCmd`: `Command` is a datatype with exactly the seven
  constants. So the `panic("unreachable code")` after the switch cannot
  happen, and it is not modelled.
