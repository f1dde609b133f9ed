/**
 * flag.go: the `-winsvc` action flag. The `command` enumeration, the
 * `actionHandler` table, the `cmd` flag value that `Set` updates in place,
 * and `runCmd`'s dispatch with its process-exit outcomes.
 */
module Flags {
  import opened Errors

  /** The `command` constants, in their iota order (cmdHelp is 0, cmdRun is 6). */
  datatype Command = CmdHelp | CmdStart | CmdStop | CmdRestart | CmdInstall | CmdUninstall | CmdRun

  /** The function a `cmd` calls: the help printer of the initial action, or a package operation. */
  datatype Handler = PrintDefaults | StartService | StopService | RestartService | InstallService | UninstallService | RunService

  /** One `actionHandler` entry: the handler `f` and the command `cmd`. */
  datatype Action = Action(f: Handler, cmd: Command)

  const ActionHandler: map<string, Action> := map[
    "start" := Action(StartService, CmdStart),
    "stop" := Action(StopService, CmdStop),
    "restart" := Action(RestartService, CmdRestart),
    "install" := Action(InstallService, CmdInstall),
    "uninstall" := Action(UninstallService, CmdUninstall),
    "run" := Action(RunService, CmdRun)
  ]

  /** The handler that goes with each command: the table's for the six actions, the help printer for cmdHelp. */
  function HandlerFor(c: Command): Handler {
    match c
    case CmdHelp => PrintDefaults
    case CmdStart => StartService
    case CmdStop => StopService
    case CmdRestart => RestartService
    case CmdInstall => InstallService
    case CmdUninstall => UninstallService
    case CmdRun => RunService
  }

  /** The key Set looks up: an empty value outside an interactive session means "run". */
  function ActionKey(v: string, interactive: bool): (key: string)
    ensures key == "run" <==> v == "run" || (v == "" && !interactive)
    ensures key != v ==> v == "" && !interactive
  {
    if v == "" && !interactive then "run" else v
  }

  /**
   * The six action names are the table's keys, they select six distinct
   * commands none of which is cmdHelp, and each entry pairs its command with
   * that command's handler.
   */
  lemma ActionTableShape()
    ensures ActionHandler.Keys == {"start", "stop", "restart", "install", "uninstall", "run"}
    ensures forall a, b :: a in ActionHandler && b in ActionHandler && a != b ==> ActionHandler[a].cmd != ActionHandler[b].cmd
    ensures forall a :: a in ActionHandler ==> ActionHandler[a].cmd != CmdHelp
    ensures forall a :: a in ActionHandler ==> ActionHandler[a].f == HandlerFor(ActionHandler[a].cmd)
  {
  }

  /** What `runCmd` leads to: a returned error, or the end of the process. */
  datatype Dispatch =
    | ReturnErr(err: Option<Error>) // runCmd returns the run handler's error
    | Exit(code: nat)              // os.Exit(code)
    | Fatal(logged: Error)           // log.Fatalf: the error is logged and the process exits with status 1

  /**
   * The result of calling a handler. The help printer always returns nil;
   * any other handler is a call into the service manager or the run loop,
   * whose error is given as `external`.
   */
  function Call(h: Handler, external: Option<Error>): (r: Option<Error>)
    ensures h == PrintDefaults ==> r == None
    ensures h != PrintDefaults ==> r == external
  {
    if h == PrintDefaults then None else external
  }

  /** The `cmd` flag value; the package-level `action` is one of these. */
  class Cmd {
    var value: string
    var typeCmd: Command
    var handler: Handler

    /** The handler always belongs to the selected command. */
    ghost predicate Valid()
      reads this
    {
      handler == HandlerFor(typeCmd)
    }

    /** The initial `action`: no value, cmdHelp and the help printer. */
    constructor ()
      ensures Valid()
      ensures value == "" && typeCmd == CmdHelp && handler == PrintDefaults
    {
      value, typeCmd, handler := "", CmdHelp, PrintDefaults;
    }

    /**
     * Set records the value; a known action name also selects its command
     * and handler, an unknown one leaves both as they were. It never fails.
     */
    method Set(v: string, interactive: bool) returns (err: Option<Error>)
      requires Valid()
      modifies this
      ensures Valid()
      ensures err == None
      ensures value == ActionKey(v, interactive)
      ensures ActionKey(v, interactive) in ActionHandler ==>
                typeCmd == ActionHandler[ActionKey(v, interactive)].cmd &&
                handler == ActionHandler[ActionKey(v, interactive)].f
      ensures ActionKey(v, interactive) !in ActionHandler ==>
                typeCmd == old(typeCmd) && handler == old(handler)
    {
      var key := v;
      if key == "" && !interactive {
        key := "run";
      }
      if key !in ActionHandler {
        value := key;
        return None;
      }
      var h := ActionHandler[key];
      ActionTableShape();
      value, typeCmd, handler := key, h.cmd, h.f;
      return None;
    }

    /** String gives back the value the last Set recorded. */
    method String() returns (s: string)
      ensures s == value
    {
      s := value;
    }

    /**
     * runCmd: the run command returns its handler's error; every other
     * command runs its handler and ends the process, with status 0 when the
     * handler succeeded and through log.Fatalf when it failed. The help
     * command therefore always exits with 0. The panic after the switch is
     * unreachable: every Command is one of the switch's cases.
     */
    method RunCmd(external: Option<Error>) returns (d: Dispatch)
      requires Valid()
      ensures typeCmd == CmdRun ==> d == ReturnErr(external)
      ensures typeCmd == CmdHelp ==> d == Exit(0)
      ensures typeCmd != CmdRun && typeCmd != CmdHelp ==>
                d == (if external == None then Exit(0) else Fatal(external.value))
    {
      match typeCmd
      case CmdInstall | CmdUninstall | CmdStart | CmdStop | CmdRestart | CmdHelp =>
        match Call(handler, external) {
          case Some(e) => d := Fatal(e);
          case None => d := Exit(0);
        }
      case CmdRun =>
        d := ReturnErr(Call(handler, external));
    }
  }

  /**
   * An action name that is not in the table, parsed into the initial
   * `action`, keeps cmdHelp selected: runCmd prints the help and exits with 0.
   */
  method UnknownActionShowsHelp(v: string, interactive: bool, external: Option<Error>) returns (d: Dispatch, shown: string)
    requires ActionKey(v, interactive) !in ActionHandler
    ensures d == Exit(0)
    ensures shown == v
  {
    var action := new Cmd();
    var _ := action.Set(v, interactive);
    shown := action.String();
    d := action.RunCmd(external);
  }
}
