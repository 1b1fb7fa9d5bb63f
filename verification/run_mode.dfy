/** Selection of how the agent runs, from the parsed flags and the state of the installed
    service, and the sequence of actions the run then performs. The service-state query
    is an input: either the status it reported or the fact that it threw. */
module RunModes {
  import opened ProgramSettings

  /** The states the platform service controller reports. */
  datatype ServiceStatus = Stopped | StartPending | StopPending | Running | ContinuePending | PausePending | Paused

  datatype ServiceProbe = Reported(status: ServiceStatus) | Threw

  /** The two mode flags after selection; both may be set. */
  datatype RunMode = RunMode(runOnConsole: bool, runAsService: bool)

  /** What the run does, in order. A console run opens the host, waits for the operator to
      press ENTER and closes the host; a service run hands the host to the service
      dispatcher. */
  datatype Action = Uninstall | Install | OpenHost | AwaitConsoleExit | CloseHost | RunService

  /** The flags updated in the source's order: service mode unless console was asked for;
      without console, a stopped service switches to console mode and a failing query
      switches console on without switching service off; then uninstall and install each
      switch both off. */
  function SelectMode(s: Settings, probe: ServiceProbe): (m: RunMode)
    ensures s.installService || s.uninstallService ==> m == RunMode(false, false)
    ensures !s.installService && !s.uninstallService && s.runOnConsole ==> m == RunMode(true, false)
    ensures !s.installService && !s.uninstallService && !s.runOnConsole ==>
      m == match probe
           case Reported(status) => if status == Stopped then RunMode(true, false) else RunMode(false, true)
           case Threw => RunMode(true, true)
  {
    var runAsService := !s.runOnConsole;
    var probed :=
      if !s.runOnConsole then
        match probe
        case Reported(status) =>
          if status == Stopped then RunMode(true, false) else RunMode(s.runOnConsole, runAsService)
        case Threw => RunMode(true, runAsService)
      else RunMode(s.runOnConsole, runAsService);
    var afterUninstall := if s.uninstallService then RunMode(false, false) else probed;
    if s.installService then RunMode(false, false) else afterUninstall
  }

  const ConsoleRun: seq<Action> := [OpenHost, AwaitConsoleExit, CloseHost]

  /** The actions of a run: the installer calls first (uninstall before install), then the
      console session, then the service dispatcher. */
  function Actions(s: Settings, m: RunMode): seq<Action> {
    (if s.uninstallService then [Uninstall] else [])
    + (if s.installService then [Install] else [])
    + (if m.runOnConsole then ConsoleRun else [])
    + (if m.runAsService then [RunService] else [])
  }

  function Plan(s: Settings, probe: ServiceProbe): seq<Action> {
    Actions(s, SelectMode(s, probe))
  }

  /** The outcome table. Install or uninstall runs neither console nor service, uninstall
      first; otherwise `-c` means console only; otherwise a stopped service means console
      only, any other reported status service only, and a failing query console followed
      by service. */
  lemma PlanCases(s: Settings, probe: ServiceProbe)
    ensures s.installService || s.uninstallService ==>
      Plan(s, probe) == (if s.uninstallService then [Uninstall] else [])
                        + (if s.installService then [Install] else [])
    ensures !s.installService && !s.uninstallService ==>
      Plan(s, probe) == if s.runOnConsole then ConsoleRun
                        else match probe
                          case Reported(status) => if status == Stopped then ConsoleRun else [RunService]
                          case Threw => ConsoleRun + [RunService]
  {
  }

  /** With console, install or uninstall requested, the outcome does not depend on the
      service-state query. */
  lemma ConsoleIgnoresProbe(s: Settings, p: ServiceProbe, q: ServiceProbe)
    requires s.runOnConsole || s.installService || s.uninstallService
    ensures Plan(s, p) == Plan(s, q)
  {
  }

  /** The host is opened at most once; an open is immediately followed by the wait and the
      close; nothing is closed that was not opened; the service dispatcher, when run, is
      the last action; and a run that installs or uninstalls never starts the host. */
  lemma HostLifecycle(s: Settings, probe: ServiceProbe)
    ensures var a := Plan(s, probe);
      && (forall k :: 0 <= k < |a| && a[k] == OpenHost ==>
            k + 2 < |a| && a[k + 1] == AwaitConsoleExit && a[k + 2] == CloseHost)
      && (forall k :: 0 <= k < |a| && a[k] == CloseHost ==> 2 <= k && a[k - 2] == OpenHost)
      && (forall j, k :: 0 <= j < k < |a| ==> !(a[j] == OpenHost && a[k] == OpenHost))
      && (forall k :: 0 <= k < |a| && a[k] == RunService ==> k == |a| - 1)
      && ((Install in a || Uninstall in a) ==> OpenHost !in a && RunService !in a)
  {
  }
}
