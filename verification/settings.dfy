/** The static fields of the agent's `Program` class, gathered into one immutable record.
    The bootstrap writes them first from configuration and then from the command line;
    a field that the source leaves null until assigned is an `Option<string>`. */
module ProgramSettings {
  import opened Wrappers

  datatype Settings = Settings(
    runOnConsole: bool,
    installService: bool,
    uninstallService: bool,
    serviceNamespace: Option<string>,
    accessRuleName: Option<string>,
    accessRuleKey: Option<string>,
    permittedPorts: Option<string>,
    localHostName: string)

  /** The fields at process start: every flag off, every string unset, and the local host
      name initialised to the machine's own name (an input here). */
  function Initial(machineName: string): Settings {
    Settings(false, false, false, None, None, None, None, machineName)
  }
}
