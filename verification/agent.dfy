/** The agent's entry point: load configuration, parse the command line, assemble the
    forwarders and plan the run. The machine name, the configuration section and the
    service-state query are inputs; what the run does is returned as data. */
module Agent {
  import opened Wrappers
  import opened ProgramSettings
  import opened CommandLine
  import opened CommandLineGrammar
  import opened Configuration
  import opened Forwarders
  import opened RunModes

  /** A rejected command line ends the run after the usage text; otherwise the host is
      built with its forwarders and the planned actions are performed. */
  datatype Outcome = UsageError | Started(forwarders: seq<Forwarder>, actions: seq<Action>)

  function Bootstrap(machineName: string, section: Option<PortBridgeSection>, args: seq<string>,
                     probe: ServiceProbe): (o: Outcome)
    ensures o.UsageError? <==> !WellFormed(args)
    ensures o.Started? ==> |o.forwarders| >= 1
  {
    MergePolicy(machineName, section, args);
    match Merge(machineName, section, args)
    case None => UsageError
    case Some(s) => Started(AssembleForwarders(s, section), Plan(s, probe))
  }

  /** The run as the command line decides it: the flags come from the command line alone,
      so `-i`/`-u` install or uninstall and nothing else (uninstall first), `-c` runs the
      console without looking at the service, and otherwise the service state decides. */
  lemma BootstrapActions(machineName: string, section: Option<PortBridgeSection>, args: seq<string>,
                         probe: ServiceProbe)
    requires WellFormed(args)
    ensures var o := Bootstrap(machineName, section, args, probe);
      var install := HasFlag(args, 'i');
      var uninstall := HasFlag(args, 'u');
      && o.Started?
      && (install || uninstall ==>
            o.actions == (if uninstall then [Uninstall] else []) + (if install then [Install] else []))
      && (!install && !uninstall && HasFlag(args, 'c') ==> o.actions == ConsoleRun)
      && (!install && !uninstall && !HasFlag(args, 'c') ==>
            o.actions == match probe
                         case Reported(status) => if status == Stopped then ConsoleRun else [RunService]
                         case Threw => ConsoleRun + [RunService])
  {
    MergePolicy(machineName, section, args);
    PlanCases(Merge(machineName, section, args).value, probe);
  }

  /** The forwarders of an accepted run are those of the effective settings: with mappings
      configured, one per mapping in order; without, the single default one whose ports
      are the last `-a` value (unset when none was given). */
  lemma BootstrapForwarders(machineName: string, section: Option<PortBridgeSection>, args: seq<string>,
                            probe: ServiceProbe)
    requires WellFormed(args)
    ensures var o := Bootstrap(machineName, section, args, probe);
      && o.Started?
      && (HasMappings(section) ==> |o.forwarders| == |section.value.hostMappings|)
      && (!HasMappings(section) ==>
            o.forwarders == [Forwarder(
              LastValue(args, 'n').Or(if section.Some? then section.value.serviceNamespace else None),
              if section.Some? then section.value.accessRuleName else None,
              LastValue(args, 's').Or(if section.Some? then section.value.accessRuleKey else None),
              "localhost",
              Merge(machineName, section, args).value.localHostName,
              LastValue(args, 'a'),
              "")])
  {
    MergePolicy(machineName, section, args);
  }
}
