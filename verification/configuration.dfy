/** The configuration section read at start-up, and the merge of configuration and
    command line into the effective settings. The section itself is an input: how it is
    read from the application's configuration file is not part of this model. */
module Configuration {
  import opened Wrappers
  import opened ProgramSettings
  import opened CommandLine
  import opened CommandLineGrammar

  /** One configured forwarding target. */
  datatype HostMapping = HostMapping(targetHost: string, allowedPorts: string, allowedPipes: string)

  /** The "portBridge" configuration section; its string attributes may be absent. */
  datatype PortBridgeSection = PortBridgeSection(
    serviceNamespace: Option<string>,
    accessRuleName: Option<string>,
    accessRuleKey: Option<string>,
    localHostName: Option<string>,
    hostMappings: seq<HostMapping>)

  predicate IsNullOrEmpty(s: Option<string>) {
    s.None? || |s.value| == 0
  }

  /** The settings after the configuration section (if there is one) has been applied to
      the initial fields; the command line is applied afterwards by `Parse`. */
  function LoadSection(machineName: string, section: Option<PortBridgeSection>): Settings {
    var s := Initial(machineName);
    match section
    case None => s
    case Some(c) =>
      var s' := s.(serviceNamespace := c.serviceNamespace,
                   accessRuleName := c.accessRuleName,
                   accessRuleKey := c.accessRuleKey);
      if !IsNullOrEmpty(c.localHostName) then s'.(localHostName := c.localHostName.value) else s'
  }

  /** The effective settings of a run: configuration first, then the command line. */
  function Merge(machineName: string, section: Option<PortBridgeSection>, args: seq<string>): Option<Settings> {
    Parse(LoadSection(machineName, section), args)
  }

  /** The merge policy. On an accepted command line: the flags come from the command line
      alone; namespace and access-rule key take the last command-line value, else the
      configured one; the access-rule name comes from configuration only; the permitted
      ports come from the command line only; and the local host name is the last `-m`
      value, else the configured name when it is non-empty, else the machine name. */
  lemma MergePolicy(machineName: string, section: Option<PortBridgeSection>, args: seq<string>)
    ensures Merge(machineName, section, args).Some? <==> WellFormed(args)
    ensures Merge(machineName, section, args).Some? ==>
      var s := Merge(machineName, section, args).value;
      && s.runOnConsole == HasFlag(args, 'c')
      && s.installService == HasFlag(args, 'i')
      && s.uninstallService == HasFlag(args, 'u')
      && s.serviceNamespace
         == LastValue(args, 'n').Or(if section.Some? then section.value.serviceNamespace else None)
      && s.accessRuleKey
         == LastValue(args, 's').Or(if section.Some? then section.value.accessRuleKey else None)
      && s.accessRuleName == (if section.Some? then section.value.accessRuleName else None)
      && s.permittedPorts == LastValue(args, 'a')
      && s.localHostName
         == LastValue(args, 'm').GetOr(
              if section.Some? && !IsNullOrEmpty(section.value.localHostName)
              then section.value.localHostName.value
              else machineName)
  {
    ParseMatchesGrammar(LoadSection(machineName, section), args);
  }
}
