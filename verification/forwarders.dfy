/** Assembly of the forwarder list handed to the forwarding host: one forwarder per
    configured host mapping, in configuration order, or a single default forwarder to
    "localhost" when nothing is configured. */
module Forwarders {
  import opened Wrappers
  import opened Ascii
  import opened ProgramSettings
  import opened Configuration

  /** The arguments of one service connection forwarder: relay namespace and access rule,
      the host actually connected to, the alias it is advertised under, and the allowed
      ports and pipes (opaque strings, passed through unchecked). */
  datatype Forwarder = Forwarder(
    serviceNamespace: Option<string>,
    accessRuleName: Option<string>,
    accessRuleKey: Option<string>,
    targetHost: string,
    targetHostAlias: string,
    allowedPorts: Option<string>,
    allowedPipes: string)

  const LocalHost: string := "localhost"

  predicate IsLocalHost(host: string) {
    EqualsIgnoreCase(host, LocalHost)
  }

  /** The alias of a configured target: the effective local host name for any spelling of
      "localhost", otherwise the target itself. */
  function AliasFor(s: Settings, targetHost: string): string {
    if IsLocalHost(targetHost) then s.localHostName else targetHost
  }

  /** The forwarder for one configured mapping. */
  function ForMapping(s: Settings, m: HostMapping): Forwarder {
    Forwarder(s.serviceNamespace, s.accessRuleName, s.accessRuleKey,
              m.targetHost, AliasFor(s, m.targetHost), Some(m.allowedPorts), m.allowedPipes)
  }

  /** The loop over the configured mappings: one forwarder per mapping, same order. */
  function MappedForwarders(s: Settings, mappings: seq<HostMapping>): (r: seq<Forwarder>)
    ensures |r| == |mappings|
    ensures forall i :: 0 <= i < |r| ==>
      && r[i].targetHost == mappings[i].targetHost
      && r[i].targetHostAlias == (if IsLocalHost(mappings[i].targetHost) then s.localHostName else mappings[i].targetHost)
      && r[i].allowedPorts == Some(mappings[i].allowedPorts)
      && r[i].allowedPipes == mappings[i].allowedPipes
      && r[i].serviceNamespace == s.serviceNamespace
      && r[i].accessRuleName == s.accessRuleName
      && r[i].accessRuleKey == s.accessRuleKey
    decreases |mappings|
  {
    if |mappings| == 0 then []
    else [ForMapping(s, mappings[0])] + MappedForwarders(s, mappings[1..])
  }

  /** The forwarder used when no mapping is configured. Its alias is the local host name
      in every case: the source's test for "localhost" on this path replaces the name by
      itself. */
  function DefaultForwarder(s: Settings): Forwarder {
    Forwarder(s.serviceNamespace, s.accessRuleName, s.accessRuleKey,
              LocalHost, s.localHostName, s.permittedPorts, "")
  }

  predicate HasMappings(section: Option<PortBridgeSection>) {
    section.Some? && |section.value.hostMappings| > 0
  }

  function AssembleForwarders(s: Settings, section: Option<PortBridgeSection>): (r: seq<Forwarder>)
    ensures HasMappings(section) ==> |r| == |section.value.hostMappings|
    ensures HasMappings(section) ==> forall i :: 0 <= i < |r| ==>
      var m := section.value.hostMappings[i];
      && r[i].targetHost == m.targetHost
      && r[i].targetHostAlias == (if IsLocalHost(m.targetHost) then s.localHostName else m.targetHost)
      && r[i].allowedPorts == Some(m.allowedPorts)
      && r[i].allowedPipes == m.allowedPipes
    ensures !HasMappings(section) ==>
      && |r| == 1
      && r[0].targetHost == "localhost"
      && r[0].targetHostAlias == s.localHostName
      && r[0].allowedPorts == s.permittedPorts
      && r[0].allowedPipes == ""
  {
    if HasMappings(section) then MappedForwarders(s, section.value.hostMappings)
    else [DefaultForwarder(s)]
  }

  /** Every forwarder carries the effective namespace and access rule; its alias is either
      the effective local host name or its own target; and an alias that reads "localhost"
      (in any case) can only be the local host name itself. */
  lemma AliasResolution(s: Settings, section: Option<PortBridgeSection>)
    ensures forall f :: f in AssembleForwarders(s, section) ==>
      && f.serviceNamespace == s.serviceNamespace
      && f.accessRuleName == s.accessRuleName
      && f.accessRuleKey == s.accessRuleKey
      && (f.targetHostAlias == s.localHostName || f.targetHostAlias == f.targetHost)
      && (IsLocalHost(f.targetHost) ==> f.targetHostAlias == s.localHostName)
      && (IsLocalHost(f.targetHostAlias) ==> f.targetHostAlias == s.localHostName)
  {
    var r := AssembleForwarders(s, section);
    forall f | f in r
      ensures IsLocalHost(f.targetHost) ==> f.targetHostAlias == s.localHostName
    {
      if !HasMappings(section) {
        assert f == DefaultForwarder(s);
      }
    }
  }
}
