# PortBridge server agent bootstrap, modelled in Dafny

The PortBridge server agent is the host-side end of a relay-based port forwarder. Its
`Program` class starts the agent. It loads the "portBridge" configuration section and
parses the command line over it. It then builds one service connection forwarder per
configured host mapping, or a single default forwarder to "localhost". Finally it decides
whether to install or uninstall the Windows service, run on the console, run as a
service, or do both.

This project models that bootstrap as pure functions over immutable data:

- `wrappers.dfy`, `ascii.dfy`: an `Option` type for the C# strings that may be null, and
  ASCII case folding for the case-insensitive "localhost" test.
- `settings.dfy` (`ProgramSettings`): the static fields of `Program` as one record.
- `command_line.dfy` (`CommandLine`): the parser as a fold over the tokens. The state is
  the settings plus the one-character pending-option register, with '\0' meaning "none".
  An imperative version mirrors the source's loop and is proved equal to the fold.
- `command_line_grammar.dfy` (`CommandLineGrammar`): an independent, register-free
  description of the accepted command lines (`WellFormed`) and of the settings they declare
  (`Declared`: a flag is set when it appears anywhere; a value field takes its last
  occurrence). The parser is proved to agree with it exactly.
- `command_line_laws.dfy` (`CommandLineLaws`): what appending a flag, an option with its
  value, or a stray value does to a parse.
- `configuration.dfy` (`Configuration`): the configuration section, how it is loaded, and
  the merge policy between configuration and command line.
- `forwarders.dfy` (`Forwarders`): assembly of the forwarder list and alias resolution.
- `run_mode.dfy` (`RunModes`): mode selection from the flags and the service-state query,
  and the ordered actions of the run.
- `agent.dfy` (`Agent`): the whole of `Main` as one function from inputs to an outcome.

Some behaviours of the code are easy to misread. The model keeps each one as written:

- If the service-state query throws, line 94 switches console mode on but does not clear
  `runAsService`. The run therefore does a console session and then hands the host to the
  service dispatcher.
- An alias reads "localhost" only when the local host name itself does, for example with
  `-m localhost`. `Forwarders.AliasResolution` states this: an alias that reads "localhost"
  is always the local host name.
- In the default-forwarder branch (lines 68-72), the "localhost" test replaces the local
  host name by itself, so the alias is always the local host name.
- An unknown option letter stays pending forever, so the parse always fails
  (`CommandLineGrammar.UnknownStaysPending`). The one exception is the character '\0': an
  option token "-\0" leaves the register empty and so does nothing.

## Model

All source paths are in `PortBridgeFramework/PortBridgeServerAgent/`.

| member | source | states |
|---|---|---|
| CommandLine.ParseCommandLine | PortBridgeFramework/PortBridgeServerAgent/Program.cs:130-202 | The source's loop, with early returns on a malformed token, returns true exactly when the fold `Parse` accepts. When it does, it returns the same settings. |
| CommandLineGrammar.ParseMatchesGrammar | PortBridgeFramework/PortBridgeServerAgent/Program.cs:130-202 | The parse succeeds exactly on well-formed command lines and then yields the declared settings. A flag is set iff it appears (either case) and is never cleared. `-m`/`-n`/`-s`/`-a` take the token after their last occurrence, else keep the prior value. The access-rule name is never touched. |
| CommandLineGrammar.IdleRun | PortBridgeFramework/PortBridgeServerAgent/Program.cs:134-195 | Starting with nothing pending, the loop ends with nothing pending exactly on well-formed input. In that case it holds the declared settings. |
| CommandLineGrammar.FailureCauses | PortBridgeFramework/PortBridgeServerAgent/Program.cs:136-200 | Parsing fails if and only if one of five things holds. A token is empty (the caught index exception). An option token is not two characters. An option letter is unknown. An option arrives while a value is pending. Or the input ends with a value pending. |
| CommandLineGrammar.UnknownStaysPending | PortBridgeFramework/PortBridgeServerAgent/Program.cs:144-189 | Once a letter other than c/i/u/m/n/s/a (either case) or '\0' is pending, the parser either rejects or keeps that letter pending. It is never cleared. |
| CommandLineLaws.AppendFlag | PortBridgeFramework/PortBridgeServerAgent/Program.cs:145-161 | After an accepted prefix, `-c`/`-i`/`-u` (either case) sets its own flag to true. It leaves nothing pending and changes no other field. |
| CommandLineLaws.AppendAssignment | PortBridgeFramework/PortBridgeServerAgent/Program.cs:166-188 | After an accepted prefix, `-m`/`-n`/`-s`/`-a` followed by a value assigns the value to `localHostName`/`serviceNamespace`/`accessRuleKey`/`permittedPorts`. Any earlier value is overwritten. No other field changes. |
| CommandLineLaws.StrayValueIgnored | PortBridgeFramework/PortBridgeServerAgent/Program.cs:166-189 | A value token arriving with nothing pending can be deleted from the command line without changing the result, whatever follows it. |
| Configuration.MergePolicy | PortBridgeFramework/PortBridgeServerAgent/Program.cs:21-39 | Configuration is applied first and the command line second. Command-line values override the namespace, the key and the local host name. The access-rule name comes only from configuration. The ports come only from the command line. The local host name is the last `-m` value, else a non-empty configured name, else the machine name. Flags come only from the command line. |
| Forwarders.MappedForwarders | PortBridgeFramework/PortBridgeServerAgent/Program.cs:46-65 | There is one forwarder per mapping, in order. The target is the mapping's literal host. The alias is the local host name when the target equals "localhost" ignoring case, else the target. Ports and pipes come from the mapping. |
| Forwarders.AssembleForwarders | PortBridgeFramework/PortBridgeServerAgent/Program.cs:45-82 | With mappings configured, the list follows the mappings. With no section or no mappings, it is exactly one forwarder: target "localhost", alias the local host name, the permitted ports, and empty pipes. |
| Forwarders.AliasResolution | PortBridgeFramework/PortBridgeServerAgent/Program.cs:50-79 | Every forwarder carries the effective namespace and access rule. Its alias is either the local host name or its own target. An alias that reads "localhost" is the local host name. |
| RunModes.SelectMode | PortBridgeFramework/PortBridgeServerAgent/Program.cs:84-104 | Install or uninstall switches both modes off. Otherwise `-c` gives console only. Otherwise a stopped service gives console only, another status gives service only, and a throwing query gives both. |
| RunModes.PlanCases | PortBridgeFramework/PortBridgeServerAgent/Program.cs:84-113 | A run that installs or uninstalls only makes the installer calls, uninstall first. Otherwise it is a console session, a service dispatch, or a console session followed by a service dispatch, chosen as in `SelectMode`. |
| RunModes.ConsoleIgnoresProbe | PortBridgeFramework/PortBridgeServerAgent/Program.cs:84-96 | With console, install or uninstall requested, the outcome is the same whatever the service-state query returns. |
| RunModes.HostLifecycle | PortBridgeFramework/PortBridgeServerAgent/Program.cs:97-113 | The host is opened at most once. An open is directly followed by the console wait and the close. Nothing is closed that was not opened. The service dispatch, if any, comes last. An install or uninstall run never starts the host. |
| Agent.Bootstrap | PortBridgeFramework/PortBridgeServerAgent/Program.cs:23-113 | The run ends with the usage error exactly when the command line is not well formed. Otherwise it builds at least one forwarder. |
| Agent.BootstrapActions | PortBridgeFramework/PortBridgeServerAgent/Program.cs:39-113 | On an accepted command line the actions follow from its flags and the query. `-i`/`-u` give only the installer calls, uninstall first. Otherwise `-c` gives the console session. Otherwise the service state decides. |
| Agent.BootstrapForwarders | PortBridgeFramework/PortBridgeServerAgent/Program.cs:27-82 | On an accepted command line with no mappings, the single forwarder combines two sources. Namespace and key are the last command-line value, else the configured one. The rule name is the configured one. The ports are the last `-a` value, unset when there is none. |

## Left out

- Console output (the logo, the usage text, the "Press [ENTER]" prompt) and the console read. The wait appears only as the action `AwaitConsoleExit`.
- Reading the configuration file. The section and its host mappings are an input, `Option<PortBridgeSection>`. Host-mapping attributes are plain strings, so a null attribute is not modelled.
- The service-state query. It is an input: either a reported `ServiceStatus` or the fact that it threw.
- The installer, the service dispatcher, the forwarding host and its forwarders. These are external collaborators, and the host is internally concurrent. They appear only as emitted actions and `Forwarder` records. Failures they raise are not modelled.
- The machine name, which is a parameter of `Initial` and `Bootstrap`.
- Case-insensitive comparison beyond ASCII. `EqualsIgnoreCase` folds only 'A'..'Z', whereas .NET's ordinal ignore-case comparison also folds other letters.
- The fields left partly written when a parse fails. `Main` returns right away, so they are never observed, and `Parse` returns `None`.
- Validation of the port list. The source performs none, and ports are passed through as opaque strings.
- A null argument array or null token, which the runtime never passes to `Main`.
- UTF-16 code units. A Dafny `string` holds Unicode scalar values, while the C# `arg.Length` counts UTF-16 code units. For a token such as "-" followed by an emoji, the source fails at line 140 because the length is not 2. The model also fails, but `FailureCauses` reports an unknown letter instead of a bad length. Tokens containing lone surrogates cannot be written in the model at all.
