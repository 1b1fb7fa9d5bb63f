/** The command-line parser: a fold over the argument tokens that threads the settings
    record and a one-character "pending option" register. The character `NoOption`
    (`default(char)`, i.e. '\0') in the register means that no option awaits a value. */
module CommandLine {
  import opened Wrappers
  import opened ProgramSettings

  const NoOption: char := '\0'

  /** A token whose first character is '-' or '/'. */
  predicate IsOptionToken(arg: string) {
    |arg| > 0 && (arg[0] == '-' || arg[0] == '/')
  }

  /** A non-empty token that is not an option token. */
  predicate IsValueToken(arg: string) {
    |arg| > 0 && !(arg[0] == '-' || arg[0] == '/')
  }

  /** Either still scanning, with the settings so far and the register, or rejected
      (the parser has returned false, or an exception was caught). */
  datatype ParserState = Scanning(settings: Settings, lastOpt: char) | Rejected

  /** The effect of a two-character option token whose letter is `letter`. Flags take
      effect at once and clear the register; every other letter is left pending. */
  function ApplyOption(s: Settings, letter: char): ParserState {
    if letter == 'c' || letter == 'C' then Scanning(s.(runOnConsole := true), NoOption)
    else if letter == 'i' || letter == 'I' then Scanning(s.(installService := true), NoOption)
    else if letter == 'u' || letter == 'U' then Scanning(s.(uninstallService := true), NoOption)
    else Scanning(s, letter)
  }

  /** The effect of a value token while `lastOpt` is pending. Only m, n, s and a consume
      the value and clear the register; any other register content stays as it is. */
  function ApplyValue(s: Settings, lastOpt: char, arg: string): ParserState {
    if lastOpt == 'M' || lastOpt == 'm' then Scanning(s.(localHostName := arg), NoOption)
    else if lastOpt == 'N' || lastOpt == 'n' then Scanning(s.(serviceNamespace := Some(arg)), NoOption)
    else if lastOpt == 'S' || lastOpt == 's' then Scanning(s.(accessRuleKey := Some(arg)), NoOption)
    else if lastOpt == 'A' || lastOpt == 'a' then Scanning(s.(permittedPorts := Some(arg)), NoOption)
    else Scanning(s, lastOpt)
  }

  /** One iteration of the loop over the tokens. Reading the first character of an empty
      token throws; the handler turns that into a rejection. */
  function Step(st: ParserState, arg: string): ParserState {
    match st
    case Rejected => Rejected
    case Scanning(s, lastOpt) =>
      if |arg| == 0 then Rejected
      else if arg[0] == '-' || arg[0] == '/' then
        if lastOpt != NoOption || |arg| != 2 then Rejected else ApplyOption(s, arg[1])
      else ApplyValue(s, lastOpt, arg)
  }

  /** The loop: `Step` folded over the tokens from left to right. */
  function Run(st: ParserState, args: seq<string>): ParserState
    decreases |args|
  {
    if |args| == 0 then st else Run(Step(st, args[0]), args[1..])
  }

  /** The parse: start with nothing pending, and reject when an option is still pending
      at the end. Starting from the settings loaded from configuration reproduces the
      merge, because the parser overwrites the same fields. */
  function Parse(init: Settings, args: seq<string>): Option<Settings> {
    match Run(Scanning(init, NoOption), args)
    case Scanning(s, lastOpt) => if lastOpt == NoOption then Some(s) else None
    case Rejected => None
  }

  /** Once rejected, the parse stays rejected whatever follows. */
  lemma {:induction false} RejectedIsFinal(args: seq<string>)
    ensures Run(Rejected, args) == Rejected
    decreases |args|
  {
    if |args| > 0 {
      RejectedIsFinal(args[1..]);
    }
  }

  /** The parser written as the source's loop, with early returns, over mutable locals. */
  method ParseCommandLine(init: Settings, args: seq<string>) returns (ok: bool, s: Settings)
    ensures ok <==> Parse(init, args).Some?
    ensures ok ==> Parse(init, args) == Some(s)
  {
    s := init;
    var lastOpt := NoOption;
    var i := 0;
    while i < |args|
      invariant 0 <= i <= |args|
      invariant Run(Scanning(init, NoOption), args) == Run(Scanning(s, lastOpt), args[i..])
    {
      var arg := args[i];
      assert args[i..][1..] == args[i + 1..];
      if |arg| == 0 {
        RejectedIsFinal(args[i + 1..]);
        return false, s;
      }
      if arg[0] == '-' || arg[0] == '/' {
        if lastOpt != NoOption || |arg| != 2 {
          RejectedIsFinal(args[i + 1..]);
          return false, s;
        }
        lastOpt := arg[1];
        if lastOpt == 'c' || lastOpt == 'C' {
          s := s.(runOnConsole := true);
          lastOpt := NoOption;
        } else if lastOpt == 'i' || lastOpt == 'I' {
          s := s.(installService := true);
          lastOpt := NoOption;
        } else if lastOpt == 'u' || lastOpt == 'U' {
          s := s.(uninstallService := true);
          lastOpt := NoOption;
        }
      } else if lastOpt == 'M' || lastOpt == 'm' {
        s := s.(localHostName := arg);
        lastOpt := NoOption;
      } else if lastOpt == 'N' || lastOpt == 'n' {
        s := s.(serviceNamespace := Some(arg));
        lastOpt := NoOption;
      } else if lastOpt == 'S' || lastOpt == 's' {
        s := s.(accessRuleKey := Some(arg));
        lastOpt := NoOption;
      } else if lastOpt == 'A' || lastOpt == 'a' {
        s := s.(permittedPorts := Some(arg));
        lastOpt := NoOption;
      }
      i := i + 1;
    }
    if lastOpt != NoOption {
      return false, s;
    }
    return true, s;
  }
}
