/** Laws of the parser over concatenated command lines: what appending a flag, an option
    with its value, or a stray value does to the parse. */
module CommandLineLaws {
  import opened Wrappers
  import opened Ascii
  import opened ProgramSettings
  import opened CommandLine
  import opened CommandLineGrammar

  /** Running over `a + b` is running over `a`, then over `b`. */
  lemma {:induction false} RunAppend(st: ParserState, a: seq<string>, b: seq<string>)
    ensures Run(st, a + b) == Run(Run(st, a), b)
    decreases |a|
  {
    if |a| > 0 {
      assert (a + b)[0] == a[0];
      assert (a + b)[1..] == a[1..] + b;
      RunAppend(Step(st, a[0]), a[1..], b);
    } else {
      assert a + b == b;
    }
  }

  /** After an accepted prefix, a flag option sets its flag (never clears it), leaves
      nothing pending and changes no other field. */
  lemma AppendFlag(init: Settings, a: seq<string>, s: Settings, flag: string)
    requires Parse(init, a) == Some(s)
    requires IsOptionToken(flag) && |flag| == 2 && IsFlagLetter(flag[1])
    ensures Lower(flag[1]) == 'c' ==> Parse(init, a + [flag]) == Some(s.(runOnConsole := true))
    ensures Lower(flag[1]) == 'i' ==> Parse(init, a + [flag]) == Some(s.(installService := true))
    ensures Lower(flag[1]) == 'u' ==> Parse(init, a + [flag]) == Some(s.(uninstallService := true))
  {
    RunAppend(Scanning(init, NoOption), a, [flag]);
    assert Run(Scanning(s, NoOption), [flag]) == Run(Step(Scanning(s, NoOption), flag), []);
  }

  /** After an accepted prefix, an option that takes a value followed by a value token
      assigns that value to its field, overwriting any earlier value, and changes no other
      field. */
  lemma AppendAssignment(init: Settings, a: seq<string>, s: Settings, opt: string, v: string)
    requires Parse(init, a) == Some(s)
    requires IsValueOption(opt) && IsValueToken(v)
    ensures Lower(opt[1]) == 'm' ==> Parse(init, a + [opt, v]) == Some(s.(localHostName := v))
    ensures Lower(opt[1]) == 'n' ==> Parse(init, a + [opt, v]) == Some(s.(serviceNamespace := Some(v)))
    ensures Lower(opt[1]) == 's' ==> Parse(init, a + [opt, v]) == Some(s.(accessRuleKey := Some(v)))
    ensures Lower(opt[1]) == 'a' ==> Parse(init, a + [opt, v]) == Some(s.(permittedPorts := Some(v)))
  {
    RunAppend(Scanning(init, NoOption), a, [opt, v]);
    var st := Step(Scanning(s, NoOption), opt);
    assert st == Scanning(s, opt[1]);
    assert Run(Scanning(s, NoOption), [opt, v]) == Run(st, [v]);
    assert Run(st, [v]) == Run(Step(st, v), []);
  }

  /** After an accepted prefix, a value token with nothing pending is ignored: it changes
      no field and causes no failure, whatever follows. */
  lemma StrayValueIgnored(init: Settings, a: seq<string>, v: string, b: seq<string>)
    requires Parse(init, a).Some?
    requires IsValueToken(v)
    ensures Parse(init, a + [v] + b) == Parse(init, a + b)
  {
    var start := Scanning(init, NoOption);
    RunAppend(start, a, [v] + b);
    RunAppend(start, a, b);
    assert a + [v] + b == a + ([v] + b);
    var mid := Run(start, a);
    assert mid.Scanning? && mid.lastOpt == NoOption;
    assert Step(mid, v) == mid;
    assert ([v] + b)[1..] == b;
  }
}
