/** A declarative description of the command line the parser accepts, and of the settings
    it produces, written without the pending-option register; and the proofs that the
    parser agrees with it. */
module CommandLineGrammar {
  import opened Wrappers
  import opened Ascii
  import opened ProgramSettings
  import opened CommandLine

  /** c, i and u in either case: options without a value. */
  predicate IsFlagLetter(c: char) {
    Lower(c) == 'c' || Lower(c) == 'i' || Lower(c) == 'u'
  }

  /** m, n, s and a in either case: options that take the next token as their value. */
  predicate TakesValue(c: char) {
    Lower(c) == 'm' || Lower(c) == 'n' || Lower(c) == 's' || Lower(c) == 'a'
  }

  /** Letters the parser ever clears from the register; an option token carrying the
      character '\0' leaves the register empty and so acts as a no-op. */
  predicate KnownLetter(c: char) {
    c == NoOption || IsFlagLetter(c) || TakesValue(c)
  }

  /** A two-character option token whose letter folds to `letter`. */
  predicate IsOptionFor(arg: string, letter: char) {
    IsOptionToken(arg) && |arg| == 2 && Lower(arg[1]) == letter
  }

  /** A two-character option token whose letter takes a value. */
  predicate IsValueOption(arg: string) {
    IsOptionToken(arg) && |arg| == 2 && TakesValue(arg[1])
  }

  /** The token after position `j`, if there is one. */
  function Next(args: seq<string>, j: int): Option<string>
    requires 0 <= j < |args|
  {
    if j + 1 < |args| then Some(args[j + 1]) else None
  }

  /** What a single token, followed by `next`, must satisfy: it is not empty; an option
      token is two characters long and carries a known letter; and an option that takes a
      value is followed by a value token. */
  predicate TokenOk(arg: string, next: Option<string>) {
    && |arg| > 0
    && (IsOptionToken(arg) ==> |arg| == 2)
    && (IsOptionToken(arg) && |arg| == 2 ==> KnownLetter(arg[1]))
    && (IsValueOption(arg) ==> next.Some? && IsValueToken(next.value))
  }

  /** The accepted command lines: every token is in order with its successor. */
  predicate WellFormed(args: seq<string>) {
    forall j :: 0 <= j < |args| ==> TokenOk(args[j], Next(args, j))
  }

  /** Some option token in `args` has the (lower-case) letter `letter`. */
  predicate HasFlag(args: seq<string>, letter: char) {
    exists j :: 0 <= j < |args| && IsOptionFor(args[j], letter)
  }

  /** The token following the last `letter` option in `args`, if any. */
  function LastValue(args: seq<string>, letter: char): Option<string>
    decreases |args|
  {
    if |args| == 0 then None
    else
      var here := if IsOptionFor(args[0], letter) && |args| > 1 then Some(args[1]) else None;
      LastValue(args[1..], letter).Or(here)
  }

  /** The settings a well-formed command line declares on top of `init`: a flag is set when
      given anywhere (and never cleared), a value field holds the value of its last
      occurrence or keeps its initial value, and the access-rule name is untouched. */
  function Declared(init: Settings, args: seq<string>): Settings {
    Settings(
      init.runOnConsole || HasFlag(args, 'c'),
      init.installService || HasFlag(args, 'i'),
      init.uninstallService || HasFlag(args, 'u'),
      LastValue(args, 'n').Or(init.serviceNamespace),
      init.accessRuleName,
      LastValue(args, 's').Or(init.accessRuleKey),
      LastValue(args, 'a').Or(init.permittedPorts),
      LastValue(args, 'm').GetOr(init.localHostName))
  }

  // ----- the failure causes, one predicate each -----

  predicate HasEmptyToken(args: seq<string>) {
    exists j :: 0 <= j < |args| && args[j] == ""
  }

  predicate HasBadLengthOption(args: seq<string>) {
    exists j :: 0 <= j < |args| && IsOptionToken(args[j]) && |args[j]| != 2
  }

  predicate HasUnknownLetter(args: seq<string>) {
    exists j :: 0 <= j < |args| && IsOptionToken(args[j]) && |args[j]| == 2 && !KnownLetter(args[j][1])
  }

  /** An option that takes a value is directly followed by another option token. */
  predicate HasOptionWhilePending(args: seq<string>) {
    exists j :: 0 <= j < |args| - 1 && IsValueOption(args[j]) && IsOptionToken(args[j + 1])
  }

  /** The last token is an option that takes a value. */
  predicate EndsPending(args: seq<string>) {
    |args| > 0 && IsValueOption(args[|args| - 1])
  }

  // ----- proofs -----

  lemma WellFormedCons(args: seq<string>)
    requires |args| > 0
    ensures WellFormed(args) <==> TokenOk(args[0], Next(args, 0)) && WellFormed(args[1..])
  {
    var rest := args[1..];
    forall j | 0 <= j < |rest|
      ensures TokenOk(rest[j], Next(rest, j)) == TokenOk(args[j + 1], Next(args, j + 1))
    {
      assert rest[j] == args[j + 1];
      if j + 1 < |rest| {
        assert rest[j + 1] == args[j + 2];
      }
    }
    if TokenOk(args[0], Next(args, 0)) && WellFormed(rest) {
      forall j | 0 <= j < |args|
        ensures TokenOk(args[j], Next(args, j))
      {
        if j > 0 {
          assert TokenOk(rest[j - 1], Next(rest, j - 1));
        }
      }
    }
  }

  lemma HasFlagCons(args: seq<string>, letter: char)
    requires |args| > 0
    ensures HasFlag(args, letter) <==> IsOptionFor(args[0], letter) || HasFlag(args[1..], letter)
  {
    if HasFlag(args, letter) && !IsOptionFor(args[0], letter) {
      var j :| 0 <= j < |args| && IsOptionFor(args[j], letter);
      assert args[1..][j - 1] == args[j];
    }
    if HasFlag(args[1..], letter) {
      var j :| 0 <= j < |args[1..]| && IsOptionFor(args[1..][j], letter);
      assert args[j + 1] == args[1..][j];
    }
  }

  /** A leading token that is not an option for any letter leaves the declared settings as
      they would be without it. */
  lemma DeclaredSkip(s: Settings, args: seq<string>)
    requires |args| > 0
    requires !IsOptionToken(args[0]) || (|args[0]| == 2 && args[0][1] == NoOption)
    ensures Declared(s, args) == Declared(s, args[1..])
  {
    HasFlagCons(args, 'c');
    HasFlagCons(args, 'i');
    HasFlagCons(args, 'u');
  }

  /** A leading flag token is the same as setting the flag first. */
  lemma DeclaredFlag(s: Settings, args: seq<string>)
    requires |args| > 0 && IsOptionToken(args[0]) && |args[0]| == 2 && IsFlagLetter(args[0][1])
    ensures Declared(s, args) == Declared(ApplyOption(s, args[0][1]).settings, args[1..])
  {
    HasFlagCons(args, 'c');
    HasFlagCons(args, 'i');
    HasFlagCons(args, 'u');
  }

  lemma LastValueAfterAssign(args: seq<string>, letter: char)
    requires |args| > 1 && IsValueOption(args[0]) && IsValueToken(args[1])
    ensures LastValue(args, letter)
         == LastValue(args[2..], letter).Or(if Lower(args[0][1]) == letter then Some(args[1]) else None)
  {
    assert args[1..][1..] == args[2..];
  }

  /** A leading value option and its value are the same as assigning the value first. */
  lemma DeclaredAssign(s: Settings, args: seq<string>)
    requires |args| > 1 && IsValueOption(args[0]) && IsValueToken(args[1])
    ensures Declared(s, args) == Declared(ApplyValue(s, args[0][1], args[1]).settings, args[2..])
  {
    var rest := args[1..];
    assert rest[1..] == args[2..];
    HasFlagCons(args, 'c');
    HasFlagCons(args, 'i');
    HasFlagCons(args, 'u');
    HasFlagCons(rest, 'c');
    HasFlagCons(rest, 'i');
    HasFlagCons(rest, 'u');
    LastValueAfterAssign(args, 'm');
    LastValueAfterAssign(args, 'n');
    LastValueAfterAssign(args, 's');
    LastValueAfterAssign(args, 'a');
  }

  /** An unrecognised letter is never cleared: from then on the parser either rejects or
      keeps the letter pending. */
  lemma {:induction false} UnknownStaysPending(s: Settings, x: char, args: seq<string>)
    requires !KnownLetter(x)
    ensures Run(Scanning(s, x), args) == Rejected || Run(Scanning(s, x), args).lastOpt == x
    decreases |args|
  {
    if |args| > 0 {
      var st := Step(Scanning(s, x), args[0]);
      if st == Rejected {
        RejectedIsFinal(args[1..]);
      } else {
        assert st == Scanning(s, x);
        UnknownStaysPending(s, x, args[1..]);
      }
    }
  }

  /** The heart of the correspondence: from an empty register, the parser ends with an
      empty register exactly on well-formed input, and then holds the declared settings. */
  lemma {:induction false} IdleRun(s: Settings, args: seq<string>)
    ensures var r := Run(Scanning(s, NoOption), args);
      (r.Scanning? && r.lastOpt == NoOption) <==> WellFormed(args)
    ensures WellFormed(args) ==> Run(Scanning(s, NoOption), args) == Scanning(Declared(s, args), NoOption)
    decreases |args|
  {
    if |args| == 0 {
      return;
    }
    var t := args[0];
    var rest := args[1..];
    WellFormedCons(args);
    if |t| == 0 {
      RejectedIsFinal(rest);
    } else if IsOptionToken(t) {
      if |t| != 2 {
        RejectedIsFinal(rest);
      } else if !KnownLetter(t[1]) {
        UnknownStaysPending(s, t[1], rest);
      } else if TakesValue(t[1]) {
        assert Step(Scanning(s, NoOption), t) == Scanning(s, t[1]);
        if |rest| == 0 {
          assert !WellFormed(args);
        } else {
          var u := rest[0];
          assert Run(Scanning(s, t[1]), rest) == Run(Step(Scanning(s, t[1]), u), rest[1..]);
          assert rest[1..] == args[2..];
          if !IsValueToken(u) {
            assert Step(Scanning(s, t[1]), u) == Rejected;
            RejectedIsFinal(rest[1..]);
          } else {
            var s' := ApplyValue(s, t[1], u).settings;
            assert Step(Scanning(s, t[1]), u) == Scanning(s', NoOption);
            WellFormedCons(rest);
            IdleRun(s', args[2..]);
            DeclaredAssign(s, args);
          }
        }
      } else if t[1] == NoOption {
        assert Step(Scanning(s, NoOption), t) == Scanning(s, NoOption);
        IdleRun(s, rest);
        DeclaredSkip(s, args);
      } else {
        var s' := ApplyOption(s, t[1]).settings;
        assert Step(Scanning(s, NoOption), t) == Scanning(s', NoOption);
        IdleRun(s', rest);
        DeclaredFlag(s, args);
      }
    } else {
      assert Step(Scanning(s, NoOption), t) == Scanning(s, NoOption);
      IdleRun(s, rest);
      DeclaredSkip(s, args);
    }
  }

  /** The parser accepts exactly the well-formed command lines, and on those it yields the
      declared settings. */
  lemma ParseMatchesGrammar(init: Settings, args: seq<string>)
    ensures Parse(init, args) == if WellFormed(args) then Some(Declared(init, args)) else None
  {
    IdleRun(init, args);
  }

  /** Parsing fails exactly when a token is empty, an option token is not two characters
      long, an option letter is unknown, an option arrives while another awaits its value,
      or the input ends while an option awaits its value. */
  lemma FailureCauses(init: Settings, args: seq<string>)
    ensures Parse(init, args).None? <==>
      || HasEmptyToken(args)
      || HasBadLengthOption(args)
      || HasUnknownLetter(args)
      || HasOptionWhilePending(args)
      || EndsPending(args)
  {
    ParseMatchesGrammar(init, args);
    if !WellFormed(args) {
      var j :| 0 <= j < |args| && !TokenOk(args[j], Next(args, j));
      if args[j] == "" {
        assert HasEmptyToken(args);
      } else if IsOptionToken(args[j]) && |args[j]| != 2 {
        assert HasBadLengthOption(args);
      } else if IsOptionToken(args[j]) && !KnownLetter(args[j][1]) {
        assert HasUnknownLetter(args);
      } else if j + 1 < |args| {
        if args[j + 1] == "" {
          assert HasEmptyToken(args);
        } else {
          assert HasOptionWhilePending(args);
        }
      } else {
        assert EndsPending(args);
      }
    }
  }
}
