/** The built-in commands and their dispatch table. What the built-ins learn
    from the process (HOME, the working directory, whether a path names a
    directory) is passed in as a `Host`; what they do to the process
    (changing directory, ending the shell) is part of their outcome. */
module Builtins {
  import Wrappers
  import opened Conv
  import opened Commands
  import opened Shell
  import opened CType
  import Util
  import Tokenizer

  /** The four handlers of the table. */
  datatype Builtin = ChangeDir | PrintDir | ExitShell | EchoArgs

  /** The dispatch table. */
  const Table: map<string, Builtin> :=
    map["cd" := ChangeDir, "pwd" := PrintDir, "exit" := ExitShell, "echo" := EchoArgs]

  /** `is_builtin`: membership in the table, which holds exactly the four
      names. */
  predicate IsBuiltin(name: string): (b: bool)
    ensures b <==> name == "cd" || name == "pwd" || name == "exit" || name == "echo"
  {
    name in Table
  }

  /** A failure reported by the host: an error code and its message. */
  datatype HostError = HostError(code: Int32, message: string)

  /** The parts of the process environment the built-ins consult: the value
      of HOME, the current directory, and the check that resolves a path to
      a directory. */
  datatype Host = Host(home: Wrappers.Option<string>,
                       cwd: Wrappers.Result<string, HostError>,
                       resolve: string -> Wrappers.Result<string, HostError>)

  /** A built-in's result, the directory it switched to (if any) and whether
      it ended the shell. */
  datatype Outcome = Outcome(result: CommandResult, chdir: Wrappers.Option<string>, exits: bool)

  /** A failed built-in: code 1 and a message on standard error. */
  function Error(message: string): CommandResult
  {
    CommandResult(1, [], message)
  }

  // ---------------------------------------------------------------------
  // cd
  // ---------------------------------------------------------------------

  /** Resolving the target and switching to it. */
  function Enter(path: string, host: Host): Outcome
  {
    match host.resolve(path)
    case Failure(e) =>
      Outcome(CommandResult(e.code, [], "cd: " + path + ": " + e.message), Wrappers.None, false)
    case Success(dir) => Outcome(CommandResult(0, [], []), Wrappers.Some(dir), false)
  }

  /** `cd`: no argument goes to HOME (an error when HOME is unset), two or
      more arguments are an error, and one argument is `~`-expanded first. */
  function Cd(args: seq<string>, host: Host): (o: Outcome)
    ensures !o.exits
  {
    if args == [] then
      if host.home.None? then Outcome(Error("cd: HOME not set"), Wrappers.None, false)
      else Enter(host.home.value, host)
    else if |args| > 1 then Outcome(Error("cd: too many arguments"), Wrappers.None, false)
    else Enter(Util.ExpandUserPath(args[0], host.home), host)
  }

  /** The argument checks come first: too many arguments, or no argument
      with HOME unset, fail with code 1 and a fixed message without changing
      directory and without looking at the file system at all. */
  lemma CdArgumentChecks(args: seq<string>, host: Host, other: Host)
    requires |args| > 1 || (args == [] && host.home.None?)
    requires other.home == host.home
    ensures Cd(args, host) == Cd(args, other)
    ensures Cd(args, host).chdir.None? && Cd(args, host).result.returnCode == 1
    ensures |args| > 1 ==> Cd(args, host).result == CommandResult(1, [], "cd: too many arguments")
    ensures args == [] ==> Cd(args, host).result == CommandResult(1, [], "cd: HOME not set")
  {
  }

  /** With HOME set, `cd ~` goes where `cd` alone goes, and `cd ~/d` goes to
      d under HOME. */
  lemma CdHome(host: Host, d: string)
    requires host.home.Some?
    requires !Util.IsAbsolute(d)
    ensures Cd(["~"], host) == Cd([], host)
    ensures Cd(["~/" + d], host) == Enter(Util.PathAppend(host.home.value, d), host)
  {
    assert ("~/" + d)[..2] == "~/" && ("~/" + d)[2..] == d;
  }

  /** The directory `cd` asks the host for: HOME without an argument, the
      expanded argument otherwise. */
  function CdTarget(args: seq<string>, host: Host): string
    requires |args| <= 1 && (args == [] ==> host.home.Some?)
  {
    if args == [] then host.home.value else Util.ExpandUserPath(args[0], host.home)
  }

  /** `cd` switches directory only after the argument checks pass, only to
      what the host resolved its target to, and then reports success with
      both streams empty; once the checks pass, it switches exactly when the
      host resolves the target. */
  lemma CdChangesOnlyOnSuccess(args: seq<string>, host: Host)
    ensures var o := Cd(args, host);
      o.chdir.Some? ==>
        && |args| <= 1 && (args == [] ==> host.home.Some?)
        && host.resolve(CdTarget(args, host)) == Wrappers.Success(o.chdir.value)
        && o.result == CommandResult(0, [], [])
    ensures |args| <= 1 && (args == [] ==> host.home.Some?) ==>
      (Cd(args, host).chdir.Some? <==> host.resolve(CdTarget(args, host)).Success?)
  {
  }

  // ---------------------------------------------------------------------
  // pwd and echo
  // ---------------------------------------------------------------------

  /** `pwd`: the current directory and a newline, or the host's error code
      and message. */
  function Pwd(host: Host): (r: CommandResult)
    ensures host.cwd.Success? ==> r.returnCode == 0 && r.stderrData == []
                                  && r.stdoutData != [] && r.stdoutData[|r.stdoutData| - 1] == '\n'
    ensures host.cwd.Failure? ==> r.stdoutData == []
  {
    match host.cwd
    case Success(dir) => CommandResult(0, dir + "\n", [])
    case Failure(e) => CommandResult(e.code, [], e.message)
  }

  /** `echo`: the arguments joined by single spaces, then a newline. */
  function Echo(args: seq<string>): (r: CommandResult)
    ensures r.returnCode == 0 && r.stderrData == []
    ensures r.stdoutData != [] && r.stdoutData[|r.stdoutData| - 1] == '\n'
  {
    CommandResult(0, Tokenizer.Join(args) + "\n", [])
  }

  function TotalLength(words: seq<string>): nat
  {
    if words == [] then 0 else |words[0]| + TotalLength(words[1..])
  }

  /** `echo` writes every character of every argument, one space between
      neighbours (so empty arguments give runs of spaces) and a newline. */
  lemma {:induction false} EchoLength(args: seq<string>)
    ensures |Echo(args).stdoutData| == TotalLength(args) + (if args == [] then 1 else |args|)
    decreases |args|
  {
    if |args| > 1 {
      EchoLength(args[1..]);
    }
  }

  /** `echo` prints the arguments it was given, in order: one more argument
      adds a space and that argument before the newline. */
  lemma EchoAppend(args: seq<string>, w: string)
    ensures args == [] ==> Echo(args + [w]).stdoutData == w + "\n"
    ensures args != [] ==> Echo(args + [w]).stdoutData == Tokenizer.Join(args) + " " + w + "\n"
  {
    JoinSnoc(args, w);
  }

  lemma {:induction false} JoinSnoc(args: seq<string>, w: string)
    ensures args == [] ==> Tokenizer.Join(args + [w]) == w
    ensures args != [] ==> Tokenizer.Join(args + [w]) == Tokenizer.Join(args) + " " + w
    decreases |args|
  {
    if args == [] {
      assert args + [w] == [w];
    } else if |args| == 1 {
      assert args + [w] == [args[0], w];
      assert [args[0], w][1..] == [w];
    } else {
      assert (args + [w])[1..] == args[1..] + [w];
      assert (args + [w])[0] == args[0];
      JoinSnoc(args[1..], w);
    }
  }

  /** `echo` with plain arguments prints a line that the tokenizer splits
      back into exactly those arguments; with none it prints a bare newline,
      which holds no token. */
  lemma EchoRetokenizes(args: seq<string>)
    requires forall k :: 0 <= k < |args| ==> Tokenizer.PlainWord(args[k])
    ensures Tokenizer.Tokenized(Echo(args).stdoutData) == Wrappers.Success(args)
  {
    var line := Echo(args).stdoutData;
    if args == [] {
      assert line == "\n";
      Tokenizer.BlankLineNoTokens(line);
    } else {
      var init, last := args[..|args| - 1], args[|args| - 1];
      Tokenizer.ScanJoined([], args, "\n");
      assert [] + init == init;
      var st := Tokenizer.Lexer(init, last, false, false);
      assert Tokenizer.Scan(st, "\n") == Tokenizer.Scan(Tokenizer.PushToken(st), "\n"[1..]);
      assert "\n"[1..] == [];
      assert init + [last] == args;
    }
  }

  /** The examples of the built-in tests: no arguments print a bare newline,
      and empty arguments between two words keep one space each. */
  lemma EchoExamples()
    ensures Echo([]).stdoutData == "\n"
    ensures Echo(["Hello,", "", "", "World!"]).stdoutData == "Hello,   World!\n"
  {
    assert Tokenizer.Join(["World!"]) == "World!";
    assert Tokenizer.Join(["", "World!"]) == " World!";
    assert Tokenizer.Join(["", "", "World!"]) == "  World!";
  }

  // ---------------------------------------------------------------------
  // exit
  // ---------------------------------------------------------------------

  /** What `exit` decides: no argument ends the shell with 0, a number read
      by `std::stoi` ends it with that number, and an argument `std::stoi`
      rejects is reported without ending the shell. */
  function ExitVerdict(args: seq<string>): (o: Outcome)
    ensures o.chdir.None?
  {
    if args == [] then Outcome(CommandResult(0, [], []), Wrappers.None, true)
    else
      match Stoi(args[0])
      case Parsed(v) => Outcome(CommandResult(v, [], []), Wrappers.None, true)
      case InvalidArgument => Outcome(Error("exit: numeric argument required"), Wrappers.None, false)
      case OutOfRange => Outcome(Error("exit: numeric argument out of range"), Wrappers.None, false)
  }

  /** `builtin_exit`: parses the first argument, if any, returns early on
      either exception, and otherwise tells the shell to stop. */
  method BuiltinExit(args: seq<string>, sh: NullShell) returns (res: CommandResult)
    modifies sh
    ensures res == ExitVerdict(args).result
    ensures ExitVerdict(args).exits ==> !sh.running
    ensures !ExitVerdict(args).exits ==> sh.running == old(sh.running)
  {
    var status: Int32 := 0;
    if args != [] {
      match Stoi(args[0]) {
        case InvalidArgument =>
          return Error("exit: numeric argument required");
        case OutOfRange =>
          return Error("exit: numeric argument out of range");
        case Parsed(v) =>
          status := v;
      }
    }
    sh.Exit();
    res := CommandResult(status, [], []);
  }

  /** `exit n` with n written in decimal, whatever follows it, ends the
      shell with code n; the remaining arguments are ignored. */
  lemma ExitReadsCode(n: Int32, junk: string, more: seq<string>)
    requires junk == [] || !IsDigit(junk[0])
    ensures ExitVerdict([DecimalString(n) + junk] + more) == Outcome(CommandResult(n, [], []), Wrappers.None, true)
  {
    StoiReadsDecimal(n, junk);
  }

  /** A number above `INT_MAX` is reported as out of range and the shell
      keeps running. */
  lemma ExitOutOfRange(n: nat, more: seq<string>)
    requires n > IntMax
    ensures ExitVerdict([NatDigits(n)] + more)
         == Outcome(CommandResult(1, [], "exit: numeric argument out of range"), Wrappers.None, false)
  {
    assert NatDigits(n) + [] == NatDigits(n);
    StoiOutOfRange(n, []);
  }

  /** An argument that starts with anything but whitespace, a sign or a digit
      is reported as not numeric and the shell keeps running. */
  lemma ExitNotNumeric(a: string, more: seq<string>)
    requires a == [] || (!IsSpace(a[0]) && !IsDigit(a[0]) && a[0] != '-' && a[0] != '+')
    ensures ExitVerdict([a] + more)
         == Outcome(CommandResult(1, [], "exit: numeric argument required"), Wrappers.None, false)
  {
    assert ([a] + more)[0] == a;
    StoiRejectsNonNumeric(a);
  }

  // ---------------------------------------------------------------------
  // Dispatch
  // ---------------------------------------------------------------------

  /** What `execute` does with a command. */
  function Dispatched(cmd: Invocation, host: Host): Outcome
  {
    if cmd.name in Table then
      match Table[cmd.name]
      case ChangeDir => Cd(cmd.args, host)
      case PrintDir => Outcome(Pwd(host), Wrappers.None, false)
      case ExitShell => ExitVerdict(cmd.args)
      case EchoArgs => Outcome(Echo(cmd.args), Wrappers.None, false)
    else
      Outcome(CommandResult(ExitCmdNotFound, [], "not a builtin"), Wrappers.None, false)
  }

  /** A name outside the table gets 127 and "not a builtin"; only `exit` can
      end the shell, and only a successful `cd` changes directory. */
  lemma DispatchShape(cmd: Invocation, host: Host)
    ensures var o := Dispatched(cmd, host);
      && (!IsBuiltin(cmd.name) ==>
            o == Outcome(CommandResult(127, [], "not a builtin"), Wrappers.None, false))
      && (o.exits ==> cmd.name == "exit")
      && (o.chdir.Some? ==> cmd.name == "cd" && o.result == CommandResult(0, [], []))
  {
    if cmd.name == "cd" {
      CdChangesOnlyOnSuccess(cmd.args, host);
    }
  }

  /** `execute`: looks the name up and runs its handler, or reports that the
      name is not a built-in. */
  method Execute(cmd: Invocation, sh: NullShell, host: Host)
    returns (res: CommandResult, chdir: Wrappers.Option<string>)
    modifies sh
    ensures res == Dispatched(cmd, host).result && chdir == Dispatched(cmd, host).chdir
    ensures Dispatched(cmd, host).exits ==> !sh.running
    ensures !Dispatched(cmd, host).exits ==> sh.running == old(sh.running)
  {
    chdir := Wrappers.None;
    if cmd.name in Table {
      match Table[cmd.name] {
        case ChangeDir =>
          var o := Cd(cmd.args, host);
          res, chdir := o.result, o.chdir;
        case PrintDir =>
          res := Pwd(host);
        case ExitShell =>
          res := BuiltinExit(cmd.args, sh);
        case EchoArgs =>
          res := Echo(cmd.args);
      }
      return;
    }
    res := CommandResult(ExitCmdNotFound, [], "not a builtin");
  }
}
