/** The command-line parser: "-c <command>" selects one-shot mode, "-h" or
    "--help" asks for the usage text, and anything else is an error. The
    help request is an outcome; printing the text and leaving the process
    are the caller's business in this model. */
module CommandLine {
  import opened Wrappers

  /** The options: the one-shot command, and the terminal to spawn (which
      the parser never sets). */
  datatype Cli = Cli(oneShot: Option<string>, spawnTerm: Option<string>)

  /** How parsing ends: options to run with, a help request, or an error
      message. */
  datatype CliOutcome = Run(cli: Cli) | Help | Fail(message: string)

  const Defaults: Cli := Cli(None, None)

  const MissingArgument: string := "Missing argument to -c"

  function UnknownOption(arg: string): string
  {
    "Unknown option: " + arg
  }

  /** Parsing the arguments not yet read, with the options set so far. */
  function ParseFrom(cli: Cli, rest: seq<string>): CliOutcome
    decreases |rest|
  {
    if rest == [] then Run(cli)
    else if rest[0] == "-c" then
      if |rest| < 2 then Fail(MissingArgument)
      else ParseFrom(cli.(oneShot := Some(rest[1])), rest[2..])
    else if rest[0] == "-h" || rest[0] == "--help" then Help
    else Fail(UnknownOption(rest[0]))
  }

  /** The arguments from index i on (none once i is past the end). */
  function From(argv: seq<string>, i: nat): seq<string>
  {
    if i < |argv| then argv[i..] else []
  }

  /** What `parse_cli` makes of a whole argument vector; the program name in
      position 0 is skipped. */
  function ParsedCli(argv: seq<string>): CliOutcome
  {
    ParseFrom(Defaults, From(argv, 1))
  }

  /** `parse_cli`: walks the arguments from index 1, stepping over the value
      of each "-c" as well. */
  method ParseCli(argv: seq<string>) returns (r: CliOutcome)
    ensures r == ParsedCli(argv)
  {
    var cli := Defaults;
    var i := 1;
    while i < |argv|
      invariant 1 <= i
      invariant ParseFrom(cli, From(argv, i)) == ParsedCli(argv)
      decreases |argv| - i
    {
      var arg := argv[i];
      if arg == "-c" {
        if |argv| <= i + 1 {
          return Fail(MissingArgument);
        }
        assert argv[i..][2..] == From(argv, i + 2);
        i := i + 1;
        cli := cli.(oneShot := Some(argv[i]));
      } else if arg == "-h" || arg == "--help" {
        return Help;
      } else {
        return Fail(UnknownOption(arg));
      }
      i := i + 1;
    }
    r := Run(cli);
  }

  /** The arguments "-c v1 -c v2 ...". */
  function Pairs(values: seq<string>): (args: seq<string>)
    ensures |args| == 2 * |values|
  {
    if values == [] then [] else ["-c", values[0]] + Pairs(values[1..])
  }

  /** After any number of "-c v" pairs the last value is the one-shot
      command, whatever the values look like (a value that spells an option
      is still taken as the value). */
  lemma {:induction false} LastOneShotWins(cli: Cli, values: seq<string>, rest: seq<string>)
    ensures ParseFrom(cli, Pairs(values) + rest)
         == ParseFrom(if values == [] then cli else cli.(oneShot := Some(values[|values| - 1])), rest)
    decreases |values|
  {
    if values != [] {
      var tail := values[1..];
      var args := Pairs(values) + rest;
      assert args == ["-c", values[0]] + (Pairs(tail) + rest);
      assert args[0] == "-c" && args[1] == values[0] && args[2..] == Pairs(tail) + rest;
      LastOneShotWins(cli.(oneShot := Some(values[0])), tail, rest);
      if tail != [] {
        assert tail[|tail| - 1] == values[|values| - 1];
      }
    } else {
      assert Pairs(values) + rest == rest;
    }
  }

  /** A "-c" with nothing after it fails, however many pairs came first. */
  lemma MissingValue(cli: Cli, values: seq<string>)
    ensures ParseFrom(cli, Pairs(values) + ["-c"]) == Fail(MissingArgument)
  {
    LastOneShotWins(cli, values, ["-c"]);
  }

  /** The first argument that is not an option and not a "-c" value ends
      parsing with an error naming it; what follows is never read. */
  lemma FirstUnknownOption(cli: Cli, values: seq<string>, arg: string, rest: seq<string>)
    requires arg != "-c" && arg != "-h" && arg != "--help"
    ensures ParseFrom(cli, Pairs(values) + ([arg] + rest)) == Fail(UnknownOption(arg))
  {
    LastOneShotWins(cli, values, [arg] + rest);
  }

  /** "-h" or "--help" ends parsing with the help outcome, whatever follows. */
  lemma HelpStops(cli: Cli, values: seq<string>, arg: string, rest: seq<string>)
    requires arg == "-h" || arg == "--help"
    ensures ParseFrom(cli, Pairs(values) + ([arg] + rest)) == Help
  {
    LastOneShotWins(cli, values, [arg] + rest);
  }

  /** The parser sets only the one-shot command. */
  lemma {:induction false} SpawnTermNeverSet(cli: Cli, rest: seq<string>)
    ensures ParseFrom(cli, rest).Run? ==> ParseFrom(cli, rest).cli.spawnTerm == cli.spawnTerm
    decreases |rest|
  {
    if rest != [] && rest[0] == "-c" && |rest| >= 2 {
      SpawnTermNeverSet(cli.(oneShot := Some(rest[1])), rest[2..]);
    }
  }

  /** The examples of the parser's tests. */
  lemma CliExamples(program: string, value: string)
    ensures ParsedCli([program]) == Run(Cli(None, None))
    ensures ParsedCli([program, "-c", value]) == Run(Cli(Some(value), None))
    ensures ParsedCli([program, "-c"]) == Fail("Missing argument to -c")
    ensures ParsedCli([program, "-h"]) == Help
    ensures ParsedCli([program, "-x"]) == Fail("Unknown option: -x")
  {
    assert From([program, "-c", value], 1) == Pairs([value]) + [];
    LastOneShotWins(Defaults, [value], []);
    assert [program, "-c"][1..] == ["-c"];
    assert [program, "-h"][1..] == ["-h"];
    assert [program, "-x"][1..] == ["-x"];
  }
}
