/** The executor: running an external command through the capturer, and
    applying a display operator to a result. Text the source writes to the
    shell's standard output or standard error is returned as a string. */
module Executor {
  import Wrappers
  import opened Conv
  import opened Commands
  import opened Shell
  import opened Capturer

  // ---------------------------------------------------------------------
  // apply_operator
  // ---------------------------------------------------------------------

  /** A result after an operator, with the text written to standard output
      and to standard error. */
  datatype Effect = Effect(result: CommandResult, out: string, err: string)

  /** The human-readable return-code line. */
  function HumanCode(code: Int32): string
  {
    DecimalString(code) + (if code == 0 then " (success)" else " (failure)") + "\n"
  }

  /** What an operator does to a result and what it writes. */
  function Applied(op: Op, res: CommandResult): (e: Effect)
    ensures e.result.returnCode == res.returnCode
    ensures e.result.stdoutData == res.stdoutData || e.result.stdoutData == []
    ensures e.result.stderrData == res.stderrData || e.result.stderrData == []
  {
    match op
    case ForceOutput => Effect(res, res.stdoutData, res.stderrData)
    case DiscardOutput => Effect(res.(stdoutData := [], stderrData := []), [], [])
    case PrintRC => Effect(res, DecimalString(res.returnCode) + "\n", [])
    case PrintRCHuman => Effect(res, HumanCode(res.returnCode), [])
    case None => Effect(res.(stdoutData := []), [], res.stderrData)
  }

  /** `apply_operator`: clears fields of the result in place and writes to
      the two streams, one branch per operator. */
  method ApplyOperator(op: Op, res: CommandResult) returns (res': CommandResult, out: string, err: string)
    ensures Effect(res', out, err) == Applied(op, res)
  {
    res', out, err := res, [], [];
    match op {
      case ForceOutput =>
        out := out + res'.stdoutData;
        err := err + res'.stderrData;
      case DiscardOutput =>
        res' := res'.(stdoutData := []);
        res' := res'.(stderrData := []);
      case PrintRC =>
        out := out + DecimalString(res'.returnCode) + "\n";
      case PrintRCHuman =>
        out := out + DecimalString(res'.returnCode);
        if res'.returnCode == 0 {
          out := out + " (success)";
        } else {
          out := out + " (failure)";
        }
        out := out + "\n";
      case None =>
        res' := res'.(stdoutData := []);
        err := err + res'.stderrData;
    }
  }

  /** What each operator writes and keeps: "!" passes both streams through
      verbatim, "?" empties both and is silent, the default empties standard
      output and forwards standard error, and the two return-code operators
      leave the result alone and write only to standard output. */
  lemma OperatorStreams(op: Op, res: CommandResult)
    ensures var e := Applied(op, res);
      && (op == ForceOutput ==> e.result == res && e.out == res.stdoutData && e.err == res.stderrData)
      && (op == DiscardOutput ==> e.result == CommandResult(res.returnCode, [], []) && e.out == [] && e.err == [])
      && (op == None ==> e.result == CommandResult(res.returnCode, [], res.stderrData)
                         && e.out == [] && e.err == res.stderrData)
      && (op == PrintRC || op == PrintRCHuman ==> e.result == res && e.err == [] && e.out != [])
  {
  }

  /** Applying the same operator twice leaves the result as applying it once. */
  lemma ResultIdempotent(op: Op, res: CommandResult)
    ensures Applied(op, Applied(op, res).result).result == Applied(op, res).result
  {
  }

  /** The "$?" line is the return code in decimal and a newline: reading it
      back with `std::stoi` gives the code. */
  lemma PrintRCReadsBack(res: CommandResult)
    ensures var out := Applied(PrintRC, res).out;
      && out[|out| - 1] == '\n'
      && Stoi(out) == Parsed(res.returnCode)
  {
    StoiReadsDecimal(res.returnCode, "\n");
  }

  predicate EndsWith(s: string, suffix: string)
  {
    |suffix| <= |s| && s[|s| - |suffix|..] == suffix
  }

  /** The "$??" line reads back as the code. */
  lemma PrintRCHumanReadsBack(res: CommandResult)
    ensures Stoi(Applied(PrintRCHuman, res).out) == Parsed(res.returnCode)
  {
    var word := if res.returnCode == 0 then " (success)\n" else " (failure)\n";
    assert Applied(PrintRCHuman, res).out == DecimalString(res.returnCode) + word;
    StoiReadsDecimal(res.returnCode, word);
  }

  /** The "$??" line ends in " (success)\n" exactly when the code is 0, and
      in " (failure)\n" otherwise. */
  lemma PrintRCHumanVerdict(res: CommandResult)
    ensures var out := Applied(PrintRCHuman, res).out;
      && (EndsWith(out, " (success)\n") <==> res.returnCode == 0)
      && (EndsWith(out, " (failure)\n") <==> res.returnCode != 0)
  {
    var success, failure := " (success)\n", " (failure)\n";
    var word := if res.returnCode == 0 then success else failure;
    var out := DecimalString(res.returnCode) + word;
    assert Applied(PrintRCHuman, res).out == out;
    assert out[|out| - |word|..] == word;
    assert success[2] != failure[2];
  }

  // ---------------------------------------------------------------------
  // exec_external
  // ---------------------------------------------------------------------

  const PipeError: string := "Failed to create pipes"

  /** What the operating system did when the executor asked for a child:
      creating the pipes failed, `fork` failed (with its error text), or the
      child ran and the parent recorded its reads and its wait. */
  datatype Spawn =
    | PipeFailure
    | ForkFailed(reason: string)
    | Forked(outCalls: seq<ReadCall>, errCalls: seq<ReadCall>, wait: WaitOutcome)

  /** `exec_external`: a result, with the text for the shell's standard
      error, or the exception `init_pipes` throws. */
  function External(cmd: Invocation, spawn: Spawn): (r: Wrappers.Result<Capture, string>)
  {
    if cmd.name == [] then Wrappers.Success(Capture(EmptyResult, []))
    else
      match spawn
      case PipeFailure => Wrappers.Failure(PipeError)
      case ForkFailed(reason) =>
        Wrappers.Success(Capture(EmptyResult.(returnCode := ExitCmdNotFound), "fork: " + reason + "\n"))
      case Forked(outCalls, errCalls, wait) => Wrappers.Success(Captured(EmptyResult, outCalls, errCalls, wait))
  }

  /** `exec_external`: returns the empty result at once for an empty name;
      otherwise sets up the pipes, forks, and lets a capturer bound to the
      local result fill it in. */
  method ExecExternal(cmd: Invocation, spawn: Spawn) returns (r: Wrappers.Result<Capture, string>)
    ensures r == External(cmd, spawn)
  {
    var capturer := new ResultCapturer(EmptyResult);
    if cmd.name == [] {
      return Wrappers.Success(Capture(capturer.result, []));
    }
    if spawn.PipeFailure? {
      return Wrappers.Failure(PipeError);
    }
    if spawn.ForkFailed? {
      capturer.result := capturer.result.(returnCode := ExitCmdNotFound);
      return Wrappers.Success(Capture(capturer.result, "fork: " + spawn.reason + "\n"));
    }
    var err := capturer.CaptureParent(spawn.outCalls, spawn.errCalls, spawn.wait);
    r := Wrappers.Success(Capture(capturer.result, err));
  }

  /** An empty command name gives the value-initialised result whatever the
      operating system would have done: nothing is spawned. */
  lemma EmptyNameSpawnsNothing(args: seq<string>, spawn: Spawn, spawn': Spawn)
    ensures External(Invocation([], args), spawn) == Wrappers.Success(Capture(CommandResult(0, [], []), []))
    ensures External(Invocation([], args), spawn) == External(Invocation([], args), spawn')
  {
  }

  /** For a non-empty name: only a pipe failure escapes as an error, a
      failed fork reports 127, and a child's output is exactly what was
      drained from its pipes. */
  lemma ExternalOutcomes(cmd: Invocation, spawn: Spawn)
    requires cmd.name != []
    ensures External(cmd, spawn).Failure? <==> spawn.PipeFailure?
    ensures spawn.ForkFailed? ==> External(cmd, spawn).value.result == CommandResult(127, [], [])
    ensures spawn.Forked? ==>
      && External(cmd, spawn).value.result.stdoutData == Drained(spawn.outCalls)
      && External(cmd, spawn).value.result.stderrData == Drained(spawn.errCalls)
  {
  }
}
