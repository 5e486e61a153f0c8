/** The command and result records shared by the parser, the executor and the
    built-ins, and `sanitize_result`, which newline-terminates both captured
    streams of a result. */
module Commands {
  import opened Conv
  import Util

  /** The display operators a command line may carry. */
  datatype Op = None | ForceOutput | DiscardOutput | PrintRC | PrintRCHuman

  /** A parsed line: the words that are not operators (the command word
      first) and the operators, each in the order they appeared. */
  datatype Command = Command(args: seq<string>, ops: seq<Op>)

  /** A command as the executor and the built-ins read it: the command word
      and the arguments after it. */
  datatype Invocation = Invocation(name: string, args: seq<string>)

  /** What running a command produced. */
  datatype CommandResult = CommandResult(returnCode: Int32, stdoutData: string, stderrData: string)

  /** A value-initialised result: code 0 and both streams empty. */
  const EmptyResult: CommandResult := CommandResult(0, "", "")

  /** The result with both streams newline-terminated. */
  function Sanitized(res: CommandResult): CommandResult
  {
    res.(stdoutData := Util.NewlineTerminated(res.stdoutData),
         stderrData := Util.NewlineTerminated(res.stderrData))
  }

  /** `sanitize_result`: applies `newline` to the stdout field and then to
      the stderr field of the result it is given. */
  method SanitizeResult(res: CommandResult) returns (res': CommandResult)
    ensures res' == Sanitized(res)
    ensures res'.returnCode == res.returnCode
  {
    res' := res;
    var out := Util.Newline(res'.stdoutData);
    res' := res'.(stdoutData := out);
    var err := Util.Newline(res'.stderrData);
    res' := res'.(stderrData := err);
  }

  /** After sanitising, each stream ends in '\n' exactly when it is
      non-empty, empty streams stay empty, a stream already ending in '\n' is
      untouched, the return code is kept, and sanitising again changes
      nothing. */
  lemma SanitizedShape(res: CommandResult)
    ensures var s := Sanitized(res);
      && s.returnCode == res.returnCode
      && (s.stdoutData != [] <==> res.stdoutData != [])
      && (s.stderrData != [] <==> res.stderrData != [])
      && (s.stdoutData != [] ==> s.stdoutData[|s.stdoutData| - 1] == '\n')
      && (s.stderrData != [] ==> s.stderrData[|s.stderrData| - 1] == '\n')
      && (res.stdoutData != [] && res.stdoutData[|res.stdoutData| - 1] == '\n' ==> s.stdoutData == res.stdoutData)
      && (res.stderrData != [] && res.stderrData[|res.stderrData| - 1] == '\n' ==> s.stderrData == res.stderrData)
      && Sanitized(s) == s
  {
    Util.NewlineIdempotent(res.stdoutData);
    Util.NewlineIdempotent(res.stderrData);
  }
}
