/** The parent side of running an external command: draining the two pipes
    into the result and turning the wait status into a return code. The
    `read` and `waitpid` calls are replaced by what they returned: a
    sequence of read outcomes per pipe and the outcome of the wait. */
module Capturer {
  import opened Conv
  import opened Commands
  import opened Shell

  /** One `read` on a pipe: the bytes it delivered (none at end of stream)
      or a failure. */
  datatype ReadCall = Chunk(data: string) | ReadError

  /** The count `read` returns. */
  function Count(r: ReadCall): (n: int)
    ensures n > 0 <==> r.Chunk? && r.data != []
  {
    match r
    case Chunk(data) => |data|
    case ReadError => -1
  }

  /** What the append loop collects: the chunks in order, up to the first
      read that returns a count of zero or less. Running out of recorded
      reads is an end of stream. */
  function Drained(calls: seq<ReadCall>): string
    decreases |calls|
  {
    if calls == [] || Count(calls[0]) <= 0 then []
    else calls[0].data + Drained(calls[1..])
  }

  /** The data of every read, in order, whatever its count. */
  function AllData(calls: seq<ReadCall>): string
    decreases |calls|
  {
    if calls == [] then []
    else (if calls[0].Chunk? then calls[0].data else []) + AllData(calls[1..])
  }

  /** `read_pipe`: appends each chunk to `out` while `read` returns a
      positive count. */
  method ReadPipe(out: string, calls: seq<ReadCall>) returns (out': string)
    ensures out' == out + Drained(calls)
  {
    out' := out;
    var i := 0;
    while i < |calls| && Count(calls[i]) > 0
      invariant 0 <= i <= |calls|
      invariant out' + Drained(calls[i..]) == out + Drained(calls)
    {
      assert calls[i..][1..] == calls[i + 1..];
      out' := out' + calls[i].data;
      i := i + 1;
    }
  }

  /** The loop takes exactly the chunks before the first read whose count is
      not positive, and nothing recorded after that read is ever looked at. */
  lemma {:induction false} DrainedStopsAtFirstEnd(calls: seq<ReadCall>, k: nat, more: seq<ReadCall>)
    requires k < |calls| && Count(calls[k]) <= 0
    requires forall j :: 0 <= j < k ==> Count(calls[j]) > 0
    ensures Drained(calls[..k + 1] + more) == AllData(calls[..k])
    ensures Drained(calls) == AllData(calls[..k])
    decreases k
  {
    if k == 0 {
      assert (calls[..1] + more)[0] == calls[0];
      assert calls[..0] == [];
    } else {
      var tail := calls[1..];
      assert (calls[..k + 1] + more)[0] == calls[0];
      assert (calls[..k + 1] + more)[1..] == tail[..k] + more;
      assert calls[..k][1..] == tail[..k - 1];
      assert calls[..k][0] == calls[0];
      DrainedStopsAtFirstEnd(tail, k - 1, more);
      assert tail[..k] == tail[..k - 1 + 1];
    }
  }

  // ---------------------------------------------------------------------
  // Wait status
  // ---------------------------------------------------------------------

  /** The status word `waitpid` stores, as Linux fills it: the termination
      signal in the low seven bits, a core-dump flag in bit 7 and the exit
      status in the next byte. */
  type WaitStatus = s: int | 0 <= s < 0x1_0000

  /** How the wait ended: `waitpid` failed with the given error text, or it
      stored a status word. */
  datatype WaitOutcome = WaitFailed(reason: string) | Waited(status: WaitStatus)

  /** The glibc definitions of the status macros. */
  function TermSig(s: WaitStatus): (n: nat)
    ensures n < 0x80
  {
    s % 0x80
  }

  predicate IfExited(s: WaitStatus): (b: bool)
    ensures b <==> s % 0x80 == 0
    ensures b ==> s == ExitStatus(s) * 0x100 + s % 0x100
  {
    TermSig(s) == 0
  }

  function ExitStatus(s: WaitStatus): (c: nat)
    ensures c < 0x100
  {
    (s / 0x100) % 0x100
  }

  predicate IfSignaled(s: WaitStatus): (b: bool)
    ensures b ==> !IfExited(s) && 1 <= TermSig(s) < 0x7F
    ensures !IfExited(s) && s % 0x80 != 0x7F ==> b
  {
    TermSig(s) != 0 && TermSig(s) != 0x7F
  }

  /** What the capture leaves in the result and what it writes to the
      shell's own standard error. */
  datatype Capture = Capture(result: CommandResult, err: string)

  function SignalMessage(n: nat): string
  {
    "Process terminated by signal " + DecimalString(n) + "\n"
  }

  /** `capture_parent` as a function of the result it started from. */
  function Captured(res: CommandResult, outCalls: seq<ReadCall>, errCalls: seq<ReadCall>,
                    wait: WaitOutcome): (c: Capture)
    ensures c.result.stdoutData == res.stdoutData + Drained(outCalls)
    ensures c.result.stderrData == res.stderrData + Drained(errCalls)
  {
    var drained := res.(stdoutData := res.stdoutData + Drained(outCalls),
                        stderrData := res.stderrData + Drained(errCalls));
    match wait
    case WaitFailed(reason) =>
      Capture(drained.(returnCode := ExitCmdNotFound), "waitpid: " + reason + "\n")
    case Waited(s) =>
      if IfExited(s) then Capture(drained.(returnCode := ExitStatus(s)), [])
      else if IfSignaled(s) then
        Capture(drained.(returnCode := ExitSignalBase + TermSig(s)), SignalMessage(TermSig(s)))
      else Capture(drained, [])
  }

  /** The return code after a capture: 127 when the wait failed, the exit
      status (0..255) after a normal exit, 128 + n (129..254) after signal n,
      and otherwise (a stopped or continued child) the code it had before. A
      message goes to standard error exactly for a failed wait and for a
      signal. */
  lemma CapturedCode(res: CommandResult, outCalls: seq<ReadCall>, errCalls: seq<ReadCall>,
                     wait: WaitOutcome)
    ensures var c := Captured(res, outCalls, errCalls, wait);
      && (wait.WaitFailed? ==> c.result.returnCode == ExitCmdNotFound)
      && (wait.Waited? && IfExited(wait.status) ==>
            c.result.returnCode == ExitStatus(wait.status) && 0 <= c.result.returnCode <= 255)
      && (wait.Waited? && IfSignaled(wait.status) ==>
            c.result.returnCode == ExitSignalBase + TermSig(wait.status)
            && 129 <= c.result.returnCode <= 254)
      && (wait.Waited? && !IfExited(wait.status) && !IfSignaled(wait.status) ==>
            c.result.returnCode == res.returnCode)
      && (c.err != [] <==> wait.WaitFailed? || IfSignaled(wait.status))
  {
  }

  /** A child that called `_exit(code)` is reported with that code; in
      particular the 126 and 127 the child uses when `execvp` fails come
      back unchanged. */
  lemma {:induction false} ExitedChild(code: nat, res: CommandResult, outCalls: seq<ReadCall>,
                                       errCalls: seq<ReadCall>)
    requires code < 0x100
    ensures var s: WaitStatus := code * 0x100;
      && IfExited(s) && !IfSignaled(s)
      && Captured(res, outCalls, errCalls, Waited(s)).result.returnCode == code
      && Captured(res, outCalls, errCalls, Waited(s)).err == []
  {
    var s: WaitStatus := code * 0x100;
    assert s % 0x80 == 0 by {
      assert s == (code * 2) * 0x80;
    }
    assert s / 0x100 == code;
  }

  /** A child killed by signal n (with or without a core dump) is reported
      as 128 + n, and the message names the signal so that the number can be
      read back from it. */
  lemma {:induction false} SignaledChild(n: nat, core: bool, res: CommandResult,
                                         outCalls: seq<ReadCall>, errCalls: seq<ReadCall>)
    requires 1 <= n < 0x7F
    ensures var s: WaitStatus := n + (if core then 0x80 else 0);
      && IfSignaled(s) && !IfExited(s)
      && Captured(res, outCalls, errCalls, Waited(s)).result.returnCode == 128 + n
      && Captured(res, outCalls, errCalls, Waited(s)).err == SignalMessage(n)
      && Stoi(SignalMessage(n)[|"Process terminated by signal "|..]) == Parsed(n)
  {
    var s: WaitStatus := n + (if core then 0x80 else 0);
    if core {
      assert s == 0x80 + n;
    }
    assert TermSig(s) == n;
    var prefix := "Process terminated by signal ";
    var tail := DecimalString(n) + "\n";
    assert SignalMessage(n) == prefix + tail;
    assert SignalMessage(n)[|prefix|..] == tail;
    StoiReadsDecimal(n, "\n");
  }

  /** The object `capture_parent` works on: the result it fills in. */
  class ResultCapturer {
    var result: CommandResult

    constructor (res: CommandResult)
      ensures result == res
    {
      result := res;
    }

    /** `capture_parent`: drains standard output, then standard error, then
        waits for the child and sets the return code from its status. The
        returned text is what goes to the shell's own standard error. */
    method CaptureParent(outCalls: seq<ReadCall>, errCalls: seq<ReadCall>, wait: WaitOutcome)
      returns (err: string)
      modifies this
      ensures Capture(result, err) == Captured(old(result), outCalls, errCalls, wait)
    {
      var out := ReadPipe(result.stdoutData, outCalls);
      result := result.(stdoutData := out);
      var errData := ReadPipe(result.stderrData, errCalls);
      result := result.(stderrData := errData);
      err := [];
      match wait {
        case WaitFailed(reason) =>
          err := "waitpid: " + reason + "\n";
          result := result.(returnCode := ExitCmdNotFound);
          return;
        case Waited(s) =>
          if IfExited(s) {
            result := result.(returnCode := ExitStatus(s));
          } else if IfSignaled(s) {
            err := SignalMessage(TermSig(s));
            result := result.(returnCode := ExitSignalBase + TermSig(s));
          }
      }
    }
  }
}
