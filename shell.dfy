/** The shell object as the built-ins see it, and the conventional exit
    codes of the POSIX Shell Command Language (IEEE Std 1003.1, Shell and
    Utilities volume, section 2.8.2 "Exit Status for Commands"). */
module Shell {
  import opened Conv

  /** A command was found but could not be executed. */
  const ExitCmdNotExecutable: Int32 := 126
  /** A command was not found. */
  const ExitCmdNotFound: Int32 := 127
  /** A command killed by signal n reports 128 + n. */
  const ExitSignalBase: Int32 := 128

  /** The shell: `running` is cleared by the `exit` built-in, after which the
      read loop stops. */
  class NullShell {
    var running: bool

    constructor ()
      ensures running
    {
      running := true;
    }

    /** `exit`: marks the shell as finished. */
    method Exit()
      modifies this
      ensures !running
    {
      running := false;
    }
  }
}
