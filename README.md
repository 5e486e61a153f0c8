# nullsh core in Dafny

nullsh is a small interactive shell. Its library provides the pieces of a
line-to-result pipeline:
- a tokenizer that splits a line into words;
- a parser that separates the display operators (`!`, `?`, `$?`, `$??`) from the command words;
- the built-ins `cd`, `pwd`, `exit` and `echo`;
- an executor that runs an external program and captures its two output streams through pipes;
- the operators, which decide what is shown: the captured output, nothing, or the return code.

The interactive loop in src/shell.cpp does not use most of these pieces. It
tokenizes each line and hands the words straight to a plain fork and
`execvp`. Neither src/shell.cpp nor src/main.cpp calls the parser, the
built-ins, the operators or the capture code.

This project models those library components. Code that edits things
step by step in the source is modelled as methods with loops or in-place
updates. Each method is proved equal to a specification function, and
lemmas prove what the source promises about those functions.

| module (file) | models |
|---|---|
| `CType` (ctype.dfy) | `std::isspace` in the C locale, and decimal digits |
| `Util` (util.dfy) | `ltrim`, `rtrim`, `trim`, `newline`, `expand_user_path` (src/util.cpp) |
| `Tokenizer` (tokenizer.dfy) | `tokenize` with its `push_token` helper (src/util.cpp) |
| `Conv` (conv.dfy) | `std::stoi` as `exit` uses it, and writing an `int` to a stream |
| `Commands` (commands.dfy) | `Op`, `Command`, `CommandResult` (include/nullsh/command.h); `sanitize_result` (src/command.cpp) |
| `Parser` (parser.dfy) | `parse_operator`, `parse_command` (src/parser.cpp) |
| `Shell` (shell.dfy) | the exit-code constants (src/shell.cpp) and the shell's running flag |
| `Capturer` (capturer.dfy) | `CommandResultCapturer::capture_parent` and `read_pipe` (src/result_capturer.cpp) |
| `Executor` (executor.dfy) | `exec_external`, `apply_operator` (src/executor.cpp) |
| `Builtins` (builtins.dfy) | the built-in table, `is_builtin`, `execute`, `cd`, `pwd`, `exit`, `echo` (src/builtins.cpp) |
| `CommandLine` (cli.dfy) | `parse_cli` (src/cli.cpp) |

How the environment is handled:
- Operating-system services are parameters of the model. HOME is an `Option<string>`. The working directory and the directory check used by `cd` are fields of a `Host` value.
- Each `read` on a pipe is a `ReadCall`: a chunk of data (empty at end of stream) or an error.
- The wait is a `WaitOutcome`: a failure, or the raw status word. That word is decoded with the glibc definitions of `WIFEXITED`, `WEXITSTATUS`, `WIFSIGNALED` and `WTERMSIG`.
- Text the source writes to `std::cout` or `std::cerr` is returned as a string.

The exit codes 126, 127 and 128 + n follow the POSIX Shell Command Language (IEEE Std 1003.1, Shell and Utilities volume, section 2.8.2 "Exit Status for Commands").

Where the source is inconsistent, the model follows the code that does the work:
- `Command` in include/nullsh/command.h has no `name` field, yet src/builtins.cpp and src/executor.cpp read `cmd.name`. The built-ins and the executor therefore take an `Invocation(name, args)`. The parser's `Command(args, ops)` keeps the command word inside `args`, as `parse_command` does.
- `command::apply_operator` is declared in command.h but never defined. The model has only the executor's version.
- tests/test_command.cpp expects the `$?` output "0". src/executor.cpp writes the code and then "\n", and the model does the same.
- include/nullsh/cli.h declares `parse_cli` over a span. src/cli.cpp defines it over `argc`/`argv`. The model takes the argument vector as a sequence whose first element is the program name.
- tests/test_cli.cpp expects `-h` to return without a value, but the code prints the help text and calls `std::exit(0)`. The model ends parsing with a `Help` outcome.
- `capture_parent` writes through `res`, but the header names the pointer `cmd_result`. The builtins use `shell::NullShell` and `sh.exit()`, neither of which include/nullsh/shell.h declares. The model gives the shell a `running` flag and an `Exit` method.
- The operators are recognised wherever they stand in the line, and no default `None` operator is added. This is what src/parser.cpp does.

## Model

| member | source | states |
|---|---|---|
| CType.IsSpace | src/util.cpp:29 | `std::isspace` in the "C" locale holds exactly for the space character and the control characters 0x09 to 0x0D (tab, newline, vertical tab, form feed, carriage return) |
| Util.LTrim | src/util.cpp:26-35 | the index loop and erase compute `LTrimmed` of the input |
| Util.LTrimmedShape | src/util.cpp:26-35 | left trimming removes exactly the maximal leading whitespace run: the result is a suffix, all that was removed is whitespace, and the result is empty or starts with a non-space |
| Util.RTrim | src/util.cpp:42-51 | the backward index loop and erase compute `RTrimmed` of the input |
| Util.RTrimmedShape | src/util.cpp:42-51 | right trimming removes exactly the maximal trailing whitespace run: the result is a prefix, all that was removed is whitespace, and the result is empty or ends in a non-space |
| Util.Trim | src/util.cpp:58-62 | right trim then left trim computes `Trimmed` |
| Util.TrimmedSlice | src/util.cpp:58-62 | the trimmed string has no whitespace at either end and is one contiguous slice of the input with only whitespace around it |
| Util.TrimmedEmpty | src/util.cpp:58-62 | trimming gives "" exactly when the input is all whitespace |
| Util.TrimmedIdempotent | src/util.cpp:58-62 | trimming twice equals trimming once |
| Util.NewlineTerminated | src/util.cpp:69-75 | the result is the input or the input plus one '\n'; it is non-empty iff the input is; a non-empty result ends in '\n'; '\n' is added only when the input did not already end in one |
| Util.Newline | src/util.cpp:69-75 | the in-place push computes `NewlineTerminated` |
| Util.NewlineIdempotent | src/util.cpp:69-75 | newline termination is idempotent |
| Util.PathAppend | src/util.cpp:220 | `std::filesystem` `operator/` on POSIX: an absolute right side replaces the base; otherwise the result starts with the base, ends with the right side, grows by at most one separator, and has a '/' in front of the right side when the base is non-empty |
| Util.ExpandUserPath | src/util.cpp:200-224 | "~" becomes HOME; "~/rest" becomes HOME joined with rest; every other path, or any path when HOME is unset, is returned unchanged |
| Util.ExpandIdempotent | src/util.cpp:200-224 | expanding an expanded path changes nothing when HOME is non-empty and does not start with '~' |
| Tokenizer.PushToken | src/util.cpp:90-97 | the buffer is emptied and the quote flags kept; the old tokens stay as a prefix; one token is added iff the buffer was non-empty, and that token is the buffer |
| Tokenizer.Tokenize | src/util.cpp:83-142 | the scan loop, with the index advanced twice after a backslash, returns `Tokenized(line)` |
| Tokenizer.ScanFlags | src/util.cpp:116-123 | the quote flags at the end of a scan are those of the flag machine `QuoteFlags` (they depend only on the starting flags and the characters read); a scan starting with at most one quote open never ends with both open |
| Tokenizer.FailsIffQuoteOpen | src/util.cpp:135-138 | tokenizing fails iff a single or double quote is still open at the end of the line, and the error is "Mismatched quotes in command line" |
| Tokenizer.ScanKeepsTokensNonEmpty | src/util.cpp:90-97 | scanning never adds an empty token |
| Tokenizer.TokensNonEmpty | src/util.cpp:90-141 | a successful tokenization contains no empty token |
| Tokenizer.ScanBlank | src/util.cpp:124-128 | whitespace outside quotes, between tokens, leaves the scanner state unchanged |
| Tokenizer.BlankLineNoTokens | src/util.cpp:124-141 | an empty or all-whitespace line gives no tokens |
| Tokenizer.EscapeIsLiteral | src/util.cpp:104-115 | a backslash appends the next character verbatim, in any quote state; a backslash at the end of the line is kept as '\' |
| Tokenizer.ScanInSingle | src/util.cpp:116-132 | inside single quotes, text without ' or \ (spaces and double quotes included) goes into the token verbatim |
| Tokenizer.ScanInDouble | src/util.cpp:116-132 | inside double quotes, text without " or \ (spaces and single quotes included) goes into the token verbatim |
| Tokenizer.QuotedSegment | src/util.cpp:116-123 | a quoted segment adds exactly its inner text to the token; the delimiters are dropped and the quote state is restored |
| Tokenizer.ScanPlain | src/util.cpp:129-132 | outside quotes, plain characters extend the current token |
| Tokenizer.ScanJoined | src/util.cpp:124-132 | scanning plain words separated by single spaces finishes every word but the last, which stays in the buffer |
| Tokenizer.JoinRoundTrip | src/util.cpp:83-142 | tokenizing plain words joined by single spaces returns exactly those words |
| Tokenizer.ScanWordsThenSpace | src/util.cpp:124-128 | after plain words and a space, every word is a finished token and the buffer is empty |
| Tokenizer.TokenizedAfterWords | src/util.cpp:135-141 | if the rest of the line scans to one more non-empty token, the line tokenizes to the words plus that token |
| Tokenizer.QuotedArgument | src/util.cpp:116-123 | a quoted argument after words is one token holding the quoted text, including its spaces and any quotes of the other kind |
| Tokenizer.EmptyQuotesVanish | src/util.cpp:90-97 | an empty pair of quotes produces no token |
| Tokenizer.ScanEscapeThenPlain | src/util.cpp:104-115 | an escaped character followed by plain text extends the token by that character and that text |
| Tokenizer.ScanEscapedWord | src/util.cpp:104-132 | a word with one escaped character extends the token by the word with the backslash removed |
| Tokenizer.EscapedCharacter | src/util.cpp:104-115 | an escaped space or quote inside an argument stays in that argument, and the backslash is dropped |
| Tokenizer.TrailingBackslash | src/util.cpp:110-114 | a backslash at the end of the line is kept at the end of the last token |
| Tokenizer.UnclosedQuote | src/util.cpp:135-138 | a quote opened after words and never closed makes the whole line fail with the mismatched-quotes error |
| Conv.NatDigits | src/executor.cpp:87 | the decimal digits of a natural number are non-empty, all digits, and have no leading zero |
| Conv.DecimalString | src/executor.cpp:87 | an `int` is written as an optional '-' followed by digits |
| Conv.DecimalStringShape | src/executor.cpp:87 | the written form starts with '-' iff the value is negative; after the optional '-' come only digits, and for a negative value they are the digits of its magnitude |
| Conv.DigitsValueOfNatDigits | src/executor.cpp:87 | the written digits read back to the number |
| Conv.Stoi | src/builtins.cpp:106 | `std::stoi` throws `invalid_argument` exactly when, after the leading whitespace and an optional sign, no digit follows |
| Conv.LeadingDigits | src/builtins.cpp:106 | `std::stoi` reads the longest run of leading digits |
| Conv.LeadingDigitsOfDigits | src/builtins.cpp:106 | reading stops exactly at the first non-digit after the digits |
| Conv.StoiOfUnsigned | src/builtins.cpp:106 | digits followed by a non-digit parse to their value, or are out of range above INT_MAX |
| Conv.StoiOutOfRange | src/builtins.cpp:114-119 | the digits of any number above INT_MAX are out of range |
| Conv.StoiOfNegative | src/builtins.cpp:106 | '-' and digits parse to the negated value |
| Conv.StoiReadsDecimal | src/builtins.cpp:106 | `std::stoi` reads back any `int` written by `operator<<`, whatever non-digit text follows |
| Conv.StoiSkipsLeadingSpace | src/builtins.cpp:106 | leading whitespace never changes what `std::stoi` returns |
| Conv.LTrimmedSkips | src/util.cpp:26-35 | left trimming ignores any all-whitespace prefix |
| Conv.StoiRejectsNonNumeric | src/builtins.cpp:106-113 | text with no digit after the whitespace and the optional sign is an invalid argument |
| Commands.SanitizeResult | src/command.cpp:14-18 | newline-terminates stdout and then stderr, and keeps the return code |
| Commands.SanitizedShape | src/command.cpp:14-18 | after sanitising, each stream ends in '\n' iff it is non-empty; empty streams stay empty; streams already ending in '\n' are unchanged; the code is kept; sanitising is idempotent |
| Parser.ParseOperator | src/parser.cpp:14-38 | exactly the four spellings give an operator, everything else gives `None`, and an operator's spelling is the token it came from |
| Parser.OperatorTable | src/parser.cpp:14-38 | exactly "!", "?", "$?" and "$??" are operators; each spelling parses to its operator and each operator token is the spelling of what it parses to |
| Parser.ParseCommand | src/parser.cpp:40-57 | the push loop's `args` are the non-operator tokens in order, and its `ops` are the recognised operators in order |
| Parser.SplitAppend | src/parser.cpp:44-54 | splitting distributes over concatenation, so an operator is recognised anywhere in the line |
| Parser.SplitShape | src/parser.cpp:44-54 | every token lands in exactly one list (\|args\| + \|ops\| = \|tokens\|); `ops` never holds `None`; every argument is a non-operator token of the input |
| Parser.NoOperatorTokens | src/parser.cpp:44-54 | with no operator tokens, `args` is the whole input and `ops` is empty, so no default is added |
| Parser.Snoc | src/parser.cpp:46-53 | one more token extends exactly one of the two lists |
| Parser.ParseTrailingForce | src/parser.cpp:44-54 | words followed by "!" give those words and [ForceOutput] |
| Parser.ParseTwoOperators | src/parser.cpp:44-54 | two words then "?" and "$?" give the words and [DiscardOutput, PrintRC], in order |
| Parser.ParseNoOperator | src/parser.cpp:44-54 | two words give those words and no operators |
| Parser.ParseMidLineOperator | src/parser.cpp:44-54 | a "?" between two words is an operator, and the words keep their order |
| Parser.ParserTestVectors | tests/test_parser.cpp:18-47 | "unknown" is no operator, and the three token vectors of the parser's tests split into the expected arguments and operators |
| Shell.NullShell.constructor | include/nullsh/shell.h:18 | a new shell is running |
| Shell.NullShell.Exit | src/builtins.cpp:121 | after `exit()` the shell is no longer running |
| Capturer.Count | src/result_capturer.cpp:74 | `read` returns a positive count exactly for a non-empty chunk |
| Capturer.ReadPipe | src/result_capturer.cpp:71-78 | the append loop leaves `out` equal to its old value followed by the drained chunks |
| Capturer.DrainedStopsAtFirstEnd | src/result_capturer.cpp:71-78 | draining collects the chunks in order up to the first read with count ≤ 0, and never looks at any read after it |
| Capturer.TermSig | src/result_capturer.cpp:65-66 | `WTERMSIG` is the low seven bits of the status, a value below 128 |
| Capturer.IfExited | src/result_capturer.cpp:59 | `WIFEXITED` holds iff the low seven bits are zero, and then the status is the exit status times 256 plus its low byte |
| Capturer.IfSignaled | src/result_capturer.cpp:63 | `WIFSIGNALED` excludes `WIFEXITED` and means a signal number 1..126; it holds for every status that is neither exited nor the stopped marker 0x7F |
| Capturer.ExitStatus | src/result_capturer.cpp:59-62 | the decoded exit status lies in 0..255 |
| Capturer.Captured | src/result_capturer.cpp:40-68 | stdout receives exactly what the stdout pipe delivered and stderr exactly what the stderr pipe delivered, each appended to what was there |
| Capturer.CapturedCode | src/result_capturer.cpp:51-67 | a failed wait gives 127; a normal exit gives its status (0..255); signal n gives 128 + n (129..254); any other status keeps the previous code; a message is written iff the wait failed or a signal killed the child |
| Capturer.ExitedChild | src/result_capturer.cpp:59-62 | a child that called `_exit(c)` is reported with code c, so the child's 126 and 127 come back unchanged |
| Capturer.SignaledChild | src/result_capturer.cpp:63-67 | a child killed by signal n, with or without a core dump, is reported as 128 + n, and the message names n in a form `std::stoi` reads back |
| Capturer.ResultCapturer.constructor | include/nullsh/result_capturer.h:23 | the capturer is bound to the given result |
| Capturer.ResultCapturer.CaptureParent | src/result_capturer.cpp:40-68 | drains stdout, then stderr, then sets the code from the wait; the new result and the message are `Captured` of the old result |
| Executor.Applied | src/executor.cpp:72-108 | no operator changes the return code, and an operator can only keep a stream or empty it |
| Executor.ApplyOperator | src/executor.cpp:72-108 | the switch computes `Applied`: the new result and the text written to each stream |
| Executor.OperatorStreams | src/executor.cpp:74-107 | "!" writes both streams verbatim and keeps the result; "?" empties both and writes nothing; `None` empties stdout and forwards stderr; "$?" and "$??" keep the result and write only to stdout |
| Executor.ResultIdempotent | src/executor.cpp:72-108 | applying an operator twice leaves the same result as applying it once |
| Executor.PrintRCReadsBack | src/executor.cpp:86-88 | the "$?" line ends in '\n', and `std::stoi` reads the return code back from it |
| Executor.PrintRCHumanReadsBack | src/executor.cpp:89-100 | the "$??" line reads back as the return code |
| Executor.PrintRCHumanVerdict | src/executor.cpp:89-100 | the "$??" line ends in " (success)\n" iff the code is 0, and in " (failure)\n" iff it is not |
| Executor.ExecExternal | src/executor.cpp:20-70 | the method, with its capturer bound to a local result, returns `External` of the command and what the system did |
| Executor.EmptyNameSpawnsNothing | src/executor.cpp:22-28 | an empty name gives {0, "", ""}, whatever the system would have done |
| Executor.ExternalOutcomes | src/executor.cpp:30-69 | for a named command, only a pipe failure escapes as an error; a failed fork gives {127, "", ""}; a child's streams are exactly what its pipes delivered |
| Builtins.IsBuiltin | src/builtins.cpp:135-151 | `is_builtin` holds exactly for "cd", "pwd", "exit" and "echo" |
| Builtins.Cd | src/builtins.cpp:31-82 | `cd` never ends the shell |
| Builtins.CdArgumentChecks | src/builtins.cpp:36-53 | too many arguments, or no argument with HOME unset, give code 1 and the fixed message, change no directory, and do not depend on the file system |
| Builtins.CdHome | src/builtins.cpp:46-57 | with HOME set, `cd ~` goes where plain `cd` goes, and `cd ~/d` enters d under HOME |
| Builtins.CdChangesOnlyOnSuccess | src/builtins.cpp:59-74 | `cd` changes directory only after the argument checks pass, only to what the host resolved its target (HOME, or the expanded argument) to, and then returns {0, "", ""}; once the checks pass it changes directory exactly when the host resolves that target |
| Builtins.Pwd | src/builtins.cpp:84-97 | on success the code is 0, stderr is empty and stdout is a non-empty line ending in '\n'; on failure stdout is empty |
| Builtins.Echo | src/builtins.cpp:125-131 | `echo` returns code 0 and an empty stderr, and its stdout ends in '\n' |
| Builtins.EchoLength | src/builtins.cpp:125-131 | the output's length is the total length of the arguments plus one separator between each pair of neighbours plus one newline, so empty arguments still give runs of spaces |
| Builtins.EchoAppend | src/builtins.cpp:125-131 | the output lists the arguments in order: one more argument adds a space and that argument before the newline, or is printed alone when it is the only one |
| Builtins.EchoRetokenizes | src/builtins.cpp:125-131 | the tokenizer splits the output of `echo` with plain arguments back into exactly those arguments |
| Builtins.EchoExamples | src/builtins.cpp:128-129 | no arguments print "\n"; ["Hello,", "", "", "World!"] prints "Hello,   World!\n" |
| Builtins.ExitVerdict | src/builtins.cpp:99-123 | `exit` never changes directory |
| Builtins.BuiltinExit | src/builtins.cpp:99-123 | returns `ExitVerdict`'s result; stops the shell exactly when the verdict exits; otherwise leaves it running as before |
| Builtins.ExitReadsCode | src/builtins.cpp:104-122 | `exit n`, with n written in decimal and any text after it, ends the shell with code n; further arguments are ignored |
| Builtins.ExitOutOfRange | src/builtins.cpp:114-119 | a number above INT_MAX gives {1, "", "exit: numeric argument out of range"} and does not end the shell |
| Builtins.ExitNotNumeric | src/builtins.cpp:108-113 | an argument starting with no whitespace, sign or digit gives {1, "", "exit: numeric argument required"} and does not end the shell |
| Builtins.DispatchShape | src/builtins.cpp:160-171 | a name outside the table gives {127, "", "not a builtin"}; only `exit` ends the shell; only a successful `cd` changes directory |
| Builtins.Execute | src/builtins.cpp:160-171 | the lookup and handler call return `Dispatched`'s result and directory change; the shell stops exactly when the outcome says it exits |
| CommandLine.ParseCli | src/cli.cpp:28-53 | the argv loop, which steps over each "-c" value, returns `ParsedCli(argv)` |
| CommandLine.LastOneShotWins | src/cli.cpp:35-40 | after any run of "-c v" pairs the last value is the one-shot command, even a value that spells an option |
| CommandLine.MissingValue | src/cli.cpp:37-38 | a final "-c" with no value fails with "Missing argument to -c" |
| CommandLine.FirstUnknownOption | src/cli.cpp:46-49 | the first argument that is not an option fails with "Unknown option: " and that argument, and nothing after it is read |
| CommandLine.HelpStops | src/cli.cpp:41-45 | "-h" or "--help" ends parsing with the help outcome, whatever follows |
| CommandLine.SpawnTermNeverSet | src/cli.cpp:28-53 | parsing never sets the terminal option |
| CommandLine.CliExamples | src/cli.cpp:28-53 | no arguments give the default options; "-c v" sets v; a lone "-c" fails; "-h" asks for help; "-x" fails with "Unknown option: -x" |

## Left out

- Process plumbing: creating pipes, `fork`, building argv, `execvp` and the child's `_exit(126/127)` in `exec_external`, and `prepare_child`'s `dup2`/`close`. The model takes their outcomes as inputs: a pipe failure, a fork failure with its error text, or the reads and wait status of a child. `Capturer.ExitedChild` covers how the child's exit code comes back.
- Capturer.ReadCall: a chunk may be of any length. The model does not bound it by the 4096-byte buffer `read` fills (include/nullsh/result_capturer.h:20). What is drained does not depend on where the chunks are cut.
- Capturer.ReadPipe: the recorded reads are a finite sequence, and running out of them counts as end of stream. Blocking, and the deadlock possible when a child fills its stderr pipe while the parent is still draining stdout, are not modelled.
- Capturer.ResultCapturer.CaptureParent: the text `perror` adds after "waitpid: " is a parameter (the error text), not `strerror(errno)`. The same holds for "fork: " in `Executor.ExecExternal`.
- Builtins.Cd: the `filesystem_error` catch at src/builtins.cpp:76-81 is not modelled. The actual `current_path` and `setenv("PWD", …)` calls become the `chdir` part of the outcome. The directory check is the host's `resolve` function.
- Builtins.Pwd: the working directory and its error come from the host. `errno` is the host's error code.
- Builtins.Echo: `std::format` and `join_with` are modelled as joining with single spaces plus "\n". No escapes are interpreted, exactly as in the source.
- CommandLine.ParseCli: printing the help text and `std::exit(0)` are not modelled. `-h` ends in a `Help` outcome instead.
- src/shell.cpp does not wire the modelled components together. `NullShell::run` and `NullShell::dispatch` (src/shell.cpp:26-63) tokenize a line and pass the words to `NullShell::execute` (src/shell.cpp:72-122). That is a plain fork/`execvp` which never parses operators, runs a built-in or captures output. src/main.cpp:37 and :58 reach only `dispatch` and `run`. So in the shipped shell, `exit`, `cd`, `!` and `?` never reach the modelled code.
- The interactive loop, dispatch and fork/exec path of src/shell.cpp, and src/main.cpp (environment variables, terminal spawning, process exit codes). This glue does I/O and process control.
- `command_exists`, `get_env_var` and `resolve_directory` (src/util.cpp). They scan PATH and query the file system and environment. HOME and the directory check are parameters instead.
- Util.PathAppend: only the case `expand_user_path` needs is modelled, a HOME joined with a relative or absolute rest. Path normalisation is not modelled. For example "~//x" becomes "/x", because the rest "/x" is absolute.
- The model uses `std::isspace` in the C locale only; other locales are not modelled.
- In-place updates of a string or result passed by reference (`ltrim`, `rtrim`, `trim`, `newline`, `sanitize_result`, `apply_operator`, `read_pipe`) are methods that take the old value and return the new one. Aliasing between such references is not modelled.
