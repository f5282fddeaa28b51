# cmd: a verified model of command templates, processes and the fan-out writer

This project models the sequential core of the Go package `cmd`. The package
wraps external-process execution so that it can be mocked. It has three parts:

- **The fan-out writer** (`multiWriter`, io.go). It holds an ordered,
  append-only list of `io.Writer` sinks and hands every write to each of them
  in registration order. It stops at the first sink that fails, or that takes
  fewer bytes than it was given (reported as `io.ErrShortWrite`). Closing
  calls `Close` on every sink that is an `io.Closer`, in order, and stops at
  the first failure. `copy` feeds a stream to the writer and then always
  closes.
- **Commands and processes** (`cmd` and `process`, cmd.go). A command is a
  path plus base arguments. Each process made from it can have arguments
  appended. `Start` finalises the argument list, opens the stderr and stdout
  pipes, launches one drain per pipe (a `copy` into the matching fan-out
  writer) and spawns the program. `String` renders the command line.
- **The test double** (`TestCmd` and `testProcess`, cmd.go). It replays
  configured output bytes and configured errors instead of running anything.

Modules:

- `Base` (base.dfy): bytes, Go's `error` values (`io.EOF`,
  `io.ErrShortWrite`, any other by its message) and a nil-able `Option`.
- `Io` (io.go): the fan-out writer.
- `Text`: the `%q` quoting and `strings.Join` that `process.String` uses,
  each with an inverse.
- `Cmd` (cmd.go): the real command and process.
- `TestDouble` (cmd.go): the test double.

Each sink is a value. A script says how it answers `Write` (take
everything, take `len(p) - m` bytes, or fail with a given count and error).
A second script says whether it is an `io.Closer` and what its `Close`
returns. Each sink also keeps a log of the buffers it was handed and of how
many times it was closed. The fan-out writer is a class whose `writers`
field is a `seq<Sink>`. `Write`, `close` and `copy` are loops over that
field, proved against specification functions: `FirstStop`, `WriteOutcome`,
`AfterWrite`, `FirstCloseFailure`, `CloseOutcome`, `AfterClose` and
`CopyWrites`. Lemmas about those functions state what the package promises.

Where the operating system decides something, the model takes it as a
parameter: whether each pipe opens and what the spawn returns.

A stdout-pipe failure also skips the spawn. cmd.go:87 assigns the pipe's
error to the `err` that guards `exec.Cmd.Start` at cmd.go:93-95, and `Start`
returns it (`Cmd.StartSteps`).

## Model

| member | source | states |
|---|---|---|
| `Io.FirstStop` | io.go:58-67 | the stopping index is the first sink that does not take the whole buffer without error; every sink before it does; `len(writers)` when all do |
| `Io.WriteOutcome` | io.go:58-68 | what `Write` returns: nil error exactly when no sink stops the write, and then `len(p)`; otherwise the stopping sink's count, with its own error or `io.ErrShortWrite` |
| `Io.AfterWrite` | io.go:55-69 | a write never adds, removes or reorders sinks or changes their behaviour |
| `Io.FirstCloseFailure` | io.go:41-48 | the first closer whose `Close` fails; no sink before it is a failing closer |
| `Io.CloseOutcome` | io.go:41-49 | what `close` returns: nil exactly when no closer fails, otherwise the first failing closer's error |
| `Io.AfterClose` | io.go:38-50 | closing never adds, removes or reorders sinks or changes their behaviour |
| `Io.CopyWrites` | io.go:34 | the writes `io.Copy` makes, one chunk after another, ending after the first failing write; the sink list keeps its length and each sink's log only grows, with no close |
| `Io.MultiWriter.constructor` | io.go:22-25 | a new writer has no sinks |
| `Io.MultiWriter.Add` | io.go:27-31 | the sink is appended after all earlier ones, whose order is unchanged |
| `Io.MultiWriter.Write` | io.go:55-69 | returns what `WriteOutcome` says and leaves the sinks as `AfterWrite` says (sinks up to the stopping one were handed `p`, later ones untouched) |
| `Io.MultiWriter.CloseAll` | io.go:38-50 | `close` returns what `CloseOutcome` says and leaves the sinks as `AfterClose` says |
| `Io.MultiWriter.Close` | io.go:52-54 | the exported `Close` has exactly the contract of `close` |
| `Io.MultiWriter.Copy` | io.go:33-36 | feeds the chunks to `Write` until one fails, then always closes; returns close's result, so the write error is discarded |
| `Io.WriteThenClose` | io_test.go:51-72 | for a single sink: the write error is nil for a full writer, `io.ErrShortWrite` for a short one and the sink's own error for a failing one; the close error is the closer's result or nil; the sink was handed the buffer once and closed once only if it is a closer |
| `Io.FirstStopIs` | io.go:58-67 | the stopping index is fixed by which sinks accept the buffer |
| `Io.WriteSucceedsIffAllAccept` | io.go:58-68 | a write succeeds if and only if every sink takes the whole buffer; it then returns `len(p)` and every sink, in order, received exactly `p` (vacuously for no sinks) |
| `Io.WriteStopsAtError` | io.go:59-62 | when sink k is the first to fail, the write returns sink k's `(n, err)`; sinks 0..k were handed `p`, sinks after k were not called |
| `Io.WriteStopsAtShortWrite` | io.go:63-66 | when sink k is the first to take fewer bytes with no error, the write returns its count with `io.ErrShortWrite`; sinks after k were not called |
| `Io.CloseSucceedsIffNoCloserFails` | io.go:41-49 | close returns nil if and only if no closer fails; it never changes what a sink received; it closes exactly the closers up to the first failure, once each |
| `Io.CloseStopsAtFailure` | io.go:42-46 | when closer k is the first to fail, close returns its error, the closers before it were closed once and the sinks after it were left alone |
| `Io.CloseWithoutClosers` | io.go:38-50 | with no closers registered, close returns nil and touches nothing |
| `Io.CopyKeepsSinks` | io.go:33-36 | copying never adds, removes or reorders sinks |
| `Io.CopyDeliversEveryChunk` | io.go:33-35 | when every sink takes every chunk whole, each sink receives all the chunks in order |
| `Text.EscapeChar` | cmd.go:73 | definition: how `%q` writes one character (backslash and double quote escaped, `\a \b \f \n \r \t \v`, other ASCII controls as `\xhh`, everything else kept) |
| `Text.Escape` | cmd.go:73 | definition: `EscapeChar` applied to each character in order |
| `Text.Quote` | cmd.go:73 | definition: `fmt.Sprintf("%q", s)`, the escaped text between double quotes; its partner is `Unquote` (`Text.QuoteRoundTrip`) |
| `Text.Join` | cmd.go:77 | definition: `strings.Join` with a one-character separator; its partner is `Split` (`Text.SplitJoin`) |
| `Text.UnescapeEscape` | cmd.go:73 | decoding undoes the escaping inside `%q` |
| `Text.QuoteRoundTrip` | cmd.go:73 | `Unquote` gives back the argument that `%q` quoted |
| `Text.EscapeIsPrintable` | cmd.go:73 | the escaped text has no ASCII control character (below 0x20, or 0x7F) |
| `Text.QuoteIsOneLine` | cmd.go:73 | a quoted argument starts and ends with a double quote and holds no tab, newline or carriage return |
| `Text.SplitJoin` | cmd.go:77 | splitting at the separator undoes `strings.Join` when no piece holds the separator |
| `Text.JoinChars` | cmd.go:77 | joining introduces no character except the separator |
| `Cmd.NeedsQuoting` | cmd.go:72 | definition: the argument contains a space, tab, newline or carriage return |
| `Cmd.Render` | cmd.go:72-75 | definition: the argument quoted when it needs quoting, else unchanged |
| `Cmd.CommandLine` | cmd.go:69-77 | definition: the rendered arguments joined with single spaces |
| `Cmd.RenderReadsBack` | cmd.go:72-75 | an argument without space, tab, newline or CR is shown unchanged; one with any of them is shown quoted and unquotes back to itself; no shown token holds a tab, newline or CR |
| `Cmd.CommandLineIsOneLine` | cmd.go:69-78 | the display string holds no tab, newline or carriage return |
| `Cmd.CommandLineSplitsBack` | cmd.go:69-78 | when no argument needs quoting, the display string is one token per argument, in order, joined by single spaces |
| `Cmd.CommandLineIsAmbiguous` | cmd.go:69-78 | two different argument lists, `"x` `y"` and `x y`, have the same display string |
| `Cmd.StartSteps` | cmd.go:82-96 | the stderr drain starts and the stdout pipe is tried if and only if the stderr pipe opened; the stdout drain and the spawn happen if and only if both pipes opened; the error returned is the first failing step's, else the spawn's |
| `Cmd.Process.constructor` | cmd.go:149-153 | a new process has the given `exec.Cmd` arguments, no extra arguments and two distinct empty fan-out writers |
| `Cmd.Process.AppendArgs` | cmd.go:65-67 | the extra arguments become the old ones followed by the new ones |
| `Cmd.Process.String` | cmd.go:69-78 | the display of `cmd.Args` followed by the extra arguments is one line; it splits back into those arguments when none needs quoting |
| `Cmd.Process.Start` | cmd.go:80-97 | `cmd.Args` becomes the old `cmd.Args` followed by the extra arguments, before and whatever the pipe and spawn steps do, which are `StartSteps` |
| `Cmd.Process.Stdout` | cmd.go:115-117 | the sink is appended to the stdout writer; the stderr writer is unchanged |
| `Cmd.Process.Stderr` | cmd.go:111-113 | the sink is appended to the stderr writer; the stdout writer is unchanged |
| `Cmd.Command.New` | cmd.go:142-144 | the command stores the path and the arguments |
| `Cmd.Command.Path` | cmd.go:146 | returns the stored path |
| `Cmd.Command.SetPath` | cmd.go:147 | replaces the path only; the arguments are fixed |
| `Cmd.Command.Process` | cmd.go:149-153 | a fresh process whose `exec.Cmd` arguments are the current path followed by the command's arguments, with no extra arguments and no sinks |
| `Cmd.ArgumentsAtStart` | cmd.go:65-81 | after any sequence of `AppendArgs` calls, `Start` hands the OS the path, the base arguments and the appended arguments in call order, whatever the pipes and spawn return |
| `TestDouble.Replay` | cmd.go:177-191 | a replay goroutine (write if non-empty, then close) never adds, removes or reorders sinks |
| `TestDouble.ReplayFillsBuffers` | cmd.go:177-191 | after a replay, each buffer sink holds its old contents followed by exactly the configured bytes, and each closer was closed once |
| `TestDouble.TestProcess.constructor` | cmd.go:155-170 | a new test process carries the given bytes and errors and two distinct empty writers |
| `TestDouble.TestProcess.AppendArgs` | cmd.go:172 | a no-op: neither writer changes |
| `TestDouble.TestProcess.Start` | cmd.go:174-194 | returns the start error; only when there is none are the output and error bytes replayed into their writers (each written only if non-empty) and both writers closed; otherwise nothing changes |
| `TestDouble.TestProcess.Kill` | cmd.go:196 | returns the configured kill error, unconditionally |
| `TestDouble.TestProcess.Wait` | cmd.go:198-201 | returns the configured wait error |
| `TestDouble.TestProcess.Stdout` | cmd.go:204 | the sink is appended to the stdout writer only |
| `TestDouble.TestProcess.Stderr` | cmd.go:205 | the sink is appended to the stderr writer only |
| `TestDouble.TestCmd.constructor` | cmd.go:209-224 | the configuration holds the given bytes and errors |
| `TestDouble.TestCmd.Process` | cmd.go:229-237 | a fresh test process with a snapshot of `Stdout`, `Stderr`, `StartErr`, `WaitErr`, `KillErr` and no sinks |
| `TestDouble.TestCmd.Path` | cmd.go:240 | always the empty string |
| `TestDouble.TestCmd.SetPath` | cmd.go:243 | changes nothing |
| `TestDouble.ReplayScenario` | cmd_test.go:86-115 | with no configured errors, `Start` and `Wait` succeed and a buffer sink on each stream holds exactly the configured bytes, for all byte strings |
| `TestDouble.InjectedErrorScenario` | cmd_test.go:117-141 | a configured start, wait or kill error comes back from that operation; after a failed start the sinks are empty |

## Left out

- Concurrency: the mutex of `multiWriter` (io.go:24, 28-30, 39-40, 56-57), the drain goroutines of `Start` (cmd.go:84, 89), and the goroutines and `sync.WaitGroup` of `testProcess` (cmd.go:165, 176-191, 199). Every operation is one atomic step. The test double's goroutines run to completion inside its `Start`, which is what its `Wait` waits for. The real process's drains are recorded only as flags of `StartTrace`; `Process.Start` does not touch the writers. The body each drain would run is `MultiWriter.Copy`. How drains interleave with `Wait` and with late `Stdout`/`Stderr` registrations is not modelled.
- `os/exec`: `StderrPipe`, `StdoutPipe` and `exec.Cmd.Start` are parameters of `Process.Start`. `exec.Command`'s path lookup is not modelled; only its documented `Args` (the name followed by the arguments) is.
- `process.Kill` and `process.Wait` (cmd.go:99-105) are not modelled: each only returns the `os/exec` result verbatim.
- `Stdin` (cmd.go:107-109, 203) is not modelled: it only stores a reader.
- `io.Copy`'s reading and buffering are not modelled. `MultiWriter.Copy` takes the chunks that `io.Copy` would hand to `Write`, and stops after the first failing write as `io.Copy` does. Read errors are not modelled; they would be discarded like write errors.
- Sink and byte-slice identity are not modelled. Each sink is a value, so one `io.Writer` registered twice, or on both streams, becomes two independent logs. In Go it would be one object receiving both writes. Likewise `TestCmd.Process` copies the byte values, whereas Go shares the slices, so later in-place changes to them would show through in Go.
- Sinks follow fixed scripts. A sink answers every write by the same rule and every close with the same result, so writers whose behaviour changes from call to call are not covered. A sink cannot report more bytes than it was given without an error. `io.Writer`'s contract forbids this, though io.go:63 would treat it as a short write too.
- `Text.Quote` models `%q` (`strconv.Quote`) for ASCII only. Go's escaping of non-printable non-ASCII runes (`\u`, `\U`) and of invalid UTF-8 is not modelled; such characters are kept as they are.
- `Cmd.CommandLineSplitsBack`: the one-token-per-argument reading is proved only when no argument needs quoting. With quoting, the display string is ambiguous: `Cmd.CommandLineIsAmbiguous` shows two argument lists with the same display, so no reading can recover the arguments in general. For each quoted token, `Cmd.RenderReadsBack` states that it unquotes back to its argument.
- Go's `int` width for the byte counts is not modelled; counts are unbounded integers.
- The helper-process test (cmd_test.go:41-84) runs a real binary and is not modelled.
