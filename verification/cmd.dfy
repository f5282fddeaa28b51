/** The command template and the processes made from it (cmd.go, the real
    `cmd` and `process`). Everything the operating system decides (whether a
    pipe could be opened, whether the spawn worked) is passed in as a
    parameter; the bookkeeping around it is modelled as the code does it. */
module Cmd {
  import opened Base
  import opened Io
  import opened Text

  // ---------------------------------------------------------------------
  // The display string

  /** `strings.IndexAny(arg, " \t\n\r") >= 0`. */
  predicate NeedsQuoting(arg: string) {
    exists i :: 0 <= i < |arg| && arg[i] in " \t\n\r"
  }

  /** One argument as `process.String` shows it. */
  function Render(arg: string): string {
    if NeedsQuoting(arg) then Quote(arg) else arg
  }

  /** The arguments rendered one by one and joined with single spaces. */
  function CommandLine(args: seq<string>): string {
    Join(seq(|args|, i requires 0 <= i < |args| => Render(args[i])), ' ')
  }

  /** Every rendered token reads back as its argument: unchanged when it
      needs no quoting, through `Unquote` when it does. */
  lemma RenderReadsBack(arg: string)
    ensures !NeedsQuoting(arg) ==> Render(arg) == arg
    ensures NeedsQuoting(arg) ==> Unquote(Render(arg)) == Some(arg)
    ensures forall c :: c in "\t\n\r" ==> c !in Render(arg)
  {
    if NeedsQuoting(arg) {
      QuoteRoundTrip(arg);
      QuoteIsOneLine(arg);
    }
  }

  /** The display string is a single line: no tab, newline or carriage
      return survives rendering. */
  lemma CommandLineIsOneLine(args: seq<string>)
    ensures forall c :: c in "\t\n\r" ==> c !in CommandLine(args)
  {
    var tokens := seq(|args|, i requires 0 <= i < |args| => Render(args[i]));
    forall c | c in "\t\n\r"
      ensures c !in CommandLine(args)
    {
      forall i | 0 <= i < |tokens|
        ensures c !in tokens[i]
      {
        RenderReadsBack(args[i]);
      }
      JoinChars(tokens, ' ', c);
    }
  }

  /** When no argument needs quoting, the display string holds exactly one
      token per argument, in order: splitting it at spaces gives them back. */
  lemma CommandLineSplitsBack(args: seq<string>)
    requires |args| >= 1
    requires forall i :: 0 <= i < |args| ==> !NeedsQuoting(args[i])
    ensures Split(CommandLine(args), ' ') == args
  {
    var tokens := seq(|args|, i requires 0 <= i < |args| => Render(args[i]));
    assert tokens == args;
    SplitJoin(args, ' ');
  }

  /** The display string is ambiguous once quoting is involved: two
      arguments that start and end with a double quote show exactly as one
      argument holding a space. So the display can be read back only when no
      argument needs quoting. */
  lemma CommandLineIsAmbiguous()
    ensures ["\"x", "y\""] != ["x y"]
    ensures CommandLine(["\"x", "y\""]) == CommandLine(["x y"])
  {
    var two := ["\"x", "y\""];
    assert !NeedsQuoting(two[0]) && !NeedsQuoting(two[1]);
    var tokens := seq(|two|, i requires 0 <= i < |two| => Render(two[i]));
    assert tokens == two;
    assert tokens[1..] == ["y\""];
    assert Join(tokens, ' ') == "\"x y\"";

    var one := ["x y"];
    assert NeedsQuoting(one[0]) by {
      assert one[0][1] == ' ';
    }
    assert EscapeChar('x') == "x" && EscapeChar(' ') == " " && EscapeChar('y') == "y";
    assert Escape("y") == "y" by {
      assert "y"[1..] == [];
    }
    assert Escape(" y") == " y" by {
      assert " y"[1..] == "y";
    }
    assert Escape("x y") == "x y" by {
      assert "x y"[1..] == " y";
    }
    assert Quote("x y") == "\"x y\"";
    assert Render(one[0]) == "\"x y\"";
    var single := seq(|one|, i requires 0 <= i < |one| => Render(one[i]));
    assert single[0] == "\"x y\"";
    assert single == ["\"x y\""];
  }

  // ---------------------------------------------------------------------
  // Start's error branching

  /** What `Start` did after finalising the arguments: the error it
      returned, whether it launched the stderr drain, whether it asked for
      the stdout pipe, whether it launched the stdout drain, and whether it
      called `exec.Cmd.Start`. */
  datatype StartTrace = StartTrace(err: Option<Error>, stderrDrain: bool, stdoutPiped: bool, stdoutDrain: bool, spawned: bool)

  /** The branching of `Start` given what `StderrPipe`, `StdoutPipe` and
      `exec.Cmd.Start` would return if called. The stdout pipe result is
      stored in the same `err` as the stderr pipe result, so its failure
      also skips the spawn. */
  function StartSteps(stderrPipe: Option<Error>, stdoutPipe: Option<Error>, spawn: Option<Error>): (t: StartTrace)
    ensures t.stderrDrain <==> stderrPipe.None?
    ensures t.stdoutPiped <==> stderrPipe.None?
    ensures t.stdoutDrain <==> stderrPipe.None? && stdoutPipe.None?
    ensures t.spawned <==> stderrPipe.None? && stdoutPipe.None?
    ensures stderrPipe.Some? ==> t.err == stderrPipe
    ensures stderrPipe.None? && stdoutPipe.Some? ==> t.err == stdoutPipe
    ensures t.spawned ==> t.err == spawn
    ensures t.err.None? <==> stderrPipe.None? && stdoutPipe.None? && spawn.None?
  {
    var err := stderrPipe;
    var stderrDrain := err.None?;
    var err := if stderrDrain then stdoutPipe else err;
    var stdoutDrain := stderrDrain && err.None?;
    var spawned := err.None?;
    var err := if spawned then spawn else err;
    StartTrace(err, stderrDrain, stderrDrain, stdoutDrain, spawned)
  }

  // ---------------------------------------------------------------------
  // Process

  /** A process made from a command. `cmdArgs` is the `Args` of its
      `exec.Cmd` (the path followed by the command's arguments) and `args`
      the extra arguments appended to this process. */
  class Process {
    var cmdArgs: seq<string>
    var args: seq<string>
    const stdout: MultiWriter
    const stderr: MultiWriter

    ghost predicate Valid()
      reads this
    {
      stdout != stderr
    }

    constructor (cmdArgs: seq<string>)
      ensures Valid()
      ensures this.cmdArgs == cmdArgs && args == []
      ensures fresh(stdout) && fresh(stderr)
      ensures stdout.writers == [] && stderr.writers == []
    {
      this.cmdArgs := cmdArgs;
      args := [];
      stdout := new MultiWriter();
      stderr := new MultiWriter();
    }

    /** Adds arguments after those already appended. */
    method AppendArgs(more: seq<string>)
      modifies this
      ensures args == old(args) + more
      ensures cmdArgs == old(cmdArgs)
    {
      args := args + more;
    }

    /** The command line the process runs, for display. */
    function String(): (s: string)
      reads this
      ensures forall c :: c in "\t\n\r" ==> c !in s
      ensures (|cmdArgs + args| >= 1 && forall i :: 0 <= i < |cmdArgs + args| ==> !NeedsQuoting((cmdArgs + args)[i])) ==>
                Split(s, ' ') == cmdArgs + args
    {
      var all := cmdArgs + args;
      CommandLineIsOneLine(all);
      if |all| >= 1 && forall i :: 0 <= i < |all| ==> !NeedsQuoting(all[i]) then
        CommandLineSplitsBack(all);
        CommandLine(all)
      else
        CommandLine(all)
    }

    /** Finalises the argument list, then opens the pipes and spawns as
        `StartSteps` says. The drain goroutines are only recorded, as the
        flags of the returned `StartTrace`; neither writer is touched here. */
    method Start(stderrPipe: Option<Error>, stdoutPipe: Option<Error>, spawn: Option<Error>) returns (t: StartTrace)
      modifies this
      ensures cmdArgs == old(cmdArgs) + old(args)
      ensures args == old(args)
      ensures t == StartSteps(stderrPipe, stdoutPipe, spawn)
    {
      cmdArgs := cmdArgs + args;
      t := StartSteps(stderrPipe, stdoutPipe, spawn);
    }

    /** Registers a sink for standard output. */
    method Stdout(writer: Sink)
      requires Valid()
      modifies stdout
      ensures stdout.writers == old(stdout.writers) + [writer]
      ensures stderr.writers == old(stderr.writers)
    {
      stdout.Add(writer);
    }

    /** Registers a sink for standard error. */
    method Stderr(writer: Sink)
      requires Valid()
      modifies stderr
      ensures stderr.writers == old(stderr.writers) + [writer]
      ensures stdout.writers == old(stdout.writers)
    {
      stderr.Add(writer);
    }
  }

  // ---------------------------------------------------------------------
  // Command

  /** A command template: a path that may be replaced and arguments fixed at
      construction. */
  class Command {
    var path: string
    const args: seq<string>

    /** `New(path, args...)`. */
    constructor New(path: string, args: seq<string>)
      ensures this.path == path && this.args == args
    {
      this.path := path;
      this.args := args;
    }

    function Path(): (p: string)
      reads this
      ensures p == path
    {
      path
    }

    /** Replaces the path; the arguments are untouched. */
    method SetPath(path: string)
      modifies this
      ensures this.path == path
    {
      this.path := path;
    }

    /** A fresh, not yet started process whose `exec.Cmd` has the current
        path followed by the command's arguments as `Args`. */
    method Process() returns (proc: Process)
      ensures fresh(proc) && fresh(proc.stdout) && fresh(proc.stderr) && proc.Valid()
      ensures proc.cmdArgs == [path] + args && proc.args == []
      ensures proc.stdout.writers == [] && proc.stderr.writers == []
    {
      proc := new Process([path] + args);
    }
  }

  /** A command's process, given `AppendArgs` calls in order and then
      started: the argument list the operating system is handed is the path,
      the command's arguments and the appended arguments in call order,
      whatever the pipes and the spawn do. */
  method ArgumentsAtStart(c: Command, calls: seq<seq<string>>,
                          stderrPipe: Option<Error>, stdoutPipe: Option<Error>, spawn: Option<Error>)
    returns (final: seq<string>, t: StartTrace)
    ensures final == [c.path] + c.args + Flatten(calls)
    ensures t == StartSteps(stderrPipe, stdoutPipe, spawn)
  {
    var proc := c.Process();
    var i := 0;
    while i < |calls|
      invariant 0 <= i <= |calls|
      invariant proc.args == Flatten(calls[..i])
      invariant proc.cmdArgs == [c.path] + c.args
    {
      FlattenSnoc(calls[..i], calls[i]);
      assert calls[..i + 1] == calls[..i] + [calls[i]];
      proc.AppendArgs(calls[i]);
      i := i + 1;
    }
    assert calls[..i] == calls;
    t := proc.Start(stderrPipe, stdoutPipe, spawn);
    final := proc.cmdArgs;
  }
}
