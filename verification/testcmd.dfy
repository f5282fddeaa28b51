/** The test double of cmd.go: `TestCmd` makes processes that replay
    configured output and configured errors instead of running anything.
    The two goroutines its `Start` launches are taken to run to completion
    inside `Start`; `Wait` therefore observes their effects. */
module TestDouble {
  import opened Base
  import opened Io

  /** What one replay goroutine does to a writer's sinks: write `data` if
      it is not empty, then close. Both results are discarded. */
  function Replay(ws: seq<Sink>, data: Bytes): (r: seq<Sink>)
    ensures SameSinks(ws, r)
  {
    var written := if |data| > 0 then AfterWrite(ws, data) else ws;
    SameSinksTransitive(ws, written, AfterClose(written));
    AfterClose(written)
  }

  /** After a replay, every buffer sink holds what it held before followed
      by exactly the configured bytes, and every closer was closed once
      (buffer sinks never make the write stop, and no closer fails). */
  lemma ReplayFillsBuffers(ws: seq<Sink>, data: Bytes)
    requires forall i :: 0 <= i < |ws| ==> ws[i].onWrite == AcceptAll
    requires forall i :: 0 <= i < |ws| ==> !CloseFails(ws[i])
    ensures forall i :: 0 <= i < |ws| ==> Replay(ws, data)[i].Contents() == ws[i].Contents() + data
    ensures forall i :: 0 <= i < |ws| ==>
              Replay(ws, data)[i].closes == if ws[i].onClose.Closer? then ws[i].closes + 1 else ws[i].closes
  {
    var written := if |data| > 0 then AfterWrite(ws, data) else ws;
    forall i | 0 <= i < |ws|
      ensures written[i].Contents() == ws[i].Contents() + data
      ensures written[i].onClose == ws[i].onClose && written[i].closes == ws[i].closes
    {
      if |data| > 0 {
        WriteSucceedsIffAllAccept(ws, data);
        FlattenSnoc(ws[i].received, data);
      }
    }
    CloseSucceedsIffNoCloserFails(written);
  }

  /** A process made by `TestCmd.Process`. */
  class TestProcess {
    const stdout: Bytes
    const stderr: Bytes
    const startErr: Option<Error>
    const waitErr: Option<Error>
    const killErr: Option<Error>
    const stdoutWriter: MultiWriter
    const stderrWriter: MultiWriter

    ghost predicate Valid()
      reads this
    {
      stdoutWriter != stderrWriter
    }

    constructor (stdout: Bytes, stderr: Bytes, startErr: Option<Error>, waitErr: Option<Error>, killErr: Option<Error>)
      ensures Valid() && fresh(stdoutWriter) && fresh(stderrWriter)
      ensures this.stdout == stdout && this.stderr == stderr
      ensures this.startErr == startErr && this.waitErr == waitErr && this.killErr == killErr
      ensures stdoutWriter.writers == [] && stderrWriter.writers == []
    {
      this.stdout := stdout;
      this.stderr := stderr;
      this.startErr := startErr;
      this.waitErr := waitErr;
      this.killErr := killErr;
      stdoutWriter := new MultiWriter();
      stderrWriter := new MultiWriter();
    }

    /** Arguments mean nothing to the double: nothing changes. */
    method AppendArgs(more: seq<string>)
      ensures stdoutWriter.writers == old(stdoutWriter.writers)
      ensures stderrWriter.writers == old(stderrWriter.writers)
    {
    }

    /** Returns the configured start error; only when there is none does it
        replay the configured output and error bytes into the registered
        sinks and close them. */
    method Start() returns (err: Option<Error>)
      requires Valid()
      modifies stdoutWriter, stderrWriter
      ensures err == startErr
      ensures stdoutWriter.writers == if startErr.None? then Replay(old(stdoutWriter.writers), stdout) else old(stdoutWriter.writers)
      ensures stderrWriter.writers == if startErr.None? then Replay(old(stderrWriter.writers), stderr) else old(stderrWriter.writers)
    {
      if startErr == None {
        if |stdout| > 0 {
          var _, _ := stdoutWriter.Write(stdout);
        }
        var _ := stdoutWriter.Close();
        if |stderr| > 0 {
          var _, _ := stderrWriter.Write(stderr);
        }
        var _ := stderrWriter.Close();
      }
      err := startErr;
    }

    /** The configured kill error, whatever happened before. */
    function Kill(): (err: Option<Error>)
      ensures err == killErr
    {
      killErr
    }

    /** The configured wait error, once the replay is over. */
    function Wait(): (err: Option<Error>)
      ensures err == waitErr
    {
      waitErr
    }

    /** Registers a sink for standard output. */
    method Stdout(writer: Sink)
      requires Valid()
      modifies stdoutWriter
      ensures stdoutWriter.writers == old(stdoutWriter.writers) + [writer]
      ensures stderrWriter.writers == old(stderrWriter.writers)
    {
      stdoutWriter.Add(writer);
    }

    /** Registers a sink for standard error. */
    method Stderr(writer: Sink)
      requires Valid()
      modifies stderrWriter
      ensures stderrWriter.writers == old(stderrWriter.writers) + [writer]
      ensures stdoutWriter.writers == old(stdoutWriter.writers)
    {
      stderrWriter.Add(writer);
    }
  }

  /** The configuration of the double; the fields may be changed between
      calls to `Process`. */
  class TestCmd {
    var stdout: Bytes
    var stderr: Bytes
    var startErr: Option<Error>
    var waitErr: Option<Error>
    var killErr: Option<Error>

    constructor (stdout: Bytes, stderr: Bytes, startErr: Option<Error>, waitErr: Option<Error>, killErr: Option<Error>)
      ensures this.stdout == stdout && this.stderr == stderr
      ensures this.startErr == startErr && this.waitErr == waitErr && this.killErr == killErr
    {
      this.stdout := stdout;
      this.stderr := stderr;
      this.startErr := startErr;
      this.waitErr := waitErr;
      this.killErr := killErr;
    }

    /** A fresh process carrying the current configuration values. */
    method Process() returns (proc: TestProcess)
      ensures fresh(proc) && fresh(proc.stdoutWriter) && fresh(proc.stderrWriter) && proc.Valid()
      ensures proc.stdout == stdout && proc.stderr == stderr
      ensures proc.startErr == startErr && proc.waitErr == waitErr && proc.killErr == killErr
      ensures proc.stdoutWriter.writers == [] && proc.stderrWriter.writers == []
    {
      proc := new TestProcess(stdout, stderr, startErr, waitErr, killErr);
    }

    /** The path is irrelevant to the double. */
    function Path(): (p: string)
      ensures p == ""
    {
      ""
    }

    /** Does nothing. */
    method SetPath(path: string)
      ensures unchanged(this)
    {
    }
  }

  /** The successful run of cmd_test.go's `TestTestCommand`: with no
      configured errors, a buffer sink registered on each stream holds
      exactly the configured bytes after `Start` and `Wait`. */
  method ReplayScenario(out: Bytes, errOut: Bytes)
    returns (startErr: Option<Error>, waitErr: Option<Error>, gotStdout: Bytes, gotStderr: Bytes)
    ensures startErr == None && waitErr == None
    ensures gotStdout == out && gotStderr == errOut
  {
    var cmd := new TestCmd(out, errOut, None, None, None);
    var proc := cmd.Process();
    var stdoutBuffer := NewSink(AcceptAll, NotCloser);
    var stderrBuffer := NewSink(AcceptAll, NotCloser);
    proc.Stdout(stdoutBuffer);
    proc.Stderr(stderrBuffer);
    startErr := proc.Start();
    if startErr == None {
      waitErr := proc.Wait();
    }
    ReplayFillsBuffers([stdoutBuffer], out);
    ReplayFillsBuffers([stderrBuffer], errOut);
    gotStdout := proc.stdoutWriter.writers[0].Contents();
    gotStderr := proc.stderrWriter.writers[0].Contents();
  }

  /** The error runs of `TestTestCommand`: each configured error comes back
      from its own operation, and a failed start leaves the sinks empty. */
  method InjectedErrorScenario(out: Bytes, errOut: Bytes, e: Error)
    returns (startGot: Option<Error>, afterFailedStart: Bytes, waitGot: Option<Error>, killGot: Option<Error>)
    ensures startGot == Some(e) && afterFailedStart == []
    ensures waitGot == Some(e)
    ensures killGot == Some(e)
  {
    var cmd := new TestCmd(out, errOut, Some(e), None, None);
    var proc := cmd.Process();
    proc.Stdout(NewSink(AcceptAll, NotCloser));
    startGot := proc.Start();
    afterFailedStart := proc.stdoutWriter.writers[0].Contents();

    cmd.startErr := None;
    cmd.waitErr := Some(e);
    proc := cmd.Process();
    var started := proc.Start();
    assert started == None;
    waitGot := proc.Wait();

    cmd.waitErr := None;
    cmd.killErr := Some(e);
    proc := cmd.Process();
    killGot := proc.Kill();
  }
}
