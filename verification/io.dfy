/** The fan-out writer of io.go: an ordered, append-only list of sinks that
    every write is replayed to, and that is closed as a whole.

    A sink is an `io.Writer` given by a script: how it answers `Write`,
    whether it also implements `io.Closer` and what its `Close` returns.
    Each sink keeps a log of the buffers it was handed and of how many times
    it was closed, so the contracts can say exactly who was touched. */
module Io {
  import opened Base

  /** How a sink answers `Write(p)`. */
  datatype WriteScript =
    | AcceptAll                          // takes all of p, no error (bytes.Buffer)
    | AcceptShort(missing: nat)          // reports len(p) - missing, no error
                                         // (never more than len(p), as io.Writer requires)
    | Fail(written: int, err: Error)     // reports (written, err)

  /** Whether a sink implements `io.Closer`, and what its `Close` returns. */
  datatype CloseScript = NotCloser | Closer(result: Option<Error>)

  /** What a `Write` call returns: Go's `(n int, err error)`. */
  datatype Reply = Reply(n: int, err: Option<Error>)

  datatype Sink = Sink(onWrite: WriteScript, onClose: CloseScript, received: seq<Bytes>, closes: nat)
  {
    /** The answer this sink gives to `Write(p)`. */
    function Respond(p: Bytes): Reply {
      match onWrite
      case AcceptAll => Reply(|p|, None)
      case AcceptShort(missing) => Reply(|p| - missing, None)
      case Fail(written, err) => Reply(written, Some(err))
    }

    /** The sink after it has been handed `p`, whatever it answered. */
    function Record(p: Bytes): Sink {
      this.(received := received + [p])
    }

    /** The sink after its `Close` has been called. */
    function Closed(): Sink {
      this.(closes := closes + 1)
    }

    /** For an `AcceptAll` sink such as a `bytes.Buffer`, the bytes it holds:
        everything it was handed, in order. (For other scripts this also
        counts bytes the sink refused.) */
    function Contents(): Bytes {
      Flatten(received)
    }
  }

  /** A sink that has not been used yet. */
  function NewSink(onWrite: WriteScript, onClose: CloseScript): Sink {
    Sink(onWrite, onClose, [], 0)
  }

  /** `s` took all of `p` without an error, so the fan-out moves on. */
  predicate Accepts(s: Sink, p: Bytes) {
    s.Respond(p) == Reply(|p|, None)
  }

  /** `s` implements `io.Closer` and its `Close` fails. */
  predicate CloseFails(s: Sink) {
    s.onClose.Closer? && s.onClose.result.Some?
  }

  /** Two sink lists hold the same sinks in the same order; only the logs
      may differ. */
  predicate SameSinks(a: seq<Sink>, b: seq<Sink>) {
    |a| == |b| &&
    forall i :: 0 <= i < |a| ==> a[i].onWrite == b[i].onWrite && a[i].onClose == b[i].onClose
  }

  /** `b` is `a` after more buffers were handed to it and no close: its log
      of received buffers only grew. */
  predicate Extends(a: Sink, b: Sink) {
    |a.received| <= |b.received| && b.received[..|a.received|] == a.received && b.closes == a.closes
  }

  // ---------------------------------------------------------------------
  // Write: the specification

  /** The index of the sink a write of `p` stops at: the first one that
      does not accept `p`, or `|ws|` when all of them do. */
  function FirstStop(ws: seq<Sink>, p: Bytes): (k: nat)
    ensures k <= |ws|
    ensures forall i :: 0 <= i < k ==> Accepts(ws[i], p)
    ensures k < |ws| ==> !Accepts(ws[k], p)
    decreases |ws|
  {
    if ws == [] then 0
    else if !Accepts(ws[0], p) then 0
    else 1 + FirstStop(ws[1..], p)
  }

  /** What `Write(p)` returns over the sinks `ws`. */
  function WriteOutcome(ws: seq<Sink>, p: Bytes): (r: Reply)
    ensures r.err.None? <==> FirstStop(ws, p) == |ws|
    ensures r.err.None? ==> r.n == |p|
    ensures r.err.Some? ==> r.n == ws[FirstStop(ws, p)].Respond(p).n
  {
    var k := FirstStop(ws, p);
    if k == |ws| then Reply(|p|, None)
    else
      var r := ws[k].Respond(p);
      if r.err.Some? then r else Reply(r.n, Some(ErrShortWrite))
  }

  /** The sinks after `Write(p)`: those up to and including the stopping
      one were handed `p`; the rest were not called. */
  function AfterWrite(ws: seq<Sink>, p: Bytes): (r: seq<Sink>)
    ensures SameSinks(ws, r)
  {
    var k := FirstStop(ws, p);
    seq(|ws|, i requires 0 <= i < |ws| => if i <= k then ws[i].Record(p) else ws[i])
  }

  // ---------------------------------------------------------------------
  // close: the specification

  /** The index of the first closer whose `Close` fails, or `|ws|`. */
  function FirstCloseFailure(ws: seq<Sink>): (k: nat)
    ensures k <= |ws|
    ensures forall i :: 0 <= i < k ==> !CloseFails(ws[i])
    ensures k < |ws| ==> CloseFails(ws[k])
    decreases |ws|
  {
    if ws == [] then 0
    else if CloseFails(ws[0]) then 0
    else 1 + FirstCloseFailure(ws[1..])
  }

  /** What `close` returns over the sinks `ws`. */
  function CloseOutcome(ws: seq<Sink>): (r: Option<Error>)
    ensures r.None? <==> forall i :: 0 <= i < |ws| ==> !CloseFails(ws[i])
    ensures r.Some? ==> r == ws[FirstCloseFailure(ws)].onClose.result
  {
    var k := FirstCloseFailure(ws);
    if k < |ws| then ws[k].onClose.result else None
  }

  /** The sinks after `close`: the closers up to and including the first
      failing one were closed; nothing else was touched. */
  function AfterClose(ws: seq<Sink>): (r: seq<Sink>)
    ensures SameSinks(ws, r)
  {
    var k := FirstCloseFailure(ws);
    seq(|ws|, i requires 0 <= i < |ws| => if i <= k && ws[i].onClose.Closer? then ws[i].Closed() else ws[i])
  }

  // ---------------------------------------------------------------------
  // copy: the specification

  /** The sinks after `io.Copy` has fed `chunks` to `Write`, one by one,
      stopping after the first write that fails. */
  function CopyWrites(ws: seq<Sink>, chunks: seq<Bytes>): (r: seq<Sink>)
    ensures |r| == |ws|
    ensures forall i :: 0 <= i < |ws| ==> Extends(ws[i], r[i])
    decreases |chunks|
  {
    if chunks == [] then ws
    else if WriteOutcome(ws, chunks[0]).err.Some? then AfterWrite(ws, chunks[0])
    else CopyWrites(AfterWrite(ws, chunks[0]), chunks[1..])
  }

  // ---------------------------------------------------------------------
  // The writer

  class MultiWriter {
    /** The registered sinks, in registration order. */
    var writers: seq<Sink>

    constructor ()
      ensures writers == []
    {
      writers := [];
    }

    /** Registers a sink after all the others. */
    method Add(writer: Sink)
      modifies this
      ensures writers == old(writers) + [writer]
    {
      writers := writers + [writer];
    }

    /** Hands `p` to every sink in order, stopping at the first that fails
        or accepts fewer bytes than `p` holds. */
    method Write(p: Bytes) returns (n: int, err: Option<Error>)
      modifies this
      ensures Reply(n, err) == WriteOutcome(old(writers), p)
      ensures writers == AfterWrite(old(writers), p)
    {
      ghost var ws := writers;
      var i := 0;
      while i < |writers|
        invariant 0 <= i <= |ws| == |writers|
        invariant forall j :: 0 <= j < i ==> Accepts(ws[j], p)
        invariant forall j :: 0 <= j < i ==> writers[j] == ws[j].Record(p)
        invariant forall j :: i <= j < |ws| ==> writers[j] == ws[j]
      {
        var reply := writers[i].Respond(p);
        writers := writers[i := writers[i].Record(p)];
        n, err := reply.n, reply.err;
        if err.Some? {
          return;
        }
        if n != |p| {
          err := Some(ErrShortWrite);
          return;
        }
        i := i + 1;
      }
      n, err := |p|, None;
    }

    /** Calls `Close` on every sink that is an `io.Closer`, in order,
        stopping at the first that fails (io.go `close`). */
    method CloseAll() returns (err: Option<Error>)
      modifies this
      ensures err == CloseOutcome(old(writers))
      ensures writers == AfterClose(old(writers))
    {
      ghost var ws := writers;
      err := None;
      var i := 0;
      while i < |writers|
        invariant 0 <= i <= |ws| == |writers|
        invariant err == None
        invariant forall j :: 0 <= j < i ==> !CloseFails(ws[j])
        invariant forall j :: 0 <= j < i ==> writers[j] == if ws[j].onClose.Closer? then ws[j].Closed() else ws[j]
        invariant forall j :: i <= j < |ws| ==> writers[j] == ws[j]
      {
        match writers[i].onClose {
          case NotCloser =>
          case Closer(result) =>
            writers := writers[i := writers[i].Closed()];
            err := result;
            if err.Some? {
              break;
            }
        }
        i := i + 1;
      }
    }

    /** The exported `Close`: exactly `close`. */
    method Close() returns (err: Option<Error>)
      modifies this
      ensures err == CloseOutcome(old(writers))
      ensures writers == AfterClose(old(writers))
    {
      err := CloseAll();
    }

    /** Feeds `chunks` to `Write` as `io.Copy` does, then always closes and
        returns what closing returned; a write error only ends the copy. */
    method Copy(chunks: seq<Bytes>) returns (err: Option<Error>)
      modifies this
      ensures writers == AfterClose(CopyWrites(old(writers), chunks))
      ensures err == CloseOutcome(CopyWrites(old(writers), chunks))
    {
      var i := 0;
      while i < |chunks|
        invariant 0 <= i <= |chunks|
        invariant CopyWrites(old(writers), chunks) == CopyWrites(writers, chunks[i..])
      {
        assert chunks[i..][1..] == chunks[i + 1..];
        var _, werr := Write(chunks[i]);
        if werr.Some? {
          break;
        }
        i := i + 1;
      }
      err := CloseAll();
    }
  }

  /** The body of io_test.go's table test for one sink: register it on a
      fresh writer, write `p`, then close. */
  method WriteThenClose(sink: Sink, p: Bytes) returns (writeErr: Option<Error>, closeErr: Option<Error>, after: Sink)
    ensures writeErr == match sink.onWrite
                        case AcceptAll => None
                        case AcceptShort(missing) => if missing == 0 then None else Some(ErrShortWrite)
                        case Fail(_, e) => Some(e)
    ensures closeErr == if sink.onClose.Closer? then sink.onClose.result else None
    ensures after.received == sink.received + [p]
    ensures after.closes == if sink.onClose.Closer? then sink.closes + 1 else sink.closes
  {
    var mw := new MultiWriter();
    mw.Add(sink);
    var _, e := mw.Write(p);
    writeErr := e;
    closeErr := mw.Close();
    after := mw.writers[0];
  }

  // ---------------------------------------------------------------------
  // Properties of Write

  /** The stopping index is determined by the sinks' answers alone. */
  lemma FirstStopIs(ws: seq<Sink>, p: Bytes, k: nat)
    requires k <= |ws|
    requires forall i :: 0 <= i < k ==> Accepts(ws[i], p)
    requires k < |ws| ==> !Accepts(ws[k], p)
    ensures FirstStop(ws, p) == k
  {
  }

  /** A write succeeds exactly when every sink takes the whole buffer; it
      then reports `len(p)` and every sink, in order, was handed `p`. With
      no sinks at all this holds vacuously. */
  lemma WriteSucceedsIffAllAccept(ws: seq<Sink>, p: Bytes)
    ensures WriteOutcome(ws, p).err.None? <==> forall i :: 0 <= i < |ws| ==> Accepts(ws[i], p)
    ensures WriteOutcome(ws, p).err.None? ==>
              WriteOutcome(ws, p).n == |p| &&
              forall i :: 0 <= i < |ws| ==> AfterWrite(ws, p)[i] == ws[i].Record(p)
  {
    if forall i :: 0 <= i < |ws| ==> Accepts(ws[i], p) {
      FirstStopIs(ws, p, |ws|);
    }
  }

  /** When sink `k` is the first to report an error, the write returns
      exactly that sink's answer; the sinks before it and `k` itself were
      handed `p`, and the sinks after it were never called. */
  lemma WriteStopsAtError(ws: seq<Sink>, p: Bytes, k: nat)
    requires k < |ws|
    requires forall i :: 0 <= i < k ==> Accepts(ws[i], p)
    requires ws[k].Respond(p).err.Some?
    ensures WriteOutcome(ws, p) == ws[k].Respond(p)
    ensures forall i :: 0 <= i <= k ==> AfterWrite(ws, p)[i] == ws[i].Record(p)
    ensures forall i :: k < i < |ws| ==> AfterWrite(ws, p)[i] == ws[i]
  {
    FirstStopIs(ws, p, k);
  }

  /** When sink `k` is the first to take fewer bytes than `p` holds without
      an error, the write reports `io.ErrShortWrite` with that sink's count,
      and the sinks after it were never called. */
  lemma WriteStopsAtShortWrite(ws: seq<Sink>, p: Bytes, k: nat)
    requires k < |ws|
    requires forall i :: 0 <= i < k ==> Accepts(ws[i], p)
    requires ws[k].Respond(p).err.None? && ws[k].Respond(p).n != |p|
    ensures WriteOutcome(ws, p) == Reply(ws[k].Respond(p).n, Some(ErrShortWrite))
    ensures forall i :: 0 <= i <= k ==> AfterWrite(ws, p)[i] == ws[i].Record(p)
    ensures forall i :: k < i < |ws| ==> AfterWrite(ws, p)[i] == ws[i]
  {
    FirstStopIs(ws, p, k);
  }

  // ---------------------------------------------------------------------
  // Properties of close

  /** Closing succeeds exactly when no closer fails; it touches only sinks
      that implement `io.Closer`, each at most once, never the sinks after
      the first failure, and it never changes what any sink was handed. */
  lemma CloseSucceedsIffNoCloserFails(ws: seq<Sink>)
    ensures CloseOutcome(ws).None? <==> forall i :: 0 <= i < |ws| ==> !CloseFails(ws[i])
    ensures forall i :: 0 <= i < |ws| ==> AfterClose(ws)[i].received == ws[i].received
    ensures forall i :: 0 <= i < |ws| ==>
              AfterClose(ws)[i].closes == if ws[i].onClose.Closer? && i <= FirstCloseFailure(ws) then ws[i].closes + 1 else ws[i].closes
  {
  }

  /** When sink `k` is the first closer whose `Close` fails, closing
      returns that error, every closer before it was closed once, and the
      sinks after it were left alone. */
  lemma CloseStopsAtFailure(ws: seq<Sink>, k: nat)
    requires k < |ws|
    requires forall i :: 0 <= i < k ==> !CloseFails(ws[i])
    requires CloseFails(ws[k])
    ensures CloseOutcome(ws) == ws[k].onClose.result
    ensures forall i :: 0 <= i <= k ==> AfterClose(ws)[i] == if ws[i].onClose.Closer? then ws[i].Closed() else ws[i]
    ensures forall i :: k < i < |ws| ==> AfterClose(ws)[i] == ws[i]
  {
  }

  /** With no closers registered, closing returns nil and changes nothing. */
  lemma CloseWithoutClosers(ws: seq<Sink>)
    requires forall i :: 0 <= i < |ws| ==> ws[i].onClose == NotCloser
    ensures CloseOutcome(ws) == None
    ensures AfterClose(ws) == ws
  {
  }

  // ---------------------------------------------------------------------
  // Properties of copy

  lemma SameSinksTransitive(a: seq<Sink>, b: seq<Sink>, c: seq<Sink>)
    requires SameSinks(a, b) && SameSinks(b, c)
    ensures SameSinks(a, c)
  {
  }

  /** Copying never adds, removes or reorders sinks. */
  lemma {:induction false} CopyKeepsSinks(ws: seq<Sink>, chunks: seq<Bytes>)
    ensures SameSinks(ws, CopyWrites(ws, chunks))
    decreases |chunks|
  {
    if chunks != [] && WriteOutcome(ws, chunks[0]).err.None? {
      var next := AfterWrite(ws, chunks[0]);
      CopyKeepsSinks(next, chunks[1..]);
      SameSinksTransitive(ws, next, CopyWrites(next, chunks[1..]));
    }
  }

  /** When every sink takes every chunk whole, copying hands each sink all
      the chunks, in order. */
  lemma {:induction false} CopyDeliversEveryChunk(ws: seq<Sink>, chunks: seq<Bytes>)
    requires forall i, j :: 0 <= i < |ws| && 0 <= j < |chunks| ==> Accepts(ws[i], chunks[j])
    ensures |CopyWrites(ws, chunks)| == |ws|
    ensures forall i :: 0 <= i < |ws| ==> CopyWrites(ws, chunks)[i] == ws[i].(received := ws[i].received + chunks)
    decreases |chunks|
  {
    if chunks != [] {
      var p := chunks[0];
      WriteSucceedsIffAllAccept(ws, p);
      var next := AfterWrite(ws, p);
      forall i, j | 0 <= i < |next| && 0 <= j < |chunks[1..]|
        ensures Accepts(next[i], chunks[1..][j])
      {
        assert Accepts(ws[i], chunks[j + 1]);
      }
      CopyDeliversEveryChunk(next, chunks[1..]);
      var rest := CopyWrites(next, chunks[1..]);
      assert CopyWrites(ws, chunks) == rest;
      forall i | 0 <= i < |ws|
        ensures rest[i] == ws[i].(received := ws[i].received + chunks)
      {
        assert next[i] == ws[i].Record(p);
        assert ws[i].received + [p] + chunks[1..] == ws[i].received + chunks;
      }
    }
  }
}
