/**
 * The agent-side command executor of the RPC server: it runs one external
 * command per request and reports its life cycle over the outgoing message
 * stream as started, output and completed messages that all carry the
 * command's sequence number.
 *
 * The process itself is not spawned here. What the operating system would
 * do is given as a `Process` value: the resolved path, whether the process
 * started, the output chunks it writes and how many of them are written
 * before the started message is sent, and how waiting for it ends.
 */
module Executor {
  import opened Wrappers

  /** The exit code reported when the real one cannot be determined. */
  const ExitCodeUndefined: int := -1

  const TwoTo31: int := 0x8000_0000
  const TwoTo32: int := 0x1_0000_0000

  newtype byte = x: int | 0 <= x < 256

  /** Which output of the process a chunk came from. */
  datatype Fd = Stdout | Stderr

  datatype Chunk = Chunk(fd: Fd, data: seq<byte>)

  /**
   * Why waiting for a started process returned an error: an exit error,
   * with the status's exit code when the platform reports a wait status,
   * or any other error (a failed copy of its output, a cancelled context).
   */
  datatype WaitError = ExitError(status: Option<int>) | OtherWaitError(reason: string)

  /** How a process run ends: it never starts, or it is waited for (`None`: clean exit). */
  datatype Outcome = StartFailed(reason: string) | Waited(error: Option<WaitError>)

  datatype Process = Process(path: string, output: seq<Chunk>, beforeStarted: nat, outcome: Outcome)

  /** The error `exec` returns. */
  datatype ExecError = StartError(path: string, reason: string) | RunError(cause: WaitError)

  /** The wire messages of the execution protocol. */
  datatype Message =
    | ExecStarted(sequence: int, args: seq<string>)
    | ExecOutput(sequence: int, fd: Fd, data: seq<byte>)
    | ExecCompleted(sequence: int, exitCode: int, error: Option<WaitError>)

  /** Go's conversion of an integer to int32: two's-complement wrap-around. */
  function Int32(x: int): (r: int)
    ensures -TwoTo31 <= r < TwoTo31
    ensures (r - x) % TwoTo32 == 0
    ensures -TwoTo31 <= x < TwoTo31 ==> r == x
  {
    (x + TwoTo31) % TwoTo32 - TwoTo31
  }

  /**
   * One step of the command counter, for every int32 value it can hold: it
   * counts up by one, except that after the largest int32 it overflows to
   * the most negative one.
   */
  lemma Int32WrapsAround(n: int)
    requires -TwoTo31 <= n < TwoTo31
    ensures n < TwoTo31 - 1 ==> Int32(n + 1) == n + 1
    ensures n == TwoTo31 - 1 ==> Int32(n + 1) == -TwoTo31
  {
  }

  /** The exit code a wait error yields: the wait status's, or the undefined sentinel. */
  function ExitCode(e: WaitError): int
  {
    if e.ExitError? && e.status.Some? then e.status.value else ExitCodeUndefined
  }

  /** The completion message: zero values when clean, exit code and error otherwise. */
  function Completion(sq: int, error: Option<WaitError>): Message
  {
    match error
    case None => ExecCompleted(sq, 0, None)
    case Some(e) => ExecCompleted(sq, Int32(ExitCode(e)), Some(e))
  }

  lemma {:induction false} CompletionReportsExitCode(sq: int, e: WaitError)
    ensures Completion(sq, None) == ExecCompleted(sq, 0, None)
    ensures e == ExitError(None) || e.OtherWaitError? ==>
      Completion(sq, Some(e)) == ExecCompleted(sq, -1, Some(e))
    ensures e.ExitError? && e.status.Some? && -TwoTo31 <= e.status.value < TwoTo31 ==>
      Completion(sq, Some(e)) == ExecCompleted(sq, e.status.value, Some(e))
    ensures Completion(sq, Some(e)).error == Some(e)
  {
  }

  /** The output messages for a run of chunks, in order. */
  function Outputs(sq: int, chunks: seq<Chunk>): seq<Message>
  {
    seq(|chunks|, i requires 0 <= i < |chunks| => ExecOutput(sq, chunks[i].fd, chunks[i].data))
  }

  /** How many chunks are written before the started message. */
  function SplitPoint(p: Process): nat
  {
    if p.beforeStarted <= |p.output| then p.beforeStarted else |p.output|
  }

  /** Every message one execution sends, in the order it sends them. */
  function Events(sq: int, args: seq<string>, p: Process): (r: seq<Message>)
    ensures r == [] <==> p.outcome.StartFailed?
    ensures forall i :: 0 <= i < |r| ==> r[i].sequence == sq
  {
    match p.outcome
    case StartFailed(_) => []
    case Waited(error) =>
      var k := SplitPoint(p);
      Outputs(sq, p.output[..k]) + [ExecStarted(sq, args)] + Outputs(sq, p.output[k..]) + [Completion(sq, error)]
  }

  /** What one execution returns. */
  function ExecResult(p: Process): Option<ExecError>
  {
    match p.outcome
    case StartFailed(reason) => Some(StartError(p.path, reason))
    case Waited(None) => None
    case Waited(Some(e)) => Some(RunError(e))
  }

  // ---------------------------------------------------------------------------
  // Properties of the message sequence
  // ---------------------------------------------------------------------------

  /** The started and completed messages of a sequence, in order. */
  function Controls(msgs: seq<Message>): seq<Message>
  {
    if msgs == [] then []
    else (if msgs[0].ExecOutput? then [] else [msgs[0]]) + Controls(msgs[1..])
  }

  /** The data written to one descriptor, in order. */
  function DataOn(msgs: seq<Message>, fd: Fd): seq<seq<byte>>
  {
    if msgs == [] then []
    else (if msgs[0].ExecOutput? && msgs[0].fd == fd then [msgs[0].data] else []) + DataOn(msgs[1..], fd)
  }

  function ChunksOn(chunks: seq<Chunk>, fd: Fd): seq<seq<byte>>
  {
    if chunks == [] then []
    else (if chunks[0].fd == fd then [chunks[0].data] else []) + ChunksOn(chunks[1..], fd)
  }

  lemma {:induction false} ControlsAppend(a: seq<Message>, b: seq<Message>)
    ensures Controls(a + b) == Controls(a) + Controls(b)
  {
    if a == [] {
      assert a + b == b;
    } else {
      assert (a + b)[1..] == a[1..] + b;
      ControlsAppend(a[1..], b);
    }
  }

  lemma {:induction false} DataOnAppend(a: seq<Message>, b: seq<Message>, fd: Fd)
    ensures DataOn(a + b, fd) == DataOn(a, fd) + DataOn(b, fd)
  {
    if a == [] {
      assert a + b == b;
    } else {
      assert (a + b)[1..] == a[1..] + b;
      DataOnAppend(a[1..], b, fd);
    }
  }

  lemma {:induction false} ChunksOnAppend(a: seq<Chunk>, b: seq<Chunk>, fd: Fd)
    ensures ChunksOn(a + b, fd) == ChunksOn(a, fd) + ChunksOn(b, fd)
  {
    if a == [] {
      assert a + b == b;
    } else {
      assert (a + b)[1..] == a[1..] + b;
      ChunksOnAppend(a[1..], b, fd);
    }
  }

  lemma {:induction false} OutputsAreNotControls(sq: int, chunks: seq<Chunk>)
    ensures Controls(Outputs(sq, chunks)) == []
  {
    if chunks != [] {
      assert Outputs(sq, chunks)[1..] == Outputs(sq, chunks[1..]);
      OutputsAreNotControls(sq, chunks[1..]);
    }
  }

  lemma {:induction false} OutputsKeepData(sq: int, chunks: seq<Chunk>, fd: Fd)
    ensures DataOn(Outputs(sq, chunks), fd) == ChunksOn(chunks, fd)
  {
    if chunks != [] {
      assert Outputs(sq, chunks)[1..] == Outputs(sq, chunks[1..]);
      OutputsKeepData(sq, chunks[1..], fd);
    }
  }

  /**
   * A process that starts yields exactly one started message and, after it,
   * exactly one completion; a process that does not start yields nothing.
   */
  lemma {:induction false} ControlMessagesOfRun(sq: int, args: seq<string>, p: Process)
    ensures p.outcome.StartFailed? ==> Controls(Events(sq, args, p)) == []
    ensures p.outcome.Waited? ==>
      Controls(Events(sq, args, p)) == [ExecStarted(sq, args), Completion(sq, p.outcome.error)]
  {
    if p.outcome.Waited? {
      var k := SplitPoint(p);
      var before := Outputs(sq, p.output[..k]);
      var after := Outputs(sq, p.output[k..]);
      var started := [ExecStarted(sq, args)];
      var done := [Completion(sq, p.outcome.error)];
      ControlsAppend(before + started + after, done);
      ControlsAppend(before + started, after);
      ControlsAppend(before, started);
      OutputsAreNotControls(sq, p.output[..k]);
      OutputsAreNotControls(sq, p.output[k..]);
    }
  }

  /** Per descriptor, the data arrives in the order the process wrote it, however the two interleave. */
  lemma {:induction false} OutputOrderPerDescriptor(sq: int, args: seq<string>, p: Process, fd: Fd)
    requires p.outcome.Waited?
    ensures DataOn(Events(sq, args, p), fd) == ChunksOn(p.output, fd)
  {
    var k := SplitPoint(p);
    var before := Outputs(sq, p.output[..k]);
    var after := Outputs(sq, p.output[k..]);
    var started := [ExecStarted(sq, args)];
    var done := [Completion(sq, p.outcome.error)];
    DataOnAppend(before + started + after, done, fd);
    DataOnAppend(before + started, after, fd);
    DataOnAppend(before, started, fd);
    OutputsKeepData(sq, p.output[..k], fd);
    OutputsKeepData(sq, p.output[k..], fd);
    ChunksOnAppend(p.output[..k], p.output[k..], fd);
    assert p.output[..k] + p.output[k..] == p.output;
  }

  /** A command that writes nothing and exits cleanly yields exactly started then completed. */
  lemma {:induction false} SilentCleanRun(sq: int, args: seq<string>, path: string, k: nat)
    ensures Events(sq, args, Process(path, [], k, Waited(None))) ==
      [ExecStarted(sq, args), ExecCompleted(sq, 0, None)]
    ensures ExecResult(Process(path, [], k, Waited(None))) == None
  {
    var p := Process(path, [], k, Waited(None));
    assert SplitPoint(p) == 0;
    assert p.output[..0] == [] && p.output[0..] == [];
    assert Outputs(sq, []) == [];
    assert Completion(sq, None) == ExecCompleted(sq, 0, None);
  }

  // ---------------------------------------------------------------------------
  // The outgoing message stream
  // ---------------------------------------------------------------------------

  /** The attempted messages whose send succeeded; `refused` holds the failing attempt positions. */
  function Surviving(msgs: seq<Message>, refused: set<nat>): seq<Message>
  {
    if msgs == [] then []
    else
      var n := |msgs| - 1;
      Surviving(msgs[..n], refused) + (if n in refused then [] else [msgs[n]])
  }

  lemma {:induction false} NothingRefusedDeliversAll(msgs: seq<Message>)
    ensures Surviving(msgs, {}) == msgs
  {
    if msgs != [] {
      NothingRefusedDeliversAll(msgs[..|msgs| - 1]);
      assert msgs[..|msgs| - 1] + [msgs[|msgs| - 1]] == msgs;
    }
  }

  lemma {:induction false} DeliveredWereAttempted(msgs: seq<Message>, refused: set<nat>)
    ensures forall m :: m in Surviving(msgs, refused) ==> m in msgs
  {
    if msgs != [] {
      DeliveredWereAttempted(msgs[..|msgs| - 1], refused);
    }
  }

  /**
   * The caller's end of the connection: every send is attempted in order,
   * and a send fails exactly when its position is in `refused`.
   */
  class MessageStream {
    var attempted: seq<Message>
    var delivered: seq<Message>
    const refused: set<nat>

    predicate Valid()
      reads this
    {
      delivered == Surviving(attempted, refused)
    }

    constructor(refused: set<nat>)
      ensures Valid()
      ensures attempted == [] && this.refused == refused
    {
      attempted := [];
      delivered := [];
      this.refused := refused;
    }

    method Send(m: Message) returns (failed: bool)
      requires Valid()
      modifies this
      ensures Valid()
      ensures attempted == old(attempted) + [m]
      ensures failed <==> |old(attempted)| in refused
      ensures delivered == old(delivered) + (if failed then [] else [m])
    {
      failed := |attempted| in refused;
      assert (attempted + [m])[..|attempted|] == attempted;
      attempted := attempted + [m];
      if !failed {
        delivered := delivered + [m];
      }
    }
  }

  /** Send a message; a failed send is only logged, so nothing is returned. */
  method NotifyAndLogError(stream: MessageStream, m: Message)
    requires stream.Valid()
    modifies stream
    ensures stream.Valid()
    ensures stream.attempted == old(stream.attempted) + [m]
  {
    var _ := stream.Send(m);
  }

  /** An io.Writer that forwards each write as one output message. */
  class StreamWriter {
    const stream: MessageStream
    const fd: Fd
    const sequence: int

    constructor(stream: MessageStream, fd: Fd, sequence: int)
      ensures this.stream == stream && this.fd == fd && this.sequence == sequence
    {
      this.stream := stream;
      this.fd := fd;
      this.sequence := sequence;
    }

    /** Returns the byte count and no error on a successful send, and zero and the error otherwise. */
    method Write(p: seq<byte>) returns (n: int, failed: bool)
      requires stream.Valid()
      modifies stream
      ensures stream.Valid()
      ensures stream.attempted == old(stream.attempted) + [ExecOutput(sequence, fd, p)]
      ensures failed <==> |old(stream.attempted)| in stream.refused
      ensures n == if failed then 0 else |p|
    {
      failed := stream.Send(ExecOutput(sequence, fd, p));
      n := if failed then 0 else |p|;
    }
  }

  /**
   * The process's copying of its output: each chunk goes through the writer
   * of its descriptor. A failed write is the process's concern and is
   * already reflected in how waiting ends.
   */
  method Forward(stdout: StreamWriter, stderr: StreamWriter, chunks: seq<Chunk>)
    requires stdout.stream == stderr.stream && stdout.stream.Valid()
    requires stdout.fd == Stdout && stderr.fd == Stderr && stdout.sequence == stderr.sequence
    modifies stdout.stream
    ensures stdout.stream.Valid()
    ensures stdout.stream.attempted == old(stdout.stream.attempted) + Outputs(stdout.sequence, chunks)
  {
    var stream := stdout.stream;
    for i := 0 to |chunks|
      invariant stream.Valid()
      invariant stream.attempted == old(stream.attempted) + Outputs(stdout.sequence, chunks[..i])
    {
      var chunk := chunks[i];
      if chunk.fd == Stdout {
        var _, _ := stdout.Write(chunk.data);
      } else {
        var _, _ := stderr.Write(chunk.data);
      }
      assert Outputs(stdout.sequence, chunks[..i + 1]) == Outputs(stdout.sequence, chunks[..i]) + [ExecOutput(stdout.sequence, chunk.fd, chunk.data)];
    }
    assert chunks[..|chunks|] == chunks;
  }

  /** A command runner with its own sequence counter. */
  class OsCommand {
    var sequence: int

    constructor()
      ensures sequence == 0
    {
      sequence := 0;
    }

    /**
     * Run one command. The counter advances by one (as an int32) whatever
     * happens; the messages sent are exactly `Events` for the new value, and
     * the error returned is `ExecResult`, whichever sends failed.
     */
    method Exec(stream: MessageStream, args: seq<string>, p: Process) returns (err: Option<ExecError>)
      requires |args| >= 1
      requires stream.Valid()
      modifies this, stream
      ensures stream.Valid()
      ensures sequence == Int32(old(sequence) + 1)
      ensures stream.attempted == old(stream.attempted) + Events(sequence, args, p)
      ensures err == ExecResult(p)
    {
      sequence := Int32(sequence + 1);
      var sq := sequence;
      var stdout := new StreamWriter(stream, Stdout, sq);
      var stderr := new StreamWriter(stream, Stderr, sq);
      if p.outcome.StartFailed? {
        return Some(StartError(p.path, p.outcome.reason));
      }
      err := Supervise(stdout, stderr, args, p);
    }
  }

  /**
   * The part of `exec` after a successful start: output written before the
   * started message, the started message, the rest of the output, then the
   * completion built from how waiting ended.
   */
  method Supervise(stdout: StreamWriter, stderr: StreamWriter, args: seq<string>, p: Process)
    returns (err: Option<ExecError>)
    requires p.outcome.Waited?
    requires stdout.stream == stderr.stream && stdout.stream.Valid()
    requires stdout.fd == Stdout && stderr.fd == Stderr && stdout.sequence == stderr.sequence
    modifies stdout.stream
    ensures stdout.stream.Valid()
    ensures stdout.stream.attempted == old(stdout.stream.attempted) + Events(stdout.sequence, args, p)
    ensures err == ExecResult(p)
  {
    var stream := stdout.stream;
    var sq := stdout.sequence;
    ghost var sent := stream.attempted;
    var k := SplitPoint(p);
    ghost var before := Outputs(sq, p.output[..k]) + [ExecStarted(sq, args)] + Outputs(sq, p.output[k..]);
    Forward(stdout, stderr, p.output[..k]);
    NotifyAndLogError(stream, ExecStarted(sq, args));
    Forward(stdout, stderr, p.output[k..]);
    assert stream.attempted == sent + before;
    match p.outcome.error {
      case None =>
        NotifyAndLogError(stream, ExecCompleted(sq, 0, None));
        err := None;
      case Some(e) =>
        var exitCode := ExitCodeUndefined;
        if e.ExitError? && e.status.Some? {
          exitCode := e.status.value;
        }
        NotifyAndLogError(stream, ExecCompleted(sq, Int32(exitCode), Some(e)));
        err := Some(RunError(e));
    }
    assert stream.attempted == sent + (before + [Completion(sq, p.outcome.error)]);
  }

  /** Run one command with a fresh runner: its sequence number is always 1. */
  method OsExec(stream: MessageStream, args: seq<string>, p: Process) returns (err: Option<ExecError>)
    requires |args| >= 1
    requires stream.Valid()
    modifies stream
    ensures stream.Valid()
    ensures stream.attempted == old(stream.attempted) + Events(1, args, p)
    ensures err == ExecResult(p)
  {
    var cmd := new OsCommand();
    err := cmd.Exec(stream, args, p);
  }
}
