/** Client programs run against the model of the handle: each drives one
    handle through a sequence of calls and operating-system events and states
    what its subscribers observe. */
module Scenarios {
  import opened Base
  import opened StreamingProcess

  /** A fresh handle for a command line. */
  method NewProcess() returns (p: StringStreamingProcess)
    ensures fresh(p) && p.Valid() && p.LineWiringSound()
    ensures !p.hasStarted && !p.hasExited && !p.disposed
    ensures p.exitedHandler == [SetsHasExited] && p.errorHandler == [] && p.outputHandler == []
    ensures p.exitCalls == [] && p.errorCalls == [] && p.outputCalls == []
  {
    var info := new StartInfo("tool", "--flag", false, false, false, true, false);
    p := new StringStreamingProcess(info);
  }

  /** Starting twice: the second Start returns false and the process is
      launched once. */
  method StartTwice() returns (first: bool, second: bool, launches: nat)
    ensures first && !second && launches == 1
  {
    var p := NewProcess();
    first := p.Start();
    second := p.Start();
    launches := p.launches;
  }

  /** Before Start, CurrentState and StandardInput both throw. */
  method QueriesBeforeStart() returns (state: Result<ProcessState, Error>, input: Result<InputStream, Error>)
    ensures state == Failure(Argument(CurrentStateNotStarted, "CurrentState"))
    ensures input == Failure(Argument(StandardInputNotStarted, "CurrentState"))
  {
    var p := NewProcess();
    state := p.CurrentState();
    input := p.StandardInput();
  }

  /** A program that prints "line1" and "line2": the output subscriber
      receives both lines in order and then the end of the stream. */
  method EchoLines() returns (lines: seq<Call<Line>>)
    ensures lines == [Call(1, Some("line1")), Call(1, Some("line2")), Call(1, None)]
  {
    var p := NewProcess();
    p.AddOutputLineReceived([1]);
    var _ := p.Start();
    assert p.LineWiringSound() && p.outputReading && p.outputHandler == [1];
    var line1, line2, end: Line := Some("line1"), Some("line2"), None;
    assert Fanout([1], line1) == [Call(1, line1)];
    assert Fanout([1], line2) == [Call(1, line2)];
    assert Fanout([1], end) == [Call(1, end)];
    p.OsOutputLine(line1);
    p.OsOutputLine(line2);
    p.OsOutputLine(end);
    lines := p.outputCalls;
  }

  /** The program then exits with 0: the exit subscriber receives 0 once and
      HasExited is true; a second exit report changes nothing. */
  method ExitNotifiesOnce() returns (exits: seq<Call<int32>>, hasExited: bool)
    ensures exits == [Call(2, 0)]
    ensures hasExited
  {
    var p := NewProcess();
    p.AddExited([2]);
    assert p.exitedHandler == [SetsHasExited, Client(2)];
    var _ := p.Start();
    assert ExitNotifications([Client(2)], 0) == [Call(2, 0)];
    p.OsProcessExits(0);
    p.OsProcessExits(1);
    exits, hasExited := p.exitCalls, p.hasExited;
  }

  /** Disposing twice releases the process once and leaves HasStarted and
      HasExited as they were. */
  method DisposeTwice() returns (releases: nat, hasStarted: bool, hasExited: bool)
    ensures releases == 1 && hasStarted && !hasExited
  {
    var p := NewProcess();
    var _ := p.Start();
    p.Dispose();
    p.Dispose();
    releases, hasStarted, hasExited := p.releases, p.hasStarted, p.hasExited;
  }

  /** `ErrorLineReceived += null` on a handle with no error subscribers,
      then `ErrorLineReceived += h`: OnErrorReceived is attached twice, so one
      error line reaches `h` twice. */
  method NullSubscriptionDeliversTwice() returns (calls: seq<Call<Line>>)
    ensures calls == [Call(7, Some("oops")), Call(7, Some("oops"))]
  {
    var p := NewProcess();
    p.AddErrorLineReceived([]);
    p.AddErrorLineReceived([7]);
    assert p.errorCallbacks == 2 && p.errorHandler == [7];
    var _ := p.Start();
    var once := Fanout([7], Some("oops"));
    assert once == [Call(7, Some("oops"))];
    assert Repeat(2, once) == Repeat(1, once) + once == Repeat(0, once) + once + once;
    p.OsErrorLine(Some("oops"));
    calls := p.errorCalls;
  }

  /** The same calls with the null subscription ignored: the line reaches
      `h` exactly once. */
  method GuardedSubscriptionDeliversOnce() returns (calls: seq<Call<Line>>)
    ensures calls == [Call(7, Some("oops"))]
  {
    var p := NewProcess();
    p.AddErrorLineReceivedGuarded([]);
    p.AddErrorLineReceivedGuarded([7]);
    var _ := p.Start();
    p.OsErrorLine(Some("oops"));
    calls := p.errorCalls;
  }
}
