/** The bookkeeping of StringStreamingProcess: a handle around one operating
    system process that starts it at most once, wires the process's output,
    error and exit notifications to its own subscribers only while somebody
    listens, guards the members that need a running process, and releases the
    process once.

    The wrapped System.Diagnostics.Process is represented by abstract state:
    how often it was launched, whether its line reads were begun, how many
    copies of each of this handle's callbacks are attached to its events,
    whether it has exited and with which code, and how often it was released.
    Subscribers are identified by `HandlerId`; what they do is not modelled,
    only the calls they receive, which are logged in order. */
module StreamingProcess {
  import opened Base
  import Delegates

  type HandlerId = nat

  /** One invocation of a subscriber with an event payload. */
  datatype Call<P> = Call(handler: HandlerId, payload: P)

  /** A line read from a redirected stream; `None` is the `null` that
      signals the end of the stream. */
  type Line = Option<string>

  /** DataReceivedEventArgs. */
  datatype DataReceived = DataReceived(data: Line)

  /** An entry of the Exited invocation list: the handler the constructor
      subscribes to record the exit, or a client's handler. */
  datatype ExitSubscriber = SetsHasExited | Client(id: HandlerId)

  /** The exceptions the handle throws itself, and the one it provokes from
      Process.ExitCode when the process has not exited. */
  datatype Error =
    | ArgumentNull(paramName: string)
    | Argument(message: string, paramName: string)
    | ExitCodeUnavailable

  const CurrentStateNotStarted :=
    "The process has not yet been started. Cannot determine the current state of a non-running process."
  const StandardInputNotStarted :=
    "The process has not yet been started. Cannot write standard input to a process that has not been started."

  /** What CurrentState returns; the operating-system attributes it reads
      are not modelled. */
  datatype ProcessState = ProcessStateSnapshot

  /** What StandardInput returns: the base stream of the process's standard
      input. */
  datatype InputStream = StandardInputBaseStream

  /** Wraps client handler ids as entries of the Exited invocation list. */
  function Clients(value: seq<HandlerId>): (r: seq<ExitSubscriber>)
    ensures |r| == |value|
    ensures forall k :: 0 <= k < |value| ==> r[k] == Client(value[k])
  {
    if value == [] then [] else [Client(value[0])] + Clients(value[1..])
  }

  /** Invoking a line event's invocation list: every subscriber, in order,
      receives the line unchanged. */
  function Fanout<P>(subscribers: seq<HandlerId>, payload: P): (calls: seq<Call<P>>)
    ensures |calls| == |subscribers|
    ensures forall k :: 0 <= k < |subscribers| ==> calls[k] == Call(subscribers[k], payload)
  {
    if subscribers == [] then [] else [Call(subscribers[0], payload)] + Fanout(subscribers[1..], payload)
  }

  /** Invoking the Exited invocation list: every client handler, in order,
      receives the exit code; the internal handler makes no call. Each
      subscription of a client yields exactly one call. */
  function ExitNotifications(subscribers: seq<ExitSubscriber>, exitCode: int32): (calls: seq<Call<int32>>)
    ensures |calls| <= |subscribers|
    ensures forall c :: c in calls ==> c.payload == exitCode && Client(c.handler) in subscribers
    ensures forall id :: Client(id) in subscribers ==> Call(id, exitCode) in calls
    ensures forall id :: multiset(calls)[Call(id, exitCode)] == multiset(subscribers)[Client(id)]
  {
    if subscribers == [] then []
    else
      var rest := ExitNotifications(subscribers[1..], exitCode);
      assert subscribers == [subscribers[0]] + subscribers[1..];
      assert forall id :: Client(id) in subscribers[1..] ==> Client(id) in subscribers;
      match subscribers[0]
      case SetsHasExited => rest
      case Client(id) => [Call(id, exitCode)] + rest
  }

  /** Invoking a concatenation of Exited lists: the first list's calls come
      first, so the calls follow the order of subscription. */
  lemma {:induction false} ExitNotificationsAppend(a: seq<ExitSubscriber>, b: seq<ExitSubscriber>, exitCode: int32)
    ensures ExitNotifications(a + b, exitCode) == ExitNotifications(a, exitCode) + ExitNotifications(b, exitCode)
  {
    if a != [] {
      assert (a + b)[1..] == a[1..] + b;
      ExitNotificationsAppend(a[1..], b, exitCode);
    } else {
      assert a + b == b;
    }
  }

  /** The clients subscribed by `Exited += value` are notified exactly as a
      line event notifies its subscribers: each id, in order, once. */
  lemma {:induction false} ClientNotifications(ids: seq<HandlerId>, exitCode: int32)
    ensures ExitNotifications(Clients(ids), exitCode) == Fanout(ids, exitCode)
  {
    if ids != [] {
      assert Clients(ids)[1..] == Clients(ids[1..]);
      ClientNotifications(ids[1..], exitCode);
    }
  }

  /** `s` repeated `n` times: what an event raises when the same callback is
      attached to it `n` times. */
  function Repeat<T>(n: nat, s: seq<T>): seq<T>
  {
    if n == 0 then [] else Repeat(n - 1, s) + s
  }

  /** One more raise appends one more copy. */
  lemma RepeatOnceMore<T>(n: nat, s: seq<T>, prefix: seq<T>)
    ensures prefix + Repeat(n + 1, s) == prefix + Repeat(n, s) + s
  {
  }

  /** An event with exactly as many copies of a callback as the wiring
      invariant allows (one while there are subscribers, none otherwise)
      delivers each line exactly once to each subscriber. */
  lemma {:induction false} SoundWiringDeliversOnce<P>(callbacks: nat, subscribers: seq<HandlerId>, payload: P)
    requires callbacks == if subscribers == [] then 0 else 1
    ensures Repeat(callbacks, Fanout(subscribers, payload)) == Fanout(subscribers, payload)
  {
    if callbacks == 1 {
      assert Repeat(1, Fanout(subscribers, payload)) == Repeat(0, Fanout(subscribers, payload)) + Fanout(subscribers, payload);
    }
  }

  /** ProcessStartInfo, reduced to the settings the handle forces and the
      command it describes. The handle keeps a reference to the caller's
      object and changes it. */
  class StartInfo {
    var fileName: string
    var arguments: string
    var redirectStandardError: bool
    var redirectStandardInput: bool
    var redirectStandardOutput: bool
    var useShellExecute: bool
    var createNoWindow: bool

    constructor (fileName: string, arguments: string, redirectStandardError: bool, redirectStandardInput: bool,
                 redirectStandardOutput: bool, useShellExecute: bool, createNoWindow: bool)
      ensures this.fileName == fileName && this.arguments == arguments
      ensures this.redirectStandardError == redirectStandardError
      ensures this.redirectStandardInput == redirectStandardInput
      ensures this.redirectStandardOutput == redirectStandardOutput
      ensures this.useShellExecute == useShellExecute && this.createNoWindow == createNoWindow
    {
      this.fileName, this.arguments := fileName, arguments;
      this.redirectStandardError, this.redirectStandardInput := redirectStandardError, redirectStandardInput;
      this.redirectStandardOutput := redirectStandardOutput;
      this.useShellExecute, this.createNoWindow := useShellExecute, createNoWindow;
    }

    /** All three streams redirected, no shell, no window. */
    ghost predicate Forced()
      reads this
    {
      redirectStandardError && redirectStandardInput && redirectStandardOutput && !useShellExecute && createNoWindow
    }
  }

  class StringStreamingProcess {
    /** `_process.StartInfo`: the caller's start information. */
    const startInfo: StartInfo
    /** `_process.EnableRaisingEvents`. */
    const enableRaisingEvents: bool

    var disposed: bool
    var hasExited: bool
    var hasStarted: bool

    /** `_exitedHandler`, `_errorHandler`, `_outputHandler` as invocation lists. */
    var exitedHandler: seq<ExitSubscriber>
    var errorHandler: seq<HandlerId>
    var outputHandler: seq<HandlerId>

    /** The wrapped process: launches, begun line reads, copies of
        OnExitedReceived / OnErrorReceived / OnOutputReceived attached to its
        Exited / ErrorDataReceived / OutputDataReceived events, whether it has
        exited (and raised Exited) with which code, and releases. */
    var launches: nat
    var errorReading: bool
    var outputReading: bool
    var exitedCallbacks: nat
    var errorCallbacks: nat
    var outputCallbacks: nat
    var exitRaised: bool
    var exitCode: Option<int32>
    var releases: nat

    /** The calls received by the subscribers, in order. */
    var exitCalls: seq<Call<int32>>
    var errorCalls: seq<Call<Line>>
    var outputCalls: seq<Call<Line>>

    /** The invariant every public operation keeps: the process is launched
        and its reads begun exactly when the handle has started; the internal
        exit handler is always subscribed and OnExitedReceived is attached
        exactly once, so HasExited is true exactly when the process has
        raised Exited, which only a started process does; the process is
        released exactly when the handle is disposed. */
    ghost predicate Valid()
      reads this`launches, this`hasStarted, this`errorReading, this`outputReading, this`exitedHandler
      reads this`exitedCallbacks, this`hasExited, this`exitRaised, this`exitCode, this`releases, this`disposed
    {
      && enableRaisingEvents
      && launches == (if hasStarted then 1 else 0)
      && errorReading == hasStarted && outputReading == hasStarted
      && SetsHasExited in exitedHandler
      && exitedCallbacks == 1
      && hasExited == exitRaised
      && (exitRaised ==> hasStarted)
      && exitCode.Some? == exitRaised
      && releases == (if disposed then 1 else 0)
    }

    /** The line events' lazy wiring: a callback is attached to the process
        exactly while its subscriber list is non-empty, and never twice. */
    ghost predicate LineWiringSound()
      reads this`errorCallbacks, this`errorHandler, this`outputCallbacks, this`outputHandler
    {
      && errorCallbacks == (if errorHandler == [] then 0 else 1)
      && outputCallbacks == (if outputHandler == [] then 0 else 1)
    }

    /** The constructor, for a non-null start information: it forces the
        redirection and window settings on the caller's object, enables the
        Exited event and subscribes the internal handler that records the
        exit, which attaches OnExitedReceived because the list was empty. */
    constructor (startInfo: StartInfo)
      modifies startInfo
      ensures Valid() && LineWiringSound()
      ensures startInfo.Forced()
      ensures startInfo.fileName == old(startInfo.fileName) && startInfo.arguments == old(startInfo.arguments)
      ensures this.startInfo == startInfo
      ensures !hasStarted && !hasExited && !disposed
      ensures exitedHandler == [SetsHasExited] && errorHandler == [] && outputHandler == []
      ensures exitCalls == [] && errorCalls == [] && outputCalls == []
    {
      startInfo.redirectStandardError := true;
      startInfo.redirectStandardInput := true;
      startInfo.redirectStandardOutput := true;
      startInfo.useShellExecute := false;
      startInfo.createNoWindow := true;

      this.startInfo := startInfo;
      enableRaisingEvents := true;
      disposed, hasExited, hasStarted := false, false, false;
      launches, errorReading, outputReading := 0, false, false;
      exitRaised, exitCode, releases := false, None, 0;
      errorHandler, outputHandler := [], [];
      errorCallbacks, outputCallbacks := 0, 0;
      exitCalls, errorCalls, outputCalls := [], [], [];
      // Exited += (s, e) => _hasExited = true, on an empty list
      exitedCallbacks := 1;
      exitedHandler := [SetsHasExited];
    }

    /** `new StringStreamingProcess(startInfo)` including its null check. */
    static method Create(startInfo: StartInfo?) returns (r: Result<StringStreamingProcess, Error>)
      modifies startInfo
      ensures startInfo == null <==> r.Failure?
      ensures startInfo == null ==> r.error == ArgumentNull("startInfo")
      ensures r.Success? ==> fresh(r.value) && r.value.Valid() && r.value.LineWiringSound()
      ensures r.Success? ==> r.value.startInfo == startInfo && startInfo.Forced()
      ensures r.Success? ==> !r.value.hasStarted && !r.value.hasExited && !r.value.disposed
    {
      if startInfo == null {
        return Failure(ArgumentNull("startInfo"));
      }
      var p := new StringStreamingProcess(startInfo);
      return Success(p);
    }

    /** `Exited += value`. The internal handler keeps the list non-empty, so
        OnExitedReceived is never attached a second time. */
    method AddExited(value: seq<HandlerId>)
      requires Valid()
      modifies this`exitedHandler, this`exitedCallbacks
      ensures Valid()
      ensures exitedHandler == old(exitedHandler) + Clients(value)
      ensures exitedCallbacks == old(exitedCallbacks)
    {
      // the null check of the add accessor; the internal handler keeps the
      // list non-empty, so nothing is attached here
      exitedCallbacks := exitedCallbacks + (if exitedHandler == [] then 1 else 0);
      exitedHandler := exitedHandler + Clients(value);
    }

    /** `Exited -= value`. Nothing is ever detached, and a client's value can
        never take out the internal handler. */
    method RemoveExited(value: seq<HandlerId>)
      requires Valid()
      modifies this`exitedHandler
      ensures Valid()
      ensures exitedHandler == Delegates.Remove(old(exitedHandler), Clients(value))
    {
      Delegates.RemoveKeeps(exitedHandler, Clients(value), SetsHasExited);
      exitedHandler := Delegates.Remove(exitedHandler, Clients(value));
    }

    /** `ErrorLineReceived += value`, as written: OnErrorReceived is attached
        whenever the list is empty before the addition, even when `value` is
        null and the list stays empty. */
    method AddErrorLineReceived(value: seq<HandlerId>)
      modifies this`errorHandler, this`errorCallbacks
      ensures errorHandler == old(errorHandler) + value
      ensures errorCallbacks == old(errorCallbacks) + (if old(errorHandler) == [] then 1 else 0)
      ensures old(LineWiringSound()) && value != [] ==> LineWiringSound()
    {
      if errorHandler == [] {
        errorCallbacks := errorCallbacks + 1;
      }
      errorHandler := errorHandler + value;
    }

    /** `ErrorLineReceived += value` with a null `value` ignored, which keeps
        the lazy wiring sound for every argument. */
    method AddErrorLineReceivedGuarded(value: seq<HandlerId>)
      modifies this`errorHandler, this`errorCallbacks
      ensures errorHandler == old(errorHandler) + value
      ensures old(LineWiringSound()) ==> LineWiringSound()
    {
      if value != [] {
        AddErrorLineReceived(value);
      }
    }

    /** `ErrorLineReceived -= value`: the last occurrence of `value` is taken
        out, and OnErrorReceived is detached once the list is empty (detaching
        a callback that is not attached changes nothing). */
    method RemoveErrorLineReceived(value: seq<HandlerId>)
      modifies this`errorHandler, this`errorCallbacks
      ensures errorHandler == Delegates.Remove(old(errorHandler), value)
      ensures errorCallbacks == if errorHandler == [] && old(errorCallbacks) > 0 then old(errorCallbacks) - 1 else old(errorCallbacks)
      ensures old(LineWiringSound()) ==> LineWiringSound()
    {
      errorHandler := Delegates.Remove(errorHandler, value);
      if errorHandler == [] && errorCallbacks > 0 {
        errorCallbacks := errorCallbacks - 1;
      }
    }

    /** `OutputLineReceived += value`, as written (see AddErrorLineReceived). */
    method AddOutputLineReceived(value: seq<HandlerId>)
      modifies this`outputHandler, this`outputCallbacks
      ensures outputHandler == old(outputHandler) + value
      ensures outputCallbacks == old(outputCallbacks) + (if old(outputHandler) == [] then 1 else 0)
      ensures old(LineWiringSound()) && value != [] ==> LineWiringSound()
    {
      if outputHandler == [] {
        outputCallbacks := outputCallbacks + 1;
      }
      outputHandler := outputHandler + value;
    }

    /** `OutputLineReceived += value` with a null `value` ignored. */
    method AddOutputLineReceivedGuarded(value: seq<HandlerId>)
      modifies this`outputHandler, this`outputCallbacks
      ensures outputHandler == old(outputHandler) + value
      ensures old(LineWiringSound()) ==> LineWiringSound()
    {
      if value != [] {
        AddOutputLineReceived(value);
      }
    }

    /** `OutputLineReceived -= value` (see RemoveErrorLineReceived). */
    method RemoveOutputLineReceived(value: seq<HandlerId>)
      modifies this`outputHandler, this`outputCallbacks
      ensures outputHandler == Delegates.Remove(old(outputHandler), value)
      ensures outputCallbacks == if outputHandler == [] && old(outputCallbacks) > 0 then old(outputCallbacks) - 1 else old(outputCallbacks)
      ensures old(LineWiringSound()) ==> LineWiringSound()
    {
      outputHandler := Delegates.Remove(outputHandler, value);
      if outputHandler == [] && outputCallbacks > 0 {
        outputCallbacks := outputCallbacks - 1;
      }
    }

    /** CurrentState: fails with an ArgumentException unless started. */
    method CurrentState() returns (r: Result<ProcessState, Error>)
      ensures r.Success? <==> hasStarted
      ensures r.Failure? ==> r.error == Argument(CurrentStateNotStarted, "CurrentState")
    {
      if !hasStarted {
        return Failure(Argument(CurrentStateNotStarted, "CurrentState"));
      }
      return Success(ProcessStateSnapshot);
    }

    /** StandardInput: fails with an ArgumentException unless started. The
        exception names "CurrentState" as its parameter, as the source does. */
    method StandardInput() returns (r: Result<InputStream, Error>)
      ensures r.Success? <==> hasStarted
      ensures r.Failure? ==> r.error == Argument(StandardInputNotStarted, "CurrentState")
    {
      if !hasStarted {
        return Failure(Argument(StandardInputNotStarted, "CurrentState"));
      }
      return Success(StandardInputBaseStream);
    }

    /** Start: the first call launches the process, marks the handle started
        and begins the error and output line reads; every later call returns
        false and changes nothing. */
    method Start() returns (started: bool)
      requires Valid()
      modifies this`launches, this`hasStarted, this`errorReading, this`outputReading
      ensures Valid()
      ensures started == !old(hasStarted)
      ensures hasStarted && errorReading && outputReading && launches == 1
      ensures old(hasStarted) ==> unchanged(this)
    {
      if hasStarted {
        return false;
      }
      launches := launches + 1;
      hasStarted := true;
      errorReading := true;
      outputReading := true;
      return hasStarted;
    }

    /** OnExitedReceived: invokes the Exited list with the process's exit
        code. With an empty list the exit code is not read at all; reading it
        from a process that has not exited throws. */
    method OnExitedReceived() returns (outcome: Outcome<Error>)
      modifies this`hasExited, this`exitCalls
      ensures exitedHandler == [] ==> outcome == Pass && unchanged(this)
      ensures exitedHandler != [] && exitCode.None? ==> outcome == Fail(ExitCodeUnavailable) && unchanged(this)
      ensures exitedHandler != [] && exitCode.Some? ==>
                && outcome == Pass
                && hasExited == (old(hasExited) || SetsHasExited in exitedHandler)
                && exitCalls == old(exitCalls) + ExitNotifications(exitedHandler, exitCode.value)
    {
      if exitedHandler == [] {
        return Pass;
      }
      match exitCode
      case None =>
        return Fail(ExitCodeUnavailable);
      case Some(code) =>
        if SetsHasExited in exitedHandler {
          hasExited := true;
        }
        exitCalls := exitCalls + ExitNotifications(exitedHandler, code);
        return Pass;
    }

    /** OnErrorReceived: a null event-args object throws; otherwise the line,
        a null end-of-stream included, goes unchanged to every subscriber. */
    method OnErrorReceived(args: Option<DataReceived>) returns (outcome: Outcome<Error>)
      modifies this`errorCalls
      ensures args.None? ==> outcome == Fail(ArgumentNull("args")) && unchanged(this)
      ensures args.Some? ==> outcome == Pass && errorCalls == old(errorCalls) + Fanout(errorHandler, args.value.data)
    {
      if args.None? {
        return Fail(ArgumentNull("args"));
      }
      errorCalls := errorCalls + Fanout(errorHandler, args.value.data);
      return Pass;
    }

    /** OnOutputReceived: as OnErrorReceived, for standard output. */
    method OnOutputReceived(args: Option<DataReceived>) returns (outcome: Outcome<Error>)
      modifies this`outputCalls
      ensures args.None? ==> outcome == Fail(ArgumentNull("args")) && unchanged(this)
      ensures args.Some? ==> outcome == Pass && outputCalls == old(outputCalls) + Fanout(outputHandler, args.value.data)
    {
      if args.None? {
        return Fail(ArgumentNull("args"));
      }
      outputCalls := outputCalls + Fanout(outputHandler, args.value.data);
      return Pass;
    }

    /** The operating system reports the exit of the process with `code`: a
        started process that has not exited yet raises Exited once, which
        runs every attached copy of OnExitedReceived. Afterwards HasExited is
        true and every client subscriber has been told the code. */
    method OsProcessExits(code: int32)
      requires Valid()
      modifies this`exitRaised, this`exitCode, this`hasExited, this`exitCalls
      ensures Valid()
      ensures !old(hasStarted) || old(exitRaised) ==> unchanged(this)
      ensures old(hasStarted) && !old(exitRaised) ==>
                && hasExited && exitRaised && exitCode == Some(code)
                && exitCalls == old(exitCalls) + ExitNotifications(exitedHandler, code)
    {
      if !hasStarted || exitRaised {
        return;
      }
      exitRaised, exitCode := true, Some(code);
      ghost var once := ExitNotifications(exitedHandler, code);
      var i := 0;
      while i < exitedCallbacks
        invariant 0 <= i <= exitedCallbacks
        invariant exitRaised && exitCode == Some(code)
        invariant hasExited == (i > 0)
        invariant exitCalls == old(exitCalls) + Repeat(i, once)
      {
        var _ := OnExitedReceived();
        RepeatOnceMore(i, once, old(exitCalls));
        i := i + 1;
      }
    }

    /** The operating system reads a line from standard error: once the read
        was begun, ErrorDataReceived runs every attached copy of
        OnErrorReceived. With sound wiring each subscriber gets the line
        exactly once. */
    method OsErrorLine(data: Line)
      modifies this`errorCalls
      ensures !errorReading ==> errorCalls == old(errorCalls)
      ensures errorReading ==> errorCalls == old(errorCalls) + Repeat(errorCallbacks, Fanout(errorHandler, data))
      ensures errorReading && LineWiringSound() ==> errorCalls == old(errorCalls) + Fanout(errorHandler, data)
    {
      if !errorReading {
        return;
      }
      ghost var once := Fanout(errorHandler, data);
      var i := 0;
      while i < errorCallbacks
        invariant 0 <= i <= errorCallbacks
        invariant errorCalls == old(errorCalls) + Repeat(i, once)
      {
        var _ := OnErrorReceived(Some(DataReceived(data)));
        RepeatOnceMore(i, once, old(errorCalls));
        i := i + 1;
      }
      if LineWiringSound() {
        SoundWiringDeliversOnce(errorCallbacks, errorHandler, data);
      }
    }

    /** The operating system reads a line from standard output (see
        OsErrorLine). */
    method OsOutputLine(data: Line)
      modifies this`outputCalls
      ensures !outputReading ==> outputCalls == old(outputCalls)
      ensures outputReading ==> outputCalls == old(outputCalls) + Repeat(outputCallbacks, Fanout(outputHandler, data))
      ensures outputReading && LineWiringSound() ==> outputCalls == old(outputCalls) + Fanout(outputHandler, data)
    {
      if !outputReading {
        return;
      }
      ghost var once := Fanout(outputHandler, data);
      var i := 0;
      while i < outputCallbacks
        invariant 0 <= i <= outputCallbacks
        invariant outputCalls == old(outputCalls) + Repeat(i, once)
      {
        var _ := OnOutputReceived(Some(DataReceived(data)));
        RepeatOnceMore(i, once, old(outputCalls));
        i := i + 1;
      }
      if LineWiringSound() {
        SoundWiringDeliversOnce(outputCallbacks, outputHandler, data);
      }
    }

    /** Dispose(): releases the process the first time only. HasStarted and
        HasExited are left as they are. */
    method Dispose()
      requires Valid()
      modifies this`disposed, this`releases
      ensures Valid()
      ensures disposed && releases == 1
      ensures old(disposed) ==> unchanged(this)
    {
      DisposeWith(true);
    }

    /** Dispose(bool disposing): nothing happens when already disposed or
        when not disposing; otherwise the process is released once. */
    method DisposeWith(disposing: bool)
      modifies this`disposed, this`releases
      ensures old(disposed) || !disposing ==> unchanged(this)
      ensures !old(disposed) && disposing ==> disposed && releases == old(releases) + 1
    {
      if disposed {
        return;
      }
      if !disposing {
        return;
      }
      releases := releases + 1;
      disposed := true;
    }
  }
}
