# StringStreamingProcess, modelled in Dafny

`StringStreamingProcess` wraps one operating-system process (a
`System.Diagnostics.Process`). It starts the process at most once and exposes
its standard input. It re-publishes three process notifications as its own
events: output line, error line, and exit. The handle's own logic is
bookkeeping:

- it forces the start information to redirect all three streams, with no
  shell and no window;
- it attaches its callbacks to the process's line events only while it has
  subscribers;
- it subscribes an internal handler that records the exit;
- it refuses `CurrentState` and `StandardInput` before `Start`;
- it projects timed waits onto an `(exited, exitCode)` pair and clamps
  `TimeSpan` timeouts;
- it releases the process once.

The model is split into five modules:

- `Base` holds option and result types and the .NET `int`/`long` ranges.
- `Delegates` models multicast delegates as invocation lists. `null` is the
  empty list, `+=` is concatenation and `-=` is `Delegates.Remove`, which takes
  out the last block equal to the removed delegate's list.
- `Timeouts` holds the timed `WaitForExit` forms as functions. A `TimeSpan` is
  its tick count. The operating system's answer to a wait is a function from a
  timeout to "still running" (`None`) or "exited with code c" (`Some(c)`).
- `StreamingProcess` holds the handle as a class, plus the start information,
  which is also a class because the constructor changes the caller's object.
  The wrapped process is reduced to abstract fields:
  - how often it was launched;
  - whether its line reads were begun;
  - how many copies of each handle callback are attached to its events;
  - whether it exited, and with which code;
  - how often it was released.

  Subscribers are handler ids, and each call they receive is logged in order.
  Process notifications become the methods `OsProcessExits`, `OsErrorLine` and
  `OsOutputLine`. Each one runs the handle's callback once per attached copy,
  as a .NET event does.
- `Scenarios` holds client programs that drive a handle and state what its
  subscribers see.

`StringStreamingProcess.Valid()` is the invariant every public operation
keeps:

- the process is launched, and its reads begun, exactly when `HasStarted` is
  set;
- the internal exit handler is always subscribed;
- `OnExitedReceived` is attached exactly once;
- `HasExited` is set exactly when the process raised `Exited`, which only a
  started process does;
- the process is released exactly when the handle is disposed.

`LineWiringSound()` is the lazy-wiring property for the two line events: a
callback is attached exactly while its subscriber list is non-empty. The
source keeps it for every non-null subscription but not for a null one (see
Findings).

Notes on the source's behaviour:

- The exit callback is attached once, in the constructor, through the
  internal handler. It is not attached lazily on the first external
  subscriber.
- The `ArgumentException` thrown by `StandardInput` names `CurrentState` as
  its parameter, as the source does.
- Nothing guards the exit code before start. Only `CurrentState` and
  `StandardInput` check `HasStarted`.

## Model

| member | source | states |
|---|---|---|
| `Delegates.LastOccurrenceFrom` | src/SJP.Process/StringStreamingProcess.cs:48 | the downward search used by `-=` finds a block equal to the removed list, and no later block matches; `None` means no block matches at all |
| `Delegates.Remove` | src/SJP.Process/StringStreamingProcess.cs:64 | `-=` with a null or absent delegate leaves the list unchanged; otherwise the last block equal to the removed delegate's list is taken out and the entries before and after it keep their order (so length and multiset drop by exactly that delegate) |
| `Delegates.RemoveCombined` | src/SJP.Process/StringStreamingProcess.cs:44-48 | unsubscribing what was just subscribed restores the list: `(a + v) - v == a` |
| `Delegates.RemoveKeeps` | src/SJP.Process/StringStreamingProcess.cs:35 | an entry not in the removed delegate survives `-=`, so a client can never remove the internal exit handler |
| `Timeouts.TimeoutMilliseconds` | src/SJP.Process/StringStreamingProcess.cs:135-136 | the timeout handed on is never negative; it is 0 for a negative TimeSpan, the whole milliseconds of the TimeSpan when in range, and int.MaxValue from there on |
| `Timeouts.TimeoutMillisecondsMonotone` | src/SJP.Process/StringStreamingProcess.cs:143-144 | a longer TimeSpan never yields a shorter millisecond timeout |
| `Timeouts.TimeoutWholeMilliseconds` | src/SJP.Process/StringStreamingProcess.cs:143 | a TimeSpan of a whole, non-negative number of milliseconds is converted back to that number |
| `Timeouts.WaitForExitWithin` | src/SJP.Process/StringStreamingProcess.cs:119-131 | `exited` is exactly the operating system's answer; the exit code is the process's when it exited and 0 otherwise |
| `Timeouts.WaitForExitTimeSpan` | src/SJP.Process/StringStreamingProcess.cs:133-147 | the TimeSpan forms give the millisecond form's result for some timeout in [0, int.MaxValue] |
| `Timeouts.TimeSpanWaitSaturates` | src/SJP.Process/StringStreamingProcess.cs:133-147 | a negative TimeSpan waits 0 ms and a TimeSpan of int.MaxValue ms or more waits int.MaxValue ms |
| `Timeouts.TimeSpanWaitIgnoresNegativeTimeouts` | src/SJP.Process/StringStreamingProcess.cs:141-147 | two operating systems that agree on non-negative timeouts give the same TimeSpan-form result: a negative timeout is never passed on |
| `Timeouts.TimeSpanWaitAgreesWithMilliseconds` | src/SJP.Process/StringStreamingProcess.cs:133-138 | on a whole number of milliseconds, the TimeSpan form and the int form agree |
| `Timeouts.BoundedWaitAgainstRunTime` | src/SJP.Process/StringStreamingProcess.cs:127-131 | against a child that runs for a fixed time, a wait at least that long gives (true, code) and a shorter one gives (false, 0) |
| `Timeouts.SleepingChildWaits` | src/SJP.Process/StringStreamingProcess.cs:141-146 | a child sleeping 2 s and exiting with 3: a 100 ms TimeSpan wait gives (false, 0), a 5000 ms one gives (true, 3) |
| `StreamingProcess.Fanout` | src/SJP.Process/StringStreamingProcess.cs:159 | invoking a line event calls every subscriber, in order, with the line unchanged |
| `StreamingProcess.ExitNotifications` | src/SJP.Process/StringStreamingProcess.cs:151 | invoking the Exited list gives the exit code to client subscribers only, exactly once per subscription |
| `StreamingProcess.ExitNotificationsAppend` | src/SJP.Process/StringStreamingProcess.cs:151 | the calls follow the order of the invocation list: a list's earlier subscribers are called first |
| `StreamingProcess.ClientNotifications` | src/SJP.Process/StringStreamingProcess.cs:33 | the handlers added by `Exited += value` receive the exit code as a line event's subscribers receive a line: each, in order, once |
| `StreamingProcess.SoundWiringDeliversOnce` | src/SJP.Process/StringStreamingProcess.cs:38-68 | with the lazy wiring sound, an event raises each line exactly once per subscriber |
| `StreamingProcess.StringStreamingProcess.constructor` | src/SJP.Process/StringStreamingProcess.cs:16-24 | forces the five start settings on the caller's object and leaves the command alone; enables the Exited event; the internal exit handler is subscribed and OnExitedReceived attached once; nothing started, exited or disposed |
| `StreamingProcess.StringStreamingProcess.Create` | src/SJP.Process/StringStreamingProcess.cs:11-14 | a null start information fails with ArgumentNullException("startInfo"); otherwise a fresh valid handle, not started |
| `StreamingProcess.StringStreamingProcess.AddExited` | src/SJP.Process/StringStreamingProcess.cs:29-34 | appends the value to the Exited list; OnExitedReceived is never attached again; nothing else changes |
| `StreamingProcess.StringStreamingProcess.RemoveExited` | src/SJP.Process/StringStreamingProcess.cs:35 | `-=` on the Exited list; nothing is detached, and the internal handler stays subscribed |
| `StreamingProcess.StringStreamingProcess.AddErrorLineReceived` | src/SJP.Process/StringStreamingProcess.cs:40-45 | appends the value; OnErrorReceived is attached exactly when the list was empty; a non-null value keeps the wiring sound |
| `StreamingProcess.StringStreamingProcess.AddErrorLineReceivedGuarded` | src/SJP.Process/StringStreamingProcess.cs:40-45 | the corrected accessor, which ignores a null value, keeps the wiring sound for every value |
| `StreamingProcess.StringStreamingProcess.RemoveErrorLineReceived` | src/SJP.Process/StringStreamingProcess.cs:46-51 | removes the last occurrence of the value; OnErrorReceived is detached when the list becomes empty; the wiring stays sound |
| `StreamingProcess.StringStreamingProcess.AddOutputLineReceived` | src/SJP.Process/StringStreamingProcess.cs:56-61 | as AddErrorLineReceived, for output lines |
| `StreamingProcess.StringStreamingProcess.AddOutputLineReceivedGuarded` | src/SJP.Process/StringStreamingProcess.cs:56-61 | as AddErrorLineReceivedGuarded, for output lines |
| `StreamingProcess.StringStreamingProcess.RemoveOutputLineReceived` | src/SJP.Process/StringStreamingProcess.cs:62-67 | as RemoveErrorLineReceived, for output lines |
| `StreamingProcess.StringStreamingProcess.CurrentState` | src/SJP.Process/StringStreamingProcess.cs:74-84 | succeeds if and only if the handle has started; otherwise an ArgumentException with the source's message |
| `StreamingProcess.StringStreamingProcess.StandardInput` | src/SJP.Process/StringStreamingProcess.cs:86-95 | succeeds if and only if the handle has started; otherwise an ArgumentException with the source's message, naming "CurrentState" |
| `StreamingProcess.StringStreamingProcess.Start` | src/SJP.Process/StringStreamingProcess.cs:99-111 | the first call launches once, sets HasStarted, begins both line reads and returns true; a later call returns false and changes nothing |
| `StreamingProcess.StringStreamingProcess.OnExitedReceived` | src/SJP.Process/StringStreamingProcess.cs:149-152 | an empty list reads nothing; reading the exit code of a running process throws; otherwise every client gets the code and the internal handler sets HasExited |
| `StreamingProcess.StringStreamingProcess.OnErrorReceived` | src/SJP.Process/StringStreamingProcess.cs:154-160 | null event args throw ArgumentNullException("args") and change nothing; otherwise the line (null included) goes unchanged to every error subscriber |
| `StreamingProcess.StringStreamingProcess.OnOutputReceived` | src/SJP.Process/StringStreamingProcess.cs:162-168 | as OnErrorReceived, for output subscribers |
| `StreamingProcess.StringStreamingProcess.OsProcessExits` | src/SJP.Process/StringStreamingProcess.cs:24 | when a started process exits, HasExited becomes true and every client Exited subscriber gets the code once; a second report, or one for an unstarted process, changes nothing |
| `StreamingProcess.StringStreamingProcess.OsErrorLine` | src/SJP.Process/StringStreamingProcess.cs:42-43 | after Start, an error line reaches the subscribers once per attached OnErrorReceived; with sound wiring, exactly once |
| `StreamingProcess.StringStreamingProcess.OsOutputLine` | src/SJP.Process/StringStreamingProcess.cs:58-59 | as OsErrorLine, for output lines |
| `StreamingProcess.StringStreamingProcess.Dispose` | src/SJP.Process/StringStreamingProcess.cs:170 | releases the process on the first call only; HasStarted and HasExited are untouched; a second call changes nothing |
| `StreamingProcess.StringStreamingProcess.DisposeWith` | src/SJP.Process/StringStreamingProcess.cs:172-182 | `Dispose(false)` and any call after disposal change nothing; otherwise one release and the disposed flag |
| `Scenarios.StartTwice` | src/SJP.Process/StringStreamingProcess.cs:101-105 | starting twice: true then false, and exactly one launch |
| `Scenarios.QueriesBeforeStart` | src/SJP.Process/StringStreamingProcess.cs:78-91 | before Start, CurrentState and StandardInput both fail with their ArgumentException |
| `Scenarios.EchoLines` | src/SJP.Process/StringStreamingProcess.cs:54-68 | a program printing two lines: the subscriber receives "line1", "line2", then the null end of stream, in order |
| `Scenarios.ExitNotifiesOnce` | src/SJP.Process/StringStreamingProcess.cs:27-36 | on exit with 0, the Exited subscriber receives 0 once and HasExited is true, even after a second exit report |
| `Scenarios.DisposeTwice` | src/SJP.Process/StringStreamingProcess.cs:174-181 | disposing twice releases once and keeps HasStarted and HasExited |
| `Scenarios.NullSubscriptionDeliversTwice` | src/SJP.Process/StringStreamingProcess.cs:42-44 | as written: subscribing null and then h makes one error line reach h twice |
| `Scenarios.GuardedSubscriptionDeliversOnce` | src/SJP.Process/StringStreamingProcess.cs:42-44 | corrected: the same calls deliver the line to h exactly once |

## Left out

- `Kill` (line 97) passes straight through to `Process.Kill`. Its only effect the handle sees is the exit notification, which is `OsProcessExits`.
- The blocking `WaitForExit()` (lines 113-117) passes straight through: it blocks in the operating system and returns `Process.ExitCode`.
- `HasExited` and `HasStarted` (lines 70-72) only return the fields `hasExited` and `hasStarted`.
- What `CurrentState` returns: `ProcessAdapter` and `ProcessState` are not part of this model, and the snapshot is an opaque value.
- The operating system itself is not modelled: launching and its failures, `Start` on a released process, pipe I/O, and notifications after `Dispose`. Launch always succeeds, and notifications are modelled the same before and after disposal.
- A caller may change the start information after construction, and the process object shares it. The model records the forced settings but does not model a launch reading them.
- Threads: the process delivers notifications on background threads, and subscriber code runs there. The model runs deliveries as sequential method calls, so it says nothing about races or about ordering between streams.
- Subscriber behaviour, including exceptions a subscriber throws, is not modelled. Only the calls a subscriber receives are recorded.
- Timeouts.TimeoutMilliseconds: it works on the TimeSpan's tick count with integer division, not on the double `TotalMilliseconds` and the `Clamp` extension, which is not part of this model. For tick counts in the int range the double quotient truncates to the same integer.
- `WaitForExitWithin` passes a negative millisecond timeout straight to the operating system, and the model leaves the answer to the `osWait` parameter.
- `Timeouts.ChildExitingAfter` is one sample operating system, used for the timing properties. How a real operating system times a wait is not modelled.
- src/SJP.ProcessRedux/IObservableTextStreamingProcess.cs declares two properties and contains no logic.

## Findings

| source | as written | input that shows it | evidently intended | confidence | as-written member | corrected member |
|---|---|---|---|---|---|---|
| src/SJP.Process/StringStreamingProcess.cs:40-45 | attaches OnErrorReceived whenever `_errorHandler` is null before the addition, also when the added value is null and the list stays null | `ErrorLineReceived += null; ErrorLineReceived += h;` then one error line: `h` is called twice, because OnErrorReceived is attached twice | attach the callback only when the subscriber list becomes non-empty, so that each line reaches each subscriber once | high; not executed | `Scenarios.NullSubscriptionDeliversTwice` | `StreamingProcess.StringStreamingProcess.AddErrorLineReceivedGuarded` |

The output accessor (lines 56-61) has the same defect.
`AddOutputLineReceivedGuarded` is its corrected form.
