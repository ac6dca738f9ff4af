/** The timed forms of WaitForExit: projecting the operating system's answer
    onto an (exited, exitCode) pair, and turning a TimeSpan timeout into the
    millisecond count handed to the operating system. */
module Timeouts {
  import opened Base

  /** TimeSpan counts time in ticks of 100 nanoseconds. */
  const TicksPerMillisecond := 10000

  /** `timeout.TotalMilliseconds.Clamp(0, int.MaxValue)` followed by the cast
      to `int`. A TimeSpan is its tick count; the cast truncates, so the
      result is the number of whole milliseconds in the timeout, saturated at
      0 below and at int.MaxValue above. */
  function TimeoutMilliseconds(timeout: int64): (ms: int32)
    ensures 0 <= ms
    ensures timeout < 0 ==> ms == 0
    ensures 0 <= timeout as int < (Int32MaxValue as int + 1) * TicksPerMillisecond ==>
              ms as int * TicksPerMillisecond <= timeout as int < (ms as int + 1) * TicksPerMillisecond
    ensures Int32MaxValue as int * TicksPerMillisecond <= timeout as int ==> ms == Int32MaxValue
  {
    if timeout < 0 then 0
    else if timeout as int / TicksPerMillisecond >= Int32MaxValue as int then Int32MaxValue
    else (timeout as int / TicksPerMillisecond) as int32
  }

  /** A longer timeout never turns into a shorter wait. */
  lemma TimeoutMillisecondsMonotone(a: int64, b: int64)
    requires a <= b
    ensures TimeoutMilliseconds(a) <= TimeoutMilliseconds(b)
  {
    if 0 <= a {
      assert a as int / TicksPerMillisecond <= b as int / TicksPerMillisecond;
    }
  }

  /** TimeSpan.FromMilliseconds(ms) is clamped back to `ms`. */
  lemma TimeoutWholeMilliseconds(ms: int32)
    requires 0 <= ms
    ensures ms as int * TicksPerMillisecond < 0x8000_0000_0000_0000
    ensures TimeoutMilliseconds((ms as int * TicksPerMillisecond) as int64) == ms
  {
    var t := ms as int * TicksPerMillisecond;
    assert t / TicksPerMillisecond == ms as int;
  }

  /** The result of a bounded wait. */
  datatype WaitResult = WaitResult(exited: bool, exitCode: int32)

  /** WaitForExit(int milliseconds, out int exitCode) and
      WaitForExit(int milliseconds): the two forms give the same pair.
      `osWait(ms)` is what Process.WaitForExit(ms) and Process.ExitCode tell:
      `None` when the process was still running when the wait ended,
      `Some(code)` when it had exited with `code`. The exit code is reported
      only for a process that exited; otherwise the result carries 0. */
  function WaitForExitWithin(osWait: int32 -> Option<int32>, milliseconds: int32): (r: WaitResult)
    ensures r.exited <==> osWait(milliseconds).Some?
    ensures r.exited ==> osWait(milliseconds) == Some(r.exitCode)
    ensures !r.exited ==> r.exitCode == 0
  {
    match osWait(milliseconds)
    case None => WaitResult(false, 0)
    case Some(code) => WaitResult(true, code)
  }

  /** WaitForExit(TimeSpan timeout, out int exitCode) and
      WaitForExit(TimeSpan timeout): the timeout is clamped first, so the
      operating system is only ever asked to wait a non-negative number of
      milliseconds that fits in an int. */
  function WaitForExitTimeSpan(osWait: int32 -> Option<int32>, timeout: int64): (r: WaitResult)
    ensures exists ms: int32 :: 0 <= ms && r == WaitForExitWithin(osWait, ms)
  {
    var ms := TimeoutMilliseconds(timeout);
    WaitForExitWithin(osWait, ms)
  }

  /** A negative TimeSpan waits 0 ms, and one of int.MaxValue milliseconds
      or more waits int.MaxValue ms. */
  lemma TimeSpanWaitSaturates(osWait: int32 -> Option<int32>, timeout: int64)
    ensures timeout < 0 ==> WaitForExitTimeSpan(osWait, timeout) == WaitForExitWithin(osWait, 0)
    ensures Int32MaxValue as int * TicksPerMillisecond <= timeout as int ==>
              WaitForExitTimeSpan(osWait, timeout) == WaitForExitWithin(osWait, Int32MaxValue)
  {
  }

  /** How the operating system behaves for negative timeouts never matters to
      the TimeSpan forms. */
  lemma TimeSpanWaitIgnoresNegativeTimeouts(w1: int32 -> Option<int32>, w2: int32 -> Option<int32>, timeout: int64)
    requires forall ms: int32 :: 0 <= ms ==> w1(ms) == w2(ms)
    ensures WaitForExitTimeSpan(w1, timeout) == WaitForExitTimeSpan(w2, timeout)
  {
    var ms := TimeoutMilliseconds(timeout);
    assert w1(ms) == w2(ms);
  }

  /** The TimeSpan form on a whole number of milliseconds agrees with the
      millisecond form. */
  lemma TimeSpanWaitAgreesWithMilliseconds(osWait: int32 -> Option<int32>, ms: int32)
    requires 0 <= ms
    ensures ms as int * TicksPerMillisecond < 0x8000_0000_0000_0000
    ensures WaitForExitTimeSpan(osWait, (ms as int * TicksPerMillisecond) as int64) == WaitForExitWithin(osWait, ms)
  {
    TimeoutWholeMilliseconds(ms);
  }

  /** An operating system whose child runs for `runTime` milliseconds and then
      exits with `code`, as seen by waits with a non-negative timeout. */
  function ChildExitingAfter(runTime: nat, code: int32): int32 -> Option<int32>
  {
    (ms: int32) => if 0 <= ms && runTime <= ms as int then Some(code) else None
  }

  /** A wait at least as long as the child's run time reports its exit code;
      a shorter one reports (false, 0). */
  lemma BoundedWaitAgainstRunTime(runTime: nat, code: int32, ms: int32)
    requires 0 <= ms
    ensures runTime <= ms as int ==> WaitForExitWithin(ChildExitingAfter(runTime, code), ms) == WaitResult(true, code)
    ensures ms as int < runTime ==> WaitForExitWithin(ChildExitingAfter(runTime, code), ms) == WaitResult(false, 0)
  {
  }

  /** A child that sleeps two seconds and exits with 3: a 100 ms wait gives
      (false, 0), a 5000 ms wait gives (true, 3). */
  lemma SleepingChildWaits()
    ensures WaitForExitTimeSpan(ChildExitingAfter(2000, 3), 100 * TicksPerMillisecond as int64) == WaitResult(false, 0)
    ensures WaitForExitTimeSpan(ChildExitingAfter(2000, 3), 5000 * TicksPerMillisecond as int64) == WaitResult(true, 3)
  {
    TimeoutWholeMilliseconds(100);
    TimeoutWholeMilliseconds(5000);
  }
}
