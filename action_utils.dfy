/** The bounded-retry executor behind every page action.

    The closure handed to the executor is described by an oracle `exec`:
    `exec(n)` is how its `n`-th invocation (counting from 0) completes. */
module ActionUtils {
  import opened Effects

  /** The executor makes at most this many attempts; the number is fixed in the code. */
  const MaxAttempts: nat := 3

  /** What one call of the executor did: how it completed, how many times it
      invoked the closure, and the records it emitted, in order. */
  datatype Run<T> = Run(result: Outcome<T>, calls: nat, trace: seq<Record>)

  /** An attempt that the executor's `catch (Exception e)` absorbs. */
  predicate Caught<T>(o: Outcome<T>) {
    o.Throws? && IsException(o.thrown)
  }

  /** The terminal records of a successful call: an info line, then a report step. */
  function SuccessRecords(cls: string, successMsg: string): seq<Record> {
    [LogInfo(cls, successMsg), ReportStep(successMsg)]
  }

  /** The terminal records of an exhausted call: an error line with the last cause, then a report step. */
  function FailureRecords(cls: string, errorMsg: string, cause: Throwable): seq<Record> {
    [LogError(cls, errorMsg, cause), ReportStep(errorMsg)]
  }

  /** The loop of `executeWithRetry` from the iteration in which `attempts`
      exceptions have already been caught. */
  function RetryFrom<T>(cls: string, exec: nat -> Outcome<T>, successMsg: string, errorMsg: string,
                        attempts: nat): (run: Run<T>)
    requires attempts < MaxAttempts
    ensures attempts < run.calls <= MaxAttempts
    decreases MaxAttempts - attempts
  {
    match exec(attempts)
    case Returns(v) => Run(Returns(v), attempts + 1, SuccessRecords(cls, successMsg))
    case Throws(t) =>
      if !IsException(t) then
        Run(Throws(t), attempts + 1, [])
      else if attempts + 1 >= MaxAttempts then
        Run(Throws(RuntimeException(errorMsg, t)), attempts + 1, FailureRecords(cls, errorMsg, t))
      else
        RetryFrom(cls, exec, successMsg, errorMsg, attempts + 1)
  }

  /** A whole call of `executeWithRetry`. */
  function Retry<T>(cls: string, exec: nat -> Outcome<T>, successMsg: string, errorMsg: string): Run<T> {
    RetryFrom(cls, exec, successMsg, errorMsg, 0)
  }

  /** `executeWithRetry`: invoke the closure until it returns, until it throws
      something that is not an Exception, or until the third caught Exception.
      `cls` names the logger; `isVoid` is accepted and not used, as in the code. */
  method ExecuteWithRetry<T>(cls: string, exec: nat -> Outcome<T>, successMsg: string, errorMsg: string,
                             isVoid: bool)
    returns (r: Outcome<T>, calls: nat, trace: seq<Record>)
    ensures Run(r, calls, trace) == Retry(cls, exec, successMsg, errorMsg)
  {
    var attempts: nat := 0;
    var maxAttempts := MaxAttempts;
    trace := [];
    while true
      invariant attempts < maxAttempts == MaxAttempts
      invariant trace == []
      invariant RetryFrom(cls, exec, successMsg, errorMsg, attempts) == Retry(cls, exec, successMsg, errorMsg)
      decreases maxAttempts - attempts
    {
      calls := attempts + 1;
      var outcome := exec(attempts);
      match outcome {
        case Returns(result) =>
          trace := trace + [LogInfo(cls, successMsg)];
          trace := trace + [ReportStep(successMsg)];
          r := Returns(result);
          return;
        case Throws(e) =>
          if !IsException(e) {
            // not caught by `catch (Exception e)`: it leaves the loop unrecorded
            r := Throws(e);
            return;
          }
          attempts := attempts + 1;
          if attempts >= maxAttempts {
            trace := trace + [LogError(cls, errorMsg, e)];
            trace := trace + [ReportStep(errorMsg)];
            r := Throws(RuntimeException(errorMsg, e));
            return;
          }
      }
    }
  }

  /** The supplier that `execVoidFunction` builds around a runnable: it runs
      the runnable and returns null. */
  function NullReturning(run: nat -> Outcome<()>): nat -> Outcome<Option<()>> {
    (n: nat) => match run(n)
         case Returns(_) => Returns(None)
         case Throws(t) => Throws(t)
  }

  /** `execVoidFunction`: retry a runnable. */
  method ExecVoidFunction(cls: string, exec: nat -> Outcome<()>, successMsg: string, errorMsg: string)
    returns (r: Outcome<()>, calls: nat, trace: seq<Record>)
    ensures Run(r, calls, trace) == Retry(cls, exec, successMsg, errorMsg)
  {
    var result;
    result, calls, trace := ExecuteWithRetry(cls, NullReturning(exec), successMsg, errorMsg, true);
    NullReturningRun(cls, exec, successMsg, errorMsg);
    r := match result
         case Returns(_) => Returns(())
         case Throws(t) => Throws(t);
    ghost var plain := Retry(cls, exec, successMsg, errorMsg);
    if result.Returns? {
      // the runnable's own result is the unit value, which is ()
      ghost var u: () := plain.result.value;
      match u { case () => }
    }
  }

  /** `execStringFunction`: retry a supplier of a (possibly null) string. */
  method ExecStringFunction(cls: string, exec: nat -> Outcome<Option<string>>, successMsg: string, errorMsg: string)
    returns (r: Outcome<Option<string>>, calls: nat, trace: seq<Record>)
    ensures 1 <= calls <= MaxAttempts
    ensures Run(r, calls, trace) == Retry(cls, exec, successMsg, errorMsg)
  {
    r, calls, trace := ExecuteWithRetry(cls, exec, successMsg, errorMsg, false);
  }

  /** `execBooleanFunction`: retry a supplier of a (possibly null) Boolean; the
      answer is true only for a returned `TRUE`. */
  method ExecBooleanFunction(cls: string, exec: nat -> Outcome<Option<bool>>, successMsg: string, errorMsg: string)
    returns (r: Outcome<bool>, calls: nat, trace: seq<Record>)
    ensures var run := Retry(cls, exec, successMsg, errorMsg);
      calls == run.calls && trace == run.trace &&
      (r.Returns? <==> run.result.Returns?) &&
      (r.Returns? ==> (r.value <==> run.result.value == Some(true))) &&
      (r.Throws? ==> r.thrown == run.result.thrown)
  {
    var result;
    result, calls, trace := ExecuteWithRetry(cls, exec, successMsg, errorMsg, false);
    r := match result
         case Returns(b) => Returns(b == Some(true))
         case Throws(t) => Throws(t);
  }

  /** Wrapping a runnable in a null-returning supplier changes neither the
      number of invocations, nor the records, nor how the call ends. */
  lemma NullReturningRun(cls: string, exec: nat -> Outcome<()>, successMsg: string, errorMsg: string)
    ensures var lifted := Retry(cls, NullReturning(exec), successMsg, errorMsg);
      var plain := Retry(cls, exec, successMsg, errorMsg);
      lifted.calls == plain.calls && lifted.trace == plain.trace &&
      lifted.result.Returns? == plain.result.Returns? &&
      (lifted.result.Returns? ==> lifted.result.value == None) &&
      (lifted.result.Throws? ==> lifted.result.thrown == plain.result.thrown)
  {
  }

  /** If the first `k - 1` attempts throw Exceptions and attempt `k` returns
      `v`, the call returns `v` after exactly `k` invocations and emits only
      the success records. */
  lemma RetrySucceedsAt<T>(cls: string, exec: nat -> Outcome<T>, successMsg: string, errorMsg: string,
                           k: nat, v: T)
    requires 1 <= k <= MaxAttempts
    requires forall i :: 0 <= i < k - 1 ==> Caught(exec(i))
    requires exec(k - 1) == Returns(v)
    ensures Retry(cls, exec, successMsg, errorMsg) == Run(Returns(v), k, SuccessRecords(cls, successMsg))
  {
  }

  /** If all three attempts throw Exceptions, the call throws a
      RuntimeException carrying `errorMsg` and the third attempt's exception,
      after exactly three invocations, and emits only the failure records. */
  lemma RetryExhausted<T>(cls: string, exec: nat -> Outcome<T>, successMsg: string, errorMsg: string)
    requires forall i :: 0 <= i < MaxAttempts ==> Caught(exec(i))
    ensures Caught(exec(MaxAttempts - 1))
    ensures var last := exec(MaxAttempts - 1).thrown;
      Retry(cls, exec, successMsg, errorMsg)
        == Run(Throws(RuntimeException(errorMsg, last)), MaxAttempts, FailureRecords(cls, errorMsg, last))
  {
  }

  /** A Throwable that is not an Exception, raised by attempt `k + 1` after `k`
      caught Exceptions, leaves the call as it is: no further attempt and no
      record. */
  lemma RetryErrorPropagates<T>(cls: string, exec: nat -> Outcome<T>, successMsg: string, errorMsg: string,
                                k: nat)
    requires k < MaxAttempts
    requires forall i :: 0 <= i < k ==> Caught(exec(i))
    requires exec(k).Throws? && !IsException(exec(k).thrown)
    ensures Retry(cls, exec, successMsg, errorMsg) == Run(exec(k), k + 1, [])
  {
  }

  /** Every call ends in exactly one of three ways, every attempt before the
      last threw a caught Exception, and the trace is exactly one terminal
      record pair (or nothing, for an uncaught Error). */
  lemma RetryTerminal<T>(cls: string, exec: nat -> Outcome<T>, successMsg: string, errorMsg: string)
    ensures var run := Retry(cls, exec, successMsg, errorMsg);
      1 <= run.calls <= MaxAttempts &&
      (forall i :: 0 <= i < run.calls - 1 ==> Caught(exec(i))) &&
      (run.result.Returns? ==>
         exec(run.calls - 1) == run.result && run.trace == SuccessRecords(cls, successMsg)) &&
      (run.result.Throws? && IsException(run.result.thrown) ==>
         run.calls == MaxAttempts && Caught(exec(MaxAttempts - 1)) &&
         run.result.thrown == RuntimeException(errorMsg, exec(MaxAttempts - 1).thrown) &&
         run.trace == FailureRecords(cls, errorMsg, exec(MaxAttempts - 1).thrown)) &&
      (run.result.Throws? && !IsException(run.result.thrown) ==>
         exec(run.calls - 1) == run.result && run.trace == [])
  {
  }

  /** Two Exceptions followed by "OK" yield "OK", three invocations and one
      success record pair. */
  lemma StaleTwiceThenOk(cls: string, successMsg: string, errorMsg: string, stale: Throwable)
    requires IsException(stale)
    ensures var exec: nat -> Outcome<Option<string>> := n => if n < 2 then Throws(stale) else Returns(Some("OK"));
      Retry(cls, exec, successMsg, errorMsg) == Run(Returns(Some("OK")), 3, SuccessRecords(cls, successMsg))
  {
  }
}
