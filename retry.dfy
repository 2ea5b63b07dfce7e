/**
 * The retry engine (`execJob`): up to `execTimes` calls of the handler,
 * stopping at the first success, with a linear backoff of `i` minutes before
 * retry `i`. The handler is given as the outcome of each 0-based attempt;
 * sleeping is only recorded.
 */
module Retry {
  import opened Wrappers
  import opened TaskModel

  /**
   * The loop bound as the source computes it: `1`, plus `RetryTimes` when
   * positive, in `int8` arithmetic (so 1 + 127 wraps to -128).
   */
  function ExecTimes(retryTimes: int8): (n: int8)
    ensures retryTimes <= 0 ==> n == 1
    ensures 0 < retryTimes < 127 ==> n as int == 1 + retryTimes as int
    ensures retryTimes == 127 ==> n == -128
  {
    if retryTimes > 0 then Wrap8(1 + retryTimes as int) else 1
  }

  /** Every configured value short of 127 gives `1 + max(0, RetryTimes)` attempts. */
  lemma ExecTimesIsOnePlusRetries(retryTimes: int8)
    requires retryTimes < 127
    ensures ExecTimes(retryTimes) as int == 1 + (if retryTimes > 0 then retryTimes as int else 0)
  {
  }

  /** The result of a retry series together with the number of handler calls it made. */
  datatype Run = Run(result: TaskResult, calls: nat)

  /** Attempts `i`, `i + 1`, ... below `n`, the first of them at `i`. */
  function RunFrom(retryTimes: int8, n: int, attempt: nat -> Outcome, i: nat): (run: Run)
    requires i < n <= 127
    ensures i < run.calls <= n
    decreases n - i
  {
    var o := attempt(i);
    if o.err.None? then Run(TaskResult(o.output, None, i as int8), i + 1)
    else if i + 1 < n then RunFrom(retryTimes, n, attempt, i + 1)
    else Run(TaskResult(o.output, o.err, retryTimes), i + 1)
  }

  /** What `execJob` computes, as a function of the configured retries and the attempts' outcomes. */
  function RetrySeries(retryTimes: int8, attempt: nat -> Outcome): (run: Run)
    ensures ExecTimes(retryTimes) <= 0 ==> run == Run(TaskResult("", None, retryTimes), 0)
    ensures ExecTimes(retryTimes) > 0 ==> 0 < run.calls <= ExecTimes(retryTimes) as int
  {
    var n := ExecTimes(retryTimes) as int;
    if n <= 0 then Run(TaskResult("", None, retryTimes), 0)
    else RunFrom(retryTimes, n, attempt, 0)
  }

  /** `[1, 2, ..., f]`: the minutes slept before retries 1 to f. */
  function Backoff(f: nat): seq<int>
  {
    if f == 0 then [] else Backoff(f - 1) + [f]
  }

  lemma {:induction false} BackoffIsLinear(f: nat)
    ensures |Backoff(f)| == f
    ensures forall j :: 0 <= j < f ==> Backoff(f)[j] == j + 1
  {
    if f > 0 {
      BackoffIsLinear(f - 1);
    }
  }

  /** `execJob`, with the sleeps it performs recorded and the handler calls counted. */
  method ExecJob(retryTimes: int8, attempt: nat -> Outcome)
    returns (r: TaskResult, ghost sleeps: seq<int>, ghost calls: nat)
    ensures r == RetrySeries(retryTimes, attempt).result
    ensures calls == RetrySeries(retryTimes, attempt).calls
    ensures sleeps == Backoff(if calls == 0 then 0 else calls - 1)
    // one sleep of j + 1 minutes before retry j + 1; none before the first attempt or after the last
    ensures |sleeps| == (if calls == 0 then 0 else calls - 1)
    ensures forall j :: 0 <= j < |sleeps| ==> sleeps[j] == j + 1
  {
    var execTimes: int8 := 1;
    if retryTimes > 0 {
      execTimes := Wrap8(execTimes as int + retryTimes as int);
    }
    var i: int8 := 0;
    var output: string := "";
    var err: Option<Error> := None;
    sleeps, calls := [], 0;
    while i < execTimes
      invariant 0 <= i as int
      invariant execTimes > 0 ==> i <= execTimes
      invariant execTimes == ExecTimes(retryTimes)
      invariant execTimes <= 0 ==> i == 0 && output == "" && err == None && sleeps == []
      invariant calls == i as int
      invariant i < execTimes ==> RunFrom(retryTimes, execTimes as int, attempt, i as nat) == RetrySeries(retryTimes, attempt)
      invariant i < execTimes ==> sleeps == Backoff(i as nat)
      invariant 0 < i == execTimes ==> sleeps == Backoff(i as nat - 1)
      invariant 0 < i == execTimes ==>
        RetrySeries(retryTimes, attempt) == Run(TaskResult(output, err, retryTimes), i as nat)
      decreases execTimes as int - i as int
    {
      var o := attempt(i as nat);
      output, err := o.output, o.err;
      calls := calls + 1;
      if err == None {
        BackoffIsLinear(i as nat);
        return TaskResult(output, err, i), sleeps, calls;
      }
      i := i + 1;
      if i < execTimes {
        sleeps := sleeps + [i as int];
      }
    }
    r := TaskResult(output, err, retryTimes);
    BackoffIsLinear(if calls == 0 then 0 else calls - 1);
  }

  /** The shape of every run from attempt `i`: which attempts failed and what is returned. */
  lemma {:induction false} RunFromShape(retryTimes: int8, n: int, attempt: nat -> Outcome, i: nat)
    requires i < n <= 127
    ensures var run := RunFrom(retryTimes, n, attempt, i);
            && i < run.calls <= n
            && (forall j :: i <= j < run.calls - 1 ==> attempt(j).err.Some?)
            && (run.result.err.None? ==>
                  && attempt(run.calls - 1).err.None?
                  && run.result == TaskResult(attempt(run.calls - 1).output, None, (run.calls - 1) as int8))
            && (run.result.err.Some? ==>
                  && run.calls == n
                  && run.result == TaskResult(attempt(n - 1).output, attempt(n - 1).err, retryTimes))
    decreases n - i
  {
    if attempt(i).err.Some? && i + 1 < n {
      RunFromShape(retryTimes, n, attempt, i + 1);
    }
  }

  /**
   * Calls are bounded by the attempt budget, and every call but the last one failed:
   * no call follows a success.
   */
  lemma CallsBounded(retryTimes: int8, attempt: nat -> Outcome)
    ensures var run := RetrySeries(retryTimes, attempt);
            && run.calls <= (if ExecTimes(retryTimes) > 0 then ExecTimes(retryTimes) as int else 0)
            && (forall j :: 0 <= j < run.calls - 1 ==> attempt(j).err.Some?)
  {
    if ExecTimes(retryTimes) > 0 {
      RunFromShape(retryTimes, ExecTimes(retryTimes) as int, attempt, 0);
    }
  }

  /**
   * A successful result reports the number of failures before it: the call
   * at 0-based attempt `RetryTimes` succeeded and gave the output.
   */
  lemma SuccessCountsPriorFailures(retryTimes: int8, attempt: nat -> Outcome)
    requires retryTimes < 127
    requires RetrySeries(retryTimes, attempt).result.err.None?
    ensures var run := RetrySeries(retryTimes, attempt);
            && run.calls == run.result.retryTimes as int + 1
            && attempt(run.calls - 1) == Outcome(run.result.result, None)
            && (forall j :: 0 <= j < run.calls - 1 ==> attempt(j).err.Some?)
  {
    RunFromShape(retryTimes, ExecTimes(retryTimes) as int, attempt, 0);
  }

  /** Attempts 0..k-1 fail and attempt k succeeds, within the budget: k retries are reported. */
  lemma SuccessAt(retryTimes: int8, attempt: nat -> Outcome, k: nat)
    requires retryTimes < 127
    requires k < ExecTimes(retryTimes) as int
    requires forall j :: 0 <= j < k ==> attempt(j).err.Some?
    requires attempt(k).err.None?
    ensures RetrySeries(retryTimes, attempt) == Run(TaskResult(attempt(k).output, None, k as int8), k + 1)
  {
    var n := ExecTimes(retryTimes) as int;
    RunFromShape(retryTimes, n, attempt, 0);
  }

  /**
   * Every attempt fails: all of them are made, and the result carries the last
   * output and error and the configured `RetryTimes`, not the loop counter.
   */
  lemma Exhaustion(retryTimes: int8, attempt: nat -> Outcome)
    requires retryTimes < 127
    requires forall j :: 0 <= j < ExecTimes(retryTimes) as int ==> attempt(j).err.Some?
    ensures var n := ExecTimes(retryTimes) as int;
            RetrySeries(retryTimes, attempt)
              == Run(TaskResult(attempt(n - 1).output, attempt(n - 1).err, retryTimes), n)
  {
    var n := ExecTimes(retryTimes) as int;
    RunFromShape(retryTimes, n, attempt, 0);
  }

  /**
   * With `RetryTimes` = 127 the int8 loop bound wraps to -128: the handler is
   * never called and the result has no error.
   */
  lemma MaxRetriesNeverRuns(attempt: nat -> Outcome)
    ensures RetrySeries(127, attempt) == Run(TaskResult("", None, 127), 0)
  {
  }
}
