/** Exponential backoff: after the k-th consecutive failure (k from 0) the script sleeps
    2^k seconds and bumps its failure counter; it gives up when the counter reaches the
    configured ceiling. The listing call is wrapped in this loop directly. */
module Backoff {
  import opened Remote

  /** 2^k, the sleep in seconds after the k-th consecutive failure. */
  function Pow2(k: nat): (r: nat)
    ensures r >= 1
  {
    if k == 0 then 1 else 2 * Pow2(k - 1)
  }

  /** The sleeps requested by n consecutive failures, in order: [2^0, 2^1, ..., 2^(n-1)]. */
  function Schedule(n: nat): (r: seq<nat>)
    ensures |r| == n
  {
    if n == 0 then [] else Schedule(n - 1) + [Pow2(n - 1)]
  }

  lemma {:induction false} ScheduleAt(n: nat, k: nat)
    requires k < n
    ensures Schedule(n)[k] == Pow2(k)
  {
    if k < n - 1 {
      ScheduleAt(n - 1, k);
    }
  }

  /** One more failure appends its sleep, 2^n, to the schedule. */
  lemma ScheduleGrows(n: nat)
    ensures Schedule(n + 1) == Schedule(n) + [Pow2(n)]
  {
  }

  lemma {:induction false} ScheduleDoubles(n: nat, k: nat)
    requires 0 < k < n
    ensures Schedule(n)[k] == 2 * Schedule(n)[k - 1]
  {
    ScheduleAt(n, k);
    ScheduleAt(n, k - 1);
  }

  lemma FirstFiveSleeps()
    ensures Schedule(5) == [1, 2, 4, 8, 16]
  {
  }

  /** The listing the retry loop ends with when attempts k, k+1, ... are answered by call:
      the first successful answer before the ceiling, or None once the ceiling is reached. */
  function FirstListed(call: nat -> ListResponse, backoff: nat, k: nat): Option<seq<LogFile>>
    decreases backoff - k
  {
    if k >= backoff then None
    else if call(k).Listed? then Some(call(k).files)
    else FirstListed(call, backoff, k + 1)
  }

  lemma {:induction false} FirstListedIsFirst(call: nat -> ListResponse, backoff: nat, k: nat, j: nat)
    requires k <= j < backoff
    requires call(j).Listed?
    requires forall i :: k <= i < j ==> call(i).ListFailure?
    ensures FirstListed(call, backoff, k) == Some(call(j).files)
    decreases j - k
  {
    if k < j {
      FirstListedIsFirst(call, backoff, k + 1, j);
    }
  }

  lemma {:induction false} FirstListedNone(call: nat -> ListResponse, backoff: nat, k: nat)
    requires forall i :: k <= i < backoff ==> call(i).ListFailure?
    ensures FirstListed(call, backoff, k) == None
    decreases backoff - k
  {
    if k < backoff {
      FirstListedNone(call, backoff, k + 1);
    }
  }

  /** The retry loop around describe_db_log_files. call(k) is the service's answer to the
      k-th attempt; sleeps records the durations passed to time.sleep. */
  method ListLogFiles(backoff: nat, call: nat -> ListResponse)
    returns (files: Option<seq<LogFile>>, sleepcount: nat, ghost sleeps: seq<nat>)
    ensures sleepcount <= backoff
    ensures forall k :: 0 <= k < sleepcount ==> call(k).ListFailure?
    ensures files.Some? <==> sleepcount < backoff
    ensures files.Some? ==> call(sleepcount) == Listed(files.value)
    ensures files == FirstListed(call, backoff, 0)
    ensures sleeps == Schedule(sleepcount)
  {
    sleepcount, sleeps := 0, [];
    files := None;
    while sleepcount < backoff
      invariant sleepcount <= backoff
      invariant forall k :: 0 <= k < sleepcount ==> call(k).ListFailure?
      invariant sleeps == Schedule(sleepcount)
      invariant files == None
    {
      var response := call(sleepcount);
      if response.Listed? {
        files := Some(response.files);
        break;
      }
      var sleeptime := Pow2(sleepcount);
      sleeps := sleeps + [sleeptime];
      sleepcount := sleepcount + 1;
    }
    if files.Some? {
      FirstListedIsFirst(call, backoff, 0, sleepcount);
    } else {
      FirstListedNone(call, backoff, 0);
    }
  }

  /** A listing that fails exactly n times and then succeeds is used when n < backoff,
      and is never reached when n >= backoff. */
  lemma {:induction false} SucceedsAfterFailures(call: nat -> ListResponse, backoff: nat, n: nat)
    requires forall i :: 0 <= i < n ==> call(i).ListFailure?
    requires call(n).Listed?
    ensures n < backoff ==> FirstListed(call, backoff, 0) == Some(call(n).files)
    ensures n >= backoff ==> FirstListed(call, backoff, 0) == None
  {
    if n < backoff {
      FirstListedIsFirst(call, backoff, 0, n);
    } else {
      FirstListedNone(call, backoff, 0);
    }
  }
}
