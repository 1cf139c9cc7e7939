/** The base class of every migrated resource (cloudferrylib/base/resource.py):
    status polling with a doubling delay, its non-raising variant, and the
    deep copy that hands back the same object.

    The status getter is a function from the number of earlier calls to the
    status it reports; `time.sleep` is recorded as the list of delays slept. */
module Resource {
  import opened Common

  /** The default timeout of `wait_for_status`. */
  const DEFAULT_TIMEOUT: int := 60

  function Pow2(n: nat): (r: nat)
    ensures r >= 1
  {
    if n == 0 then 1 else 2 * Pow2(n - 1)
  }

  /** The delays at which the loop checks the status, starting from `delay`:
      each is twice the one before, and all are below `timeout`. */
  function Schedule(delay: nat, timeout: int): (ds: seq<nat>)
    requires delay >= 1
    decreases if timeout > delay then timeout - delay else 0
  {
    if delay < timeout then [delay] + Schedule(2 * delay, timeout) else []
  }

  /** The checks happen at delays 1, 2, 4, ...: the i-th is 2^i, every one is
      below the timeout and the next power of two is not. */
  lemma {:induction false} ScheduleDoubles(delay: nat, timeout: int, i: nat)
    requires delay >= 1
    requires i < |Schedule(delay, timeout)|
    ensures Schedule(delay, timeout)[i] == delay * Pow2(i)
    ensures Schedule(delay, timeout)[i] < timeout
    decreases i
  {
    if i > 0 {
      ScheduleDoubles(2 * delay, timeout, i - 1);
      assert delay * Pow2(i) == 2 * delay * Pow2(i - 1);
    }
  }

  lemma {:induction false} ScheduleEnds(delay: nat, timeout: int)
    requires delay >= 1
    ensures delay * Pow2(|Schedule(delay, timeout)|) >= timeout
    decreases if timeout > delay then timeout - delay else 0
  {
    if delay < timeout {
      ScheduleEnds(2 * delay, timeout);
      var n := |Schedule(2 * delay, timeout)|;
      assert delay * Pow2(n + 1) == 2 * delay * Pow2(n);
    }
  }

  /** A timeout of 10 gives checks at delays 1, 2, 4 and 8, the default of 60
      six checks up to 32; a timeout of at most 1 gives none. */
  lemma ScheduleExamples()
    ensures Schedule(1, 10) == [1, 2, 4, 8]
    ensures Schedule(1, DEFAULT_TIMEOUT) == [1, 2, 4, 8, 16, 32]
    ensures forall t :: t <= 1 ==> Schedule(1, t) == []
  {
    assert Schedule(16, 10) == [];
    assert Schedule(8, 10) == [8];
    assert Schedule(4, 10) == [4, 8];
    assert Schedule(2, 10) == [2, 4, 8];
    assert Schedule(64, 60) == [];
    assert Schedule(32, 60) == [32];
    assert Schedule(16, 60) == [16, 32];
    assert Schedule(8, 60) == [8, 16, 32];
    assert Schedule(4, 60) == [4, 8, 16, 32];
    assert Schedule(2, 60) == [2, 4, 8, 16, 32];
  }

  /** What `wait_for_status` ends with: nothing when a check inside the loop
      matched, otherwise a TimeoutException carrying the lower-cased status
      of one further call and the wanted status as given. */
  function WaitOutcome(getStatus: nat -> string, wait: string, timeout: int): Option<Error>
  {
    var n := |Schedule(1, timeout)|;
    if FirstMatch(getStatus, wait, n) < n then None
    else Some(TimeoutException(Lower(getStatus(n)), wait))
  }

  class Resource {
    constructor ()
    {
    }

    /** `__deepcopy__`: a resource is shared, never copied. */
    method DeepCopy() returns (r: Resource)
      ensures r == this
    {
      r := this;
    }

    /** `wait_for_status`: check the status while the delay is below the
        timeout, sleeping the current delay and doubling it after each
        mismatch.  `calls` is the number of getter calls, `slept` the delays
        passed to sleep. */
    method WaitForStatus(getStatus: nat -> string, waitStatus: string, timeout: int)
      returns (err: Option<Error>, calls: nat, slept: seq<nat>)
      ensures var n := |Schedule(1, timeout)|;
              var k := FirstMatch(getStatus, waitStatus, n);
              && err == WaitOutcome(getStatus, waitStatus, timeout)
              && (k < n ==> calls == k + 1 && slept == Schedule(1, timeout)[..k])
              && (k == n ==> calls == n + 1 && slept == Schedule(1, timeout))
    {
      ghost var schedule := Schedule(1, timeout);
      var delay: nat := 1;
      calls := 0;
      slept := [];
      while delay < timeout
        invariant delay >= 1 && calls <= |schedule|
        invariant schedule == slept + Schedule(delay, timeout)
        invariant |slept| == calls
        invariant FirstMatch(getStatus, waitStatus, calls) == calls
        decreases timeout - delay
      {
        var status := getStatus(calls);
        calls := calls + 1;
        if EqualsIgnoreCase(status, waitStatus) {
          assert schedule[..calls - 1] == slept;
          assert FirstMatch(getStatus, waitStatus, calls) == calls - 1;
          FirstMatchStable(getStatus, waitStatus, calls, |schedule|);
          return None, calls, slept;
        }
        slept := slept + [delay];
        delay := 2 * delay;
      }
      assert slept == schedule;
      err := Some(TimeoutException(Lower(getStatus(calls)), waitStatus));
      calls := calls + 1;
    }

    /** `try_wait_for_status`: the same wait, with the TimeoutException only
        logged.  `warning` is what is logged. */
    method TryWaitForStatus(getStatus: nat -> string, waitStatus: string, timeout: int)
      returns (err: Option<Error>, warning: Option<Error>)
      ensures err == None
      ensures warning == WaitOutcome(getStatus, waitStatus, timeout)
    {
      var e, _, _ := WaitForStatus(getStatus, waitStatus, timeout);
      warning := e;
      err := None;
    }
  }

  /** The wait succeeds exactly when some status observed inside the loop
      matches, ignoring case. */
  lemma WaitSucceedsIffMatched(getStatus: nat -> string, wait: string, timeout: int)
    ensures WaitOutcome(getStatus, wait, timeout).None? <==>
              exists i :: 0 <= i < |Schedule(1, timeout)| && EqualsIgnoreCase(getStatus(i), wait)
  {
    var n := |Schedule(1, timeout)|;
    var k := FirstMatch(getStatus, wait, n);
    if k < n {
      assert EqualsIgnoreCase(getStatus(k), wait);
    } else {
      forall i | 0 <= i < n
        ensures !EqualsIgnoreCase(getStatus(i), wait)
      {
        FirstMatchIsFirst(getStatus, wait, n, i);
      }
    }
  }

  /** With a timeout of at most 1 no check happens and the wait raises with the
      first status the getter reports. */
  lemma ShortTimeoutRaises(getStatus: nat -> string, wait: string, timeout: int)
    requires timeout <= 1
    ensures WaitOutcome(getStatus, wait, timeout) == Some(TimeoutException(Lower(getStatus(0)), wait))
  {
  }
}
