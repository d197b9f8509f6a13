/** The retrying connection manager of the connectors package: a manager
    that calls a connection function up to `max_retries` times, with a
    timeout that grows by two seconds per attempt and a back-off sleep
    between attempts, and counts what happened; a fresh manager per call
    for the `retry_on_failure` decorator; and the API manager that tracks
    the time of the last success and the run of failures.

    The connection function is an oracle `call`: `call(i)` is what the
    `i`-th invocation (from 0) does within its timeout. The clock is the
    parameter `now`. */
module Connectors {
  import opened Wrappers

  /** What one invocation of the connection function does. */
  datatype Outcome = Returns(value: string) | Raises(message: string) | TimesOut

  /** The exception `robust_connect` ends up raising. `NothingRaised` is
      `raise None` when no attempt ran, which Python turns into a
      `TypeError` ("exceptions must derive from BaseException"). */
  datatype Exc = TimedOut(seconds: int) | Failed(message: string) | NothingRaised

  datatype Connect = Connected(value: string) | Raised(exc: Exc)

  /** What the caller observes from one run: an invocation with its
      timeout, or the back-off sleep after a failed attempt. */
  datatype Event = Invoke(attempt: nat, timeout: int) | Sleep(attempt: nat)

  /** The result of a run, how many times the function was invoked, and the
      events in order. */
  datatype Run = Run(result: Connect, invoked: nat, events: seq<Event>)

  datatype Stats = Stats(totalAttempts: nat, successfulConnections: nat, failedConnections: nat)

  /** The timeout of attempt `i`. */
  function Timeout(baseTimeout: int, i: nat): int {
    baseTimeout + i * 2
  }

  /** The exception recorded for a failed attempt. */
  function Recorded(o: Outcome, timeout: int): (e: Exc)
    requires !o.Returns?
    ensures e != NothingRaised
  {
    if o.TimesOut? then TimedOut(timeout) else Failed(o.message)
  }

  function Max0(n: int): nat {
    if n > 0 then n else 0
  }

  /** The loop of `robust_connect` from its `i`-th iteration, with `last`
      the exception recorded so far and `events` what has happened so far.
      `invoked` of the result counts every invocation of the run. */
  function Loop(call: nat -> Outcome, n: int, baseTimeout: int, i: nat, last: Exc, events: seq<Event>): Run
    decreases n - i
  {
    if n <= i then Run(Raised(last), i, events)
    else
      var o := call(i);
      var timeout := Timeout(baseTimeout, i);
      var tried := events + [Invoke(i, timeout)];
      if o.Returns? then Run(Connected(o.value), i + 1, tried)
      else Loop(call, n, baseTimeout, i + 1, Recorded(o, timeout), if i < n - 1 then tried + [Sleep(i)] else tried)
  }

  /** A whole run of `robust_connect` with `max_retries` = `n`. */
  function RobustRun(call: nat -> Outcome, n: int, baseTimeout: int): Run {
    Loop(call, n, baseTimeout, 0, NothingRaised, [])
  }

  /** The counters after a run. */
  function Count(s: Stats, r: Run): Stats {
    Stats(s.totalAttempts + r.invoked,
          s.successfulConnections + (if r.result.Connected? then 1 else 0),
          s.failedConnections + (if r.result.Raised? then 1 else 0))
  }

  /** What the counters of a manager with `max_retries` = `n` always
      satisfy: a success costs between one and `n` attempts, a failure
      exactly `n` (none when `n` is not positive). */
  predicate Consistent(s: Stats, n: nat) {
    s.successfulConnections + n * s.failedConnections <= s.totalAttempts
    && s.totalAttempts <= n * (s.successfulConnections + s.failedConnections)
  }

  // ------------------------------------------------------------ properties

  /** From iteration `i` on, the run stops at the first invocation that
      returns, with its value; otherwise it makes every attempt up to `n`
      and raises the exception recorded by the last one (or `last` when no
      attempt is left). */
  lemma {:induction false} LoopOutcome(call: nat -> Outcome, n: int, baseTimeout: int, i: nat, last: Exc, events: seq<Event>)
    ensures var r := Loop(call, n, baseTimeout, i, last, events);
      i <= r.invoked <= i + Max0(n - i)
      && (r.result.Connected? ==>
            i < r.invoked && call(r.invoked - 1) == Returns(r.result.value)
            && forall j :: i <= j < r.invoked - 1 ==> !call(j).Returns?)
      && (r.result.Raised? ==>
            r.invoked == i + Max0(n - i)
            && (forall j :: i <= j < n ==> !call(j).Returns?)
            && r.result.exc == if i < n then Recorded(call(n - 1), Timeout(baseTimeout, n - 1)) else last)
    decreases n - i
  {
    if i < n && !call(i).Returns? {
      var timeout := Timeout(baseTimeout, i);
      var tried := events + [Invoke(i, timeout)];
      LoopOutcome(call, n, baseTimeout, i + 1, Recorded(call(i), timeout), if i < n - 1 then tried + [Sleep(i)] else tried);
    }
  }

  /** The attempt limit: a run invokes the function at least once and at
      most `max_retries` times, and exactly that often when it fails. */
  lemma AttemptLimit(call: nat -> Outcome, n: int, baseTimeout: int)
    ensures var r := RobustRun(call, n, baseTimeout);
      r.invoked <= Max0(n)
      && (n >= 1 ==> 1 <= r.invoked)
      && (r.result.Raised? ==> r.invoked == Max0(n))
  {
    LoopOutcome(call, n, baseTimeout, 0, NothingRaised, []);
  }

  /** The success path: the run returns the value of the first invocation
      that returns, at that invocation. */
  lemma SuccessAtFirstReturn(call: nat -> Outcome, n: int, baseTimeout: int, k: nat)
    requires k < n && call(k).Returns?
    requires forall j :: 0 <= j < k ==> !call(j).Returns?
    ensures RobustRun(call, n, baseTimeout).result == Connected(call(k).value)
    ensures RobustRun(call, n, baseTimeout).invoked == k + 1
  {
    LoopOutcome(call, n, baseTimeout, 0, NothingRaised, []);
  }

  /** Total failure: when no invocation up to `max_retries` returns, the run
      raises the exception of the last attempt, or `None` when there was
      none. */
  lemma TotalFailure(call: nat -> Outcome, n: int, baseTimeout: int)
    requires forall j :: 0 <= j < n ==> !call(j).Returns?
    ensures RobustRun(call, n, baseTimeout).result ==
      Raised(if n >= 1 then Recorded(call(n - 1), Timeout(baseTimeout, n - 1)) else NothingRaised)
  {
    LoopOutcome(call, n, baseTimeout, 0, NothingRaised, []);
  }

  /** The attempts invoked in a list of events, in order. */
  function Invoked(events: seq<Event>): seq<nat>
    decreases |events|
  {
    if events == [] then []
    else (if events[0].Invoke? then [events[0].attempt] else []) + Invoked(events[1..])
  }

  /** The number of back-off sleeps in a list of events. */
  function Sleeps(events: seq<Event>): nat
    decreases |events|
  {
    if events == [] then 0 else (if events[0].Sleep? then 1 else 0) + Sleeps(events[1..])
  }

  /** Every invocation in `events` carries the timeout of its attempt. */
  predicate TimeoutsFollow(events: seq<Event>, baseTimeout: int) {
    forall k :: 0 <= k < |events| && events[k].Invoke? ==>
      events[k].timeout == Timeout(baseTimeout, events[k].attempt)
  }

  /** `[i, i + 1, ..., j - 1]`. */
  function Range(i: nat, j: nat): (r: seq<nat>)
    requires i <= j
    ensures |r| == j - i && forall k :: 0 <= k < |r| ==> r[k] == i + k
    decreases j - i
  {
    if i == j then [] else [i] + Range(i + 1, j)
  }

  lemma {:induction false} EventsAppend(a: seq<Event>, b: seq<Event>)
    ensures Invoked(a + b) == Invoked(a) + Invoked(b)
    ensures Sleeps(a + b) == Sleeps(a) + Sleeps(b)
    decreases |a|
  {
    if a != [] {
      assert (a + b)[1..] == a[1..] + b;
      EventsAppend(a[1..], b);
    } else {
      assert a + b == b;
    }
  }

  /** One more event adds its attempt to `Invoked` or one to `Sleeps`. */
  lemma EventsSnoc(events: seq<Event>, e: Event)
    ensures Invoked(events + [e]) == Invoked(events) + if e.Invoke? then [e.attempt] else []
    ensures Sleeps(events + [e]) == Sleeps(events) + if e.Sleep? then 1 else 0
  {
    EventsAppend(events, [e]);
    assert [e][1..] == [];
  }

  /** The invocations of a run are attempts `i`, `i + 1`, ... in order, one
      per invocation. */
  lemma {:induction false} InvokedInOrder(call: nat -> Outcome, n: int, baseTimeout: int, i: nat, last: Exc, events: seq<Event>)
    ensures var r := Loop(call, n, baseTimeout, i, last, events);
      i <= r.invoked && Invoked(r.events) == Invoked(events) + Range(i, r.invoked)
    decreases n - i
  {
    var r := Loop(call, n, baseTimeout, i, last, events);
    LoopOutcome(call, n, baseTimeout, i, last, events);
    if i < n {
      var timeout := Timeout(baseTimeout, i);
      var tried := events + [Invoke(i, timeout)];
      EventsSnoc(events, Invoke(i, timeout));
      if call(i).Returns? {
        assert Range(i, i + 1) == [i] + Range(i + 1, i + 1);
      } else {
        var next := if i < n - 1 then tried + [Sleep(i)] else tried;
        if i < n - 1 {
          EventsSnoc(tried, Sleep(i));
        }
        assert Invoked(next) == Invoked(events) + [i];
        InvokedInOrder(call, n, baseTimeout, i + 1, Recorded(call(i), timeout), next);
        assert Range(i, r.invoked) == [i] + Range(i + 1, r.invoked);
      }
    }
  }

  /** The timeout schedule: attempt `i` waits `base_timeout + 2 * i`
      seconds. */
  lemma {:induction false} TimeoutSchedule(call: nat -> Outcome, n: int, baseTimeout: int, i: nat, last: Exc, events: seq<Event>)
    requires TimeoutsFollow(events, baseTimeout)
    ensures TimeoutsFollow(Loop(call, n, baseTimeout, i, last, events).events, baseTimeout)
    decreases n - i
  {
    if i < n {
      var timeout := Timeout(baseTimeout, i);
      var tried := events + [Invoke(i, timeout)];
      assert TimeoutsFollow(tried, baseTimeout) by {
        forall k | 0 <= k < |tried| && tried[k].Invoke?
          ensures tried[k].timeout == Timeout(baseTimeout, tried[k].attempt)
        {
          if k < |events| { assert tried[k] == events[k]; }
        }
      }
      if !call(i).Returns? {
        var next := if i < n - 1 then tried + [Sleep(i)] else tried;
        assert TimeoutsFollow(next, baseTimeout) by {
          forall k | 0 <= k < |next| && next[k].Invoke?
            ensures next[k].timeout == Timeout(baseTimeout, next[k].attempt)
          {
            if k < |tried| { assert next[k] == tried[k]; }
          }
        }
        TimeoutSchedule(call, n, baseTimeout, i + 1, Recorded(call(i), timeout), next);
      }
    }
  }

  /** The sleep schedule: from iteration `i` on, a run sleeps after every
      attempt it makes but the last; so a failed run sleeps
      `max_retries - 1` times and one that succeeds at its `k`-th
      invocation `k - 1` times. */
  lemma {:induction false} SleepCount(call: nat -> Outcome, n: int, baseTimeout: int, i: nat, last: Exc, events: seq<Event>)
    ensures var r := Loop(call, n, baseTimeout, i, last, events);
      Sleeps(r.events) == Sleeps(events) + if r.invoked <= i then 0 else r.invoked - i - 1
    decreases n - i
  {
    LoopOutcome(call, n, baseTimeout, i, last, events);
    if i < n {
      var timeout := Timeout(baseTimeout, i);
      var tried := events + [Invoke(i, timeout)];
      EventsSnoc(events, Invoke(i, timeout));
      if !call(i).Returns? {
        var next := if i < n - 1 then tried + [Sleep(i)] else tried;
        if i < n - 1 {
          EventsSnoc(tried, Sleep(i));
        }
        InvokedInOrder(call, n, baseTimeout, i + 1, Recorded(call(i), timeout), next);
        LoopOutcome(call, n, baseTimeout, i + 1, Recorded(call(i), timeout), next);
        SleepCount(call, n, baseTimeout, i + 1, Recorded(call(i), timeout), next);
      }
    }
  }

  /** The schedules of a whole run: the invocations are attempts 0, 1, ...
      in order with timeouts `base_timeout + 2 * attempt`, and there is one
      sleep fewer than there are invocations. */
  lemma RunSchedule(call: nat -> Outcome, n: int, baseTimeout: int)
    ensures var r := RobustRun(call, n, baseTimeout);
      Invoked(r.events) == Range(0, r.invoked)
      && TimeoutsFollow(r.events, baseTimeout)
      && Sleeps(r.events) == if r.invoked == 0 then 0 else r.invoked - 1
  {
    InvokedInOrder(call, n, baseTimeout, 0, NothingRaised, []);
    TimeoutSchedule(call, n, baseTimeout, 0, NothingRaised, []);
    SleepCount(call, n, baseTimeout, 0, NothingRaised, []);
    assert Invoked([]) == [] && Sleeps([]) == 0;
  }

  /** A run keeps the counters consistent. */
  lemma CountKeepsConsistent(s: Stats, call: nat -> Outcome, n: int, baseTimeout: int)
    requires Consistent(s, Max0(n))
    ensures Consistent(Count(s, RobustRun(call, n, baseTimeout)), Max0(n))
  {
    var m := Max0(n);
    var r := RobustRun(call, n, baseTimeout);
    AttemptLimit(call, n, baseTimeout);
    var runs := s.successfulConnections + s.failedConnections;
    MulSucc(m, runs);
    MulSucc(m, s.failedConnections);
    if r.result.Connected? {
      assert Count(s, r) == Stats(s.totalAttempts + r.invoked, s.successfulConnections + 1, s.failedConnections);
    } else {
      assert Count(s, r) == Stats(s.totalAttempts + m, s.successfulConnections, s.failedConnections + 1);
    }
  }

  lemma MulSucc(m: nat, x: nat)
    ensures m * (x + 1) == m * x + m
  {
  }

  /** With consistent counters no more connections succeed than attempts are
      made, so the success rate `get_stats` reports is at most 100. */
  lemma SuccessesWithinAttempts(s: Stats, n: nat)
    requires Consistent(s, n)
    ensures s.successfulConnections <= s.totalAttempts
    ensures n == 0 ==> s.totalAttempts == 0 && s.successfulConnections == 0
  {
    assert n * s.failedConnections >= 0;
    if n == 0 {
      assert n * (s.successfulConnections + s.failedConnections) == 0;
    }
  }

  // --------------------------------------------------------------- manager

  class ConnectionManager {
    var maxRetries: int
    var baseTimeout: int
    var connectionAttempts: nat
    var successfulConnections: nat
    var failedConnections: nat

    /** The counters are consistent with `max_retries`. */
    predicate Valid()
      reads this
    {
      Consistent(GetStats(), Max0(maxRetries))
    }

    /** `ConnectionManager(max_retries, backoff_factor, base_timeout)`: all
        counters start at zero. */
    constructor (maxRetries: int, baseTimeout: int)
      ensures this.maxRetries == maxRetries && this.baseTimeout == baseTimeout
      ensures GetStats() == Stats(0, 0, 0) && Valid()
    {
      this.maxRetries := maxRetries;
      this.baseTimeout := baseTimeout;
      connectionAttempts := 0;
      successfulConnections := 0;
      failedConnections := 0;
    }

    /** `get_stats`, without the success rate. */
    function GetStats(): (s: Stats)
      reads this
      ensures s.totalAttempts == connectionAttempts
      ensures s.successfulConnections == successfulConnections && s.failedConnections == failedConnections
    {
      Stats(connectionAttempts, successfulConnections, failedConnections)
    }

    /** `robust_connect(connection_func)`: the run `RobustRun` describes,
        counted into the statistics. */
    method RobustConnect(call: nat -> Outcome) returns (r: Connect, events: seq<Event>)
      modifies this
      ensures maxRetries == old(maxRetries) && baseTimeout == old(baseTimeout)
      ensures var run := RobustRun(call, maxRetries, baseTimeout);
        r == run.result && events == run.events && GetStats() == Count(old(GetStats()), run)
      ensures old(Valid()) ==> Valid()
    {
      ghost var run := RobustRun(call, maxRetries, baseTimeout);
      ghost var before := GetStats();
      if Valid() {
        CountKeepsConsistent(before, call, maxRetries, baseTimeout);
      }
      ghost var n, base := maxRetries, baseTimeout;
      var last := NothingRaised;
      events := [];
      var attempt: nat := 0;
      while attempt < maxRetries
        invariant maxRetries == n && baseTimeout == base
        invariant connectionAttempts == before.totalAttempts + attempt
        invariant successfulConnections == before.successfulConnections
        invariant failedConnections == before.failedConnections
        invariant run == Loop(call, n, base, attempt, last, events)
        decreases maxRetries - attempt
      {
        connectionAttempts := connectionAttempts + 1;
        var timeout := baseTimeout + attempt * 2;
        events := events + [Invoke(attempt, timeout)];
        var o := call(attempt);
        if o.Returns? {
          successfulConnections := successfulConnections + 1;
          r := Connected(o.value);
          return;
        }
        last := Recorded(o, timeout);
        if attempt < maxRetries - 1 {
          events := events + [Sleep(attempt)];
        }
        attempt := attempt + 1;
      }
      failedConnections := failedConnections + 1;
      r := Raised(last);
    }
  }

  /** The function `retry_on_failure(max_retries, backoff_factor, timeout)`
      wraps: every call builds a fresh manager, so the outcome depends on
      the arguments alone and no count carries over from earlier calls. */
  method RetryOnFailure(maxRetries: int, timeout: int, call: nat -> Outcome) returns (r: Connect, events: seq<Event>)
    ensures var run := RobustRun(call, maxRetries, timeout);
      r == run.result && events == run.events
  {
    var manager := new ConnectionManager(maxRetries, timeout);
    r, events := manager.RobustConnect(call);
  }

  /** A function that fails on its first two calls and then returns. */
  function FlakyCall(i: nat): Outcome {
    if i < 2 then Raises("Temporary failure") else Returns("success after retries")
  }

  /** Decorated with three retries and a timeout of 5 seconds, the flaky
      function returns on its third call, after two sleeps, with timeouts
      of 5, 7 and 9 seconds. */
  lemma FlakySucceedsOnThirdCall()
    ensures RobustRun(FlakyCall, 3, 5) ==
      Run(Connected("success after retries"), 3,
          [Invoke(0, 5), Sleep(0), Invoke(1, 7), Sleep(1), Invoke(2, 9)])
  {
    var failed := Failed("Temporary failure");
    assert RobustRun(FlakyCall, 3, 5) == Loop(FlakyCall, 3, 5, 1, failed, [Invoke(0, 5), Sleep(0)]);
    assert Loop(FlakyCall, 3, 5, 1, failed, [Invoke(0, 5), Sleep(0)])
        == Loop(FlakyCall, 3, 5, 2, failed, [Invoke(0, 5), Sleep(0), Invoke(1, 7), Sleep(1)]);
  }

  // ----------------------------------------------------------------- API

  /** The health window of `is_healthy`, in seconds. */
  const HealthWindow := 300

  class APIConnectionManager {
    var connectionManager: ConnectionManager
    var lastSuccessfulCall: Option<int>
    var consecutiveFailures: nat

    /** The inner counters are consistent, and the current run of failures
        is no longer than the number of failed connections. */
    predicate Valid()
      reads this, connectionManager
    {
      connectionManager.Valid() && consecutiveFailures <= connectionManager.failedConnections
    }

    /** `APIConnectionManager()`: a manager with five retries and a base
        timeout of 15 seconds, no success yet and no failures. */
    constructor ()
      ensures fresh(connectionManager)
      ensures connectionManager.maxRetries == 5 && connectionManager.baseTimeout == 15
      ensures connectionManager.GetStats() == Stats(0, 0, 0)
      ensures lastSuccessfulCall == None && consecutiveFailures == 0 && Valid()
      ensures forall now :: !IsHealthy(now)
    {
      connectionManager := new ConnectionManager(5, 15);
      lastSuccessfulCall := None;
      consecutiveFailures := 0;
    }

    /** `make_api_call(api_func)` with the clock reading `now` when the
        connection returns: a success records the time and clears the run
        of failures, a failure lengthens it and is raised again. */
    method MakeApiCall(call: nat -> Outcome, now: int) returns (r: Connect, events: seq<Event>)
      modifies this, connectionManager
      ensures connectionManager == old(connectionManager)
      ensures connectionManager.maxRetries == old(connectionManager.maxRetries)
      ensures connectionManager.baseTimeout == old(connectionManager.baseTimeout)
      ensures var run := RobustRun(call, connectionManager.maxRetries, connectionManager.baseTimeout);
        r == run.result && events == run.events
        && connectionManager.GetStats() == Count(old(connectionManager.GetStats()), run)
      ensures r.Connected? ==> lastSuccessfulCall == Some(now) && consecutiveFailures == 0
      ensures r.Raised? ==>
        lastSuccessfulCall == old(lastSuccessfulCall) && consecutiveFailures == old(consecutiveFailures) + 1
      ensures r.Connected? ==> forall later :: IsHealthy(later) <==> later - now < HealthWindow
      ensures old(Valid()) ==> Valid()
    {
      r, events := connectionManager.RobustConnect(call);
      if r.Connected? {
        lastSuccessfulCall := Some(now);
        consecutiveFailures := 0;
      } else {
        consecutiveFailures := consecutiveFailures + 1;
      }
    }

    /** `is_healthy()` at clock reading `now`: a call has succeeded, less
        than five minutes ago. */
    function IsHealthy(now: int): (healthy: bool)
      reads this
      ensures healthy ==> lastSuccessfulCall.Some?
      ensures lastSuccessfulCall.Some? ==> (healthy <==> now < lastSuccessfulCall.value + HealthWindow)
    {
      match lastSuccessfulCall
      case None => false
      case Some(last) => now - last < HealthWindow
    }
  }
}
