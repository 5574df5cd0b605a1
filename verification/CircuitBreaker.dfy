/**
 The circuit breaker (circuit_breaker.py): a three-state machine with a doubling, capped backoff.

 `Breaker` is the value of the object's mutable fields and `Admit`, `Succeed` and `Fail` say what
 its methods do to that value; class `CircuitBreaker` performs the updates in place. Times are
 seconds as reals; the multiplier is the default 2.0, which the worker never overrides.
 */
module CircuitBreakers {
  import opened Common
  import opened ErrorHandling

  datatype Config = Config(failureThreshold: nat, recoveryTimeout: nat, successThreshold: nat, maxBackoff: nat)

  /** The configuration of every worker's breaker. */
  const WORKER_CONFIG: Config := Config(5, 60, 2, 3600)

  datatype CircuitState = Closed | Open | HalfOpen

  datatype Breaker = Breaker(
    state: CircuitState, failures: nat, successes: nat, lastFailure: Option<real>, backoff: int)

  datatype Admission = Admitted | Rejected(retryAfter: nat)

  function Initial(c: Config): Breaker {
    Breaker(Closed, 0, 0, None, c.recoveryTimeout)
  }

  predicate ShouldAttemptReset(b: Breaker, now: real) {
    b.lastFailure.None? || now - b.lastFailure.value >= b.backoff as real
  }

  function TimeUntilRetry(b: Breaker, now: real): nat {
    if b.lastFailure.None? then 0
    else Max(0, Ceil(b.backoff as real - (now - b.lastFailure.value)))
  }

  function Admit(b: Breaker, now: real): (Breaker, Admission) {
    if b.state.Open? then
      if ShouldAttemptReset(b, now) then (b.(state := HalfOpen, successes := 0), Admitted)
      else (b, Rejected(TimeUntilRetry(b, now)))
    else (b, Admitted)
  }

  function Succeed(c: Config, b: Breaker): Breaker {
    var b := b.(failures := 0);
    if b.state.HalfOpen? then
      var b := b.(successes := b.successes + 1);
      if b.successes >= c.successThreshold then b.(state := Closed, backoff := c.recoveryTimeout) else b
    else b
  }

  function Escalated(c: Config, b: Breaker, e: Error): int {
    Min(Max(2 * b.backoff, BackoffDuration(e)), c.maxBackoff)
  }

  function Fail(c: Config, b: Breaker, e: Error, now: real): Breaker {
    var b := b.(failures := b.failures + 1, lastFailure := Some(now), successes := 0);
    if b.state.HalfOpen? || b.failures >= c.failureThreshold
    then b.(state := Open, backoff := Escalated(c, b, e))
    else b
  }

  /** The breaker object. The asyncio lock makes each of these methods one atomic update. */
  class CircuitBreaker {
    const config: Config
    var state: CircuitState
    var failureCount: nat
    var successCount: nat
    var lastFailureTime: Option<real>
    var backoffSeconds: int

    function Value(): Breaker
      reads this
    {
      Breaker(state, failureCount, successCount, lastFailureTime, backoffSeconds)
    }

    constructor (config: Config)
      ensures this.config == config && Value() == Initial(config)
    {
      this.config := config;
      state, failureCount, successCount := Closed, 0, 0;
      lastFailureTime, backoffSeconds := None, config.recoveryTimeout;
    }

    /** The part of `call` that decides whether the wrapped coroutine runs. */
    method BeginCall(now: real) returns (admission: Admission)
      modifies this
      ensures (Value(), admission) == Admit(old(Value()), now)
    {
      admission := Admitted;
      if state == Open {
        if lastFailureTime == None || now - lastFailureTime.value >= backoffSeconds as real {
          state := HalfOpen;
          successCount := 0;
        } else {
          admission := Rejected(TimeUntilRetry(Value(), now));
        }
      }
    }

    method RecordSuccess()
      modifies this
      ensures Value() == Succeed(config, old(Value()))
    {
      failureCount := 0;
      if state == HalfOpen {
        successCount := successCount + 1;
        if successCount >= config.successThreshold {
          state := Closed;
          backoffSeconds := config.recoveryTimeout;
        }
      }
    }

    method RecordFailure(e: Error, now: real)
      modifies this
      ensures Value() == Fail(config, old(Value()), e, now)
    {
      failureCount := failureCount + 1;
      lastFailureTime := Some(now);
      successCount := 0;
      if state == HalfOpen {
        backoffSeconds := Min(Max(backoffSeconds * 2, BackoffDuration(e)), config.maxBackoff);
        state := Open;
      } else if failureCount >= config.failureThreshold {
        backoffSeconds := Min(Max(backoffSeconds * 2, BackoffDuration(e)), config.maxBackoff);
        state := Open;
      }
    }
  }

  // ---------------------------------------------------------------------------------------------
  // Event histories of one breaker

  /**
   One worker uses its breaker sequentially: a call is admitted or rejected; an admitted call
   reports progress any number of times and then returns or raises.
   */
  datatype Event = Call(now: real) | Progress | Return | Raise(error: Error, now: real) | Cancel

  datatype Session = Session(breaker: Breaker, running: bool)

  ghost predicate Enabled(s: Session, ev: Event) {
    match ev
    case Call(_) => !s.running
    case Progress => s.running
    case Return => s.running
    case Cancel => s.running
    // The wrapped coroutine does not itself go through the breaker.
    case Raise(e, _) => s.running && CircuitOpenError !in e.classes
  }

  ghost function Step(c: Config, s: Session, ev: Event): Session {
    match ev
    case Call(now) => var (b, a) := Admit(s.breaker, now); Session(b, a.Admitted?)
    case Progress => s.(breaker := Succeed(c, s.breaker))
    case Return => Session(Succeed(c, s.breaker), false)
    case Cancel => s.(running := false)
    case Raise(e, now) => Session(Fail(c, s.breaker, e, now), false)
  }

  ghost function Replay(c: Config, h: seq<Event>): Session {
    if h == [] then Session(Initial(c), false)
    else Step(c, Replay(c, h[..|h| - 1]), h[|h| - 1])
  }

  ghost predicate Valid(c: Config, h: seq<Event>) {
    h == [] || (Valid(c, h[..|h| - 1]) && Enabled(Replay(c, h[..|h| - 1]), h[|h| - 1]))
  }

  /** How often the circuit has opened since it was last closed, read off the states alone. */
  ghost function OpeningsSinceClosed(c: Config, h: seq<Event>): nat {
    if h == [] then 0
    else
      var before := h[..|h| - 1];
      var was, now := Replay(c, before).breaker.state, Replay(c, h).breaker.state;
      if now.Closed? then 0
      else if now.Open? && !was.Open? then OpeningsSinceClosed(c, before) + 1
      else OpeningsSinceClosed(c, before)
  }

  predicate Sensible(c: Config) {
    && c.failureThreshold >= 1
    && c.successThreshold >= 1
    && c.recoveryTimeout <= c.maxBackoff
    && 60 <= 2 * c.recoveryTimeout
  }

  ghost predicate ClosedForm(c: Config, s: Session, n: nat) {
    var b := s.breaker;
    && (b.state.Closed? ==> n == 0 && b.failures < c.failureThreshold)
    && (b.state.HalfOpen? ==> n >= 1 && b.successes < c.successThreshold)
    && (b.state.Open? ==> n >= 1 && !s.running)
    && b.backoff == Min(c.recoveryTimeout * Pow2(n), c.maxBackoff)
  }

  /**
   Over every history the backoff is a function of the number of openings alone: the suggested
   backoff of the error never dominates, truncation never bites, and closing resets it.
   */
  lemma {:induction false} BackoffClosedForm(c: Config, h: seq<Event>)
    requires Sensible(c) && Valid(c, h)
    ensures ClosedForm(c, Replay(c, h), OpeningsSinceClosed(c, h))
  {
    if h != [] {
      var before, ev := h[..|h| - 1], h[|h| - 1];
      BackoffClosedForm(c, before);
      var n := OpeningsSinceClosed(c, before);
      var s, s' := Replay(c, before), Replay(c, h);
      if ev.Raise? && s'.breaker.state.Open? {
        Doubling(c, n);
        assert BackoffDuration(ev.error) <= 60;
      }
    }
  }

  lemma Doubling(c: Config, n: nat)
    requires c.recoveryTimeout <= c.maxBackoff
    ensures 2 * (c.recoveryTimeout * Pow2(n)) == c.recoveryTimeout * Pow2(n + 1)
    ensures Min(2 * Min(c.recoveryTimeout * Pow2(n), c.maxBackoff), c.maxBackoff)
         == Min(c.recoveryTimeout * Pow2(n + 1), c.maxBackoff)
    ensures Min(c.recoveryTimeout * Pow2(n), c.maxBackoff) >= c.recoveryTimeout
  {
    assert c.recoveryTimeout * Pow2(n) >= c.recoveryTimeout * 1;
  }

  // ---------------------------------------------------------------------------------------------
  // What a history alone decides

  predicate IsSuccess(ev: Event) {
    ev.Progress? || ev.Return?
  }

  /** Failures in a row: since the last success of any kind. */
  function FailuresInARow(h: seq<Event>): nat {
    if h == [] then 0
    else
      var last := h[|h| - 1];
      if IsSuccess(last) then 0 else FailuresInARow(h[..|h| - 1]) + if last.Raise? then 1 else 0
  }

  function LastFailure(h: seq<Event>): Option<real> {
    if h == [] then None
    else if h[|h| - 1].Raise? then Some(h[|h| - 1].now)
    else LastFailure(h[..|h| - 1])
  }

  /** Successes since the latest failure or the latest call that was admitted as a probe. */
  ghost function ProbeSuccesses(c: Config, h: seq<Event>): nat {
    if h == [] then 0
    else
      var before, last := h[..|h| - 1], h[|h| - 1];
      var was := Replay(c, before).breaker.state;
      if last.Raise? || (last.Call? && was.Open? && !Replay(c, h).breaker.state.Open?) then 0
      else ProbeSuccesses(c, before) + if IsSuccess(last) && was.HalfOpen? then 1 else 0
  }

  /** The counters are those of the history. */
  lemma {:induction false} CountersAreTheHistorys(c: Config, h: seq<Event>)
    requires Sensible(c) && Valid(c, h)
    ensures var b := Replay(c, h).breaker;
      && b.failures == FailuresInARow(h) && b.lastFailure == LastFailure(h)
      && b.successes == ProbeSuccesses(c, h)
  {
    if h != [] {
      CountersAreTheHistorys(c, h[..|h| - 1]);
      BackoffClosedForm(c, h[..|h| - 1]);
    }
  }

  /** How long the circuit stays open after its latest opening. */
  ghost function OpenFor(c: Config, h: seq<Event>): real {
    Min(c.recoveryTimeout * Pow2(OpeningsSinceClosed(c, h)), c.maxBackoff) as real
  }

  function Since(h: seq<Event>, now: real): real {
    if LastFailure(h).Some? then now - LastFailure(h).value else 0.0
  }

  /** The time of an open circuit is over. */
  ghost predicate IsOver(c: Config, h: seq<Event>, now: real) {
    Since(h, now) >= OpenFor(c, h)
  }

  /**
   Where an event takes the circuit, from the history alone. A failure opens it if it is a probe's or
   completes the threshold of failures in a row; a success closes it if it completes the successes a
   probe needs; a call probes an open circuit once its time since the last failure is over, and is
   turned away until then with the time that is left, rounded up; nothing else moves it.
   */
  lemma NextState(c: Config, h: seq<Event>, ev: Event)
    requires Sensible(c) && Valid(c, h + [ev])
    ensures Valid(c, h)
    ensures var was, now := Replay(c, h).breaker.state, Replay(c, h + [ev]).breaker.state;
      && (ev.Raise? ==> now == if was.HalfOpen? || FailuresInARow(h) + 1 >= c.failureThreshold then Open else was)
      && (IsSuccess(ev) ==> now == if was.HalfOpen? && ProbeSuccesses(c, h) + 1 >= c.successThreshold then Closed else was)
      && (ev.Cancel? ==> now == was)
      && (ev.Call? ==> now == if was.Open? && IsOver(c, h, ev.now) then HalfOpen else was)
    ensures Replay(c, h + [ev]).running <==>
      ev.Progress? || (ev.Call? && (Replay(c, h).breaker.state.Open? ==> IsOver(c, h, ev.now)))
    ensures ev.Call? && !Replay(c, h + [ev]).running ==>
      var advice, left := Admit(Replay(c, h).breaker, ev.now).1.retryAfter as real, OpenFor(c, h) - Since(h, ev.now);
      advice - 1.0 < left <= advice
  {
    assert (h + [ev])[..|h|] == h && (h + [ev])[|h|] == ev;
    CountersAreTheHistorys(c, h);
    BackoffClosedForm(c, h);
    OpenHasFailed(c, h);
  }

  lemma {:induction false} OpenHasFailed(c: Config, h: seq<Event>)
    requires Sensible(c) && Valid(c, h)
    ensures !Replay(c, h).breaker.state.Closed? ==> LastFailure(h).Some?
  {
    if h != [] {
      OpenHasFailed(c, h[..|h| - 1]);
    }
  }
}
