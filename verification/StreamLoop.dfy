/**
 The worker's main loop around the circuit breaker (worker.py, `_stream_loop` and `_handle_error`)
 on a monotone clock: call, and after an error sleep for as long as the error asks.

 What the environment decides in one turn (how long things take, how the session ends) is the
 turn's `Turn` value; a sleep never ends early. Recording an error may itself fail, which ends
 the loop. `WorkerRunsAreTimed` ties this loop to the one the worker object runs.
 */
module StreamLoops {
  import opened Common
  import opened ErrorHandling
  import opened CircuitBreakers
  import SW = StreamWorkers

  datatype Ending = Returned | Raised(error: Error)

  datatype Turn = Turn(
    idle: real, progress: nat, duration: real, ending: Ending, recorded: bool, recording: real, oversleep: real)

  ghost predicate Plausible(t: Turn) {
    && t.idle >= 0.0 && t.duration >= 0.0 && t.recording >= 0.0 && t.oversleep >= 0.0
    // The wrapped coroutine does not itself go through the breaker.
    && (t.ending.Raised? ==> CircuitOpenError !in t.ending.error.classes)
  }

  datatype Loop = Loop(
    breaker: Breaker,
    clock: real,
    attempts: seq<real>,   // start times of the admitted calls
    rejected: bool,        // the latest turn was turned away by the open circuit
    over: bool)            // the loop has ended

  function Start(c: Config, at: real): Loop {
    Loop(Initial(c), at, [], false, false)
  }

  /** After an error at time `at`: record it, then sleep or leave the loop. */
  function Recover(l: Loop, t: Turn, e: Error, at: real): Loop {
    if !t.recorded || !HandleError(e).RetryAfter? then l.(clock := at, over := true)
    else l.(clock := at + t.recording + HandleError(e).seconds as real + t.oversleep)
  }

  function SucceedTimes(c: Config, b: Breaker, n: nat): Breaker {
    if n == 0 then b else Succeed(c, SucceedTimes(c, b, n - 1))
  }

  function Advance(c: Config, l: Loop, t: Turn): Loop {
    if l.over then l
    else
      var now := l.clock + t.idle;
      var (b, admission) := Admit(l.breaker, now);
      match admission
      case Rejected(r) =>
        Recover(l.(breaker := b, rejected := true), t, Error({CircuitOpenError}, r), now)
      case Admitted =>
        var done := now + t.duration;
        var b := SucceedTimes(c, b, t.progress);
        var l := l.(attempts := l.attempts + [now], rejected := false);
        match t.ending
        case Returned => l.(breaker := Succeed(c, b), clock := done)
        case Raised(e) => Recover(l.(breaker := Fail(c, b, e, done)), t, e, done)
  }

  function Run(c: Config, at: real, turns: seq<Turn>): Loop {
    if turns == [] then Start(c, at)
    else Advance(c, Run(c, at, turns[..|turns| - 1]), turns[|turns| - 1])
  }

  // ---------------------------------------------------------------------------------------------

  /** A turned-away loop sleeps until the circuit lets the next call through. */
  lemma AdmittedAfterRejection(c: Config, l: Loop, t: Turn, u: Turn)
    requires Plausible(t) && Plausible(u) && !l.over
    requires Advance(c, l, t).rejected && !Advance(c, l, t).over
    ensures !Advance(c, Advance(c, l, t), u).rejected
  {
    var now := l.clock + t.idle;
    var wait := TimeUntilRetry(l.breaker, now);
    assert l.breaker.lastFailure.Some?;
    assert wait as real >= l.breaker.backoff as real - (now - l.breaker.lastFailure.value);
    var e := Error({CircuitOpenError}, wait);
    assert HandleError(e).RetryAfter? ==> HandleError(e).seconds == wait;
    assert Advance(c, l, t).clock >= now + wait as real;
  }

  /** In every run of the loop, no two successive calls are turned away. */
  lemma RejectionsAreIsolated(c: Config, at: real, turns: seq<Turn>, i: nat)
    requires i + 2 <= |turns| && forall k :: 0 <= k < |turns| ==> Plausible(turns[k])
    requires Run(c, at, turns[..i + 1]).rejected && !Run(c, at, turns[..i + 1]).over
    ensures !Run(c, at, turns[..i + 2]).rejected
  {
    assert turns[..i + 1][..i] == turns[..i] && turns[..i + 2][..i + 1] == turns[..i + 1];
    AdmittedAfterRejection(c, Run(c, at, turns[..i]), turns[i], turns[i + 1]);
  }

  /** min(60 * 2^n, 3600): how long the worker's circuit stays open the n-th time in a row. */
  function OpenPeriod(n: nat): nat {
    Min(60 * Pow2(n), 3600)
  }

  /** OpenPeriod(1) + ... + OpenPeriod(n) */
  function OpenPeriods(n: nat): nat {
    if n == 0 then 0 else OpenPeriods(n - 1) + OpenPeriod(n)
  }

  /** The earliest possible start of the k-th attempt, relative to the start of the loop. */
  function EarliestAttempt(k: nat): nat
    requires k >= 1
  {
    if k <= 5 then 5 * (k - 1) else 20 + OpenPeriods(k - 5)
  }

  ghost predicate TransientFailure(t: Turn) {
    && Plausible(t) && t.progress == 0
    && t.ending.Raised? && HandleError(t.ending.error) == RetryAfter(5)
  }

  ghost predicate Spaced(l: Loop, at: real) {
    var k, b := |l.attempts|, l.breaker;
    && (forall i :: 0 <= i < k ==> l.attempts[i] >= at + EarliestAttempt(i + 1) as real)
    && (k < 5 ==> b.state.Closed? && b.failures == k && b.backoff == 60)
    && (k < 5 && !l.over ==> l.clock >= at + (5 * k) as real)
    && (k >= 5 ==> b.state.Open? && b.backoff == OpenPeriod(k - 4) && b.lastFailure.Some?
                   && b.lastFailure.value >= at + EarliestAttempt(k) as real)
  }

  /** The first four failures leave the circuit closed and cost five seconds each. */
  lemma SpacedWhileClosed(l: Loop, t: Turn, at: real)
    requires Spaced(l, at) && TransientFailure(t) && !l.over && |l.attempts| < 5
    ensures Spaced(Advance(WORKER_CONFIG, l, t), at)
  {
    var now := l.clock + t.idle;
    assert BackoffDuration(t.ending.error) <= 60;
    assert OpenPeriod(1) == 120;
    assert Advance(WORKER_CONFIG, l, t).attempts == l.attempts + [now];
  }

  /** From the fifth on, every attempt is a half-open probe after a full, doubled open period. */
  lemma SpacedWhileOpen(l: Loop, t: Turn, at: real)
    requires Spaced(l, at) && TransientFailure(t) && !l.over && |l.attempts| >= 5
    ensures Spaced(Advance(WORKER_CONFIG, l, t), at)
  {
    var k, now := |l.attempts|, l.clock + t.idle;
    Doubling(WORKER_CONFIG, k - 4);
    assert BackoffDuration(t.ending.error) <= 60;
    if Admit(l.breaker, now).1.Admitted? {
      assert EarliestAttempt(k + 1) == EarliestAttempt(k) + OpenPeriod(k - 4);
      var l' := Advance(WORKER_CONFIG, l, t);
      assert l'.attempts == l.attempts + [now];
      assert l'.breaker.backoff == OpenPeriod(k - 3);
    }
  }

  /**
   In a run of nothing but transient failures the k-th upstream attempt starts no earlier than
   20 + sum of min(60 * 2^j, 3600) for j = 1 .. k - 5 seconds after the loop (k >= 6), and the
   first five are 5 seconds apart.
   */
  lemma {:induction false} AttemptSpacing(at: real, turns: seq<Turn>)
    requires forall k :: 0 <= k < |turns| ==> TransientFailure(turns[k])
    ensures Spaced(Run(WORKER_CONFIG, at, turns), at)
  {
    if turns != [] {
      var before, t := turns[..|turns| - 1], turns[|turns| - 1];
      AttemptSpacing(at, before);
      var l := Run(WORKER_CONFIG, at, before);
      if !l.over {
        if |l.attempts| < 5 {
          SpacedWhileClosed(l, t, at);
        } else {
          SpacedWhileOpen(l, t, at);
        }
      }
    }
  }

  /** A rejected call is told to wait a second at least, and is retried. */
  lemma RejectionWaits(b: Breaker, now: real)
    requires Admit(b, now).1.Rejected?
    ensures Admit(b, now).1.retryAfter >= 1
    ensures HandleError(Error({CircuitOpenError}, Admit(b, now).1.retryAfter)) == RetryAfter(Admit(b, now).1.retryAfter)
  {
    var e := Error({CircuitOpenError}, Admit(b, now).1.retryAfter);
    assert CircuitOpenError in e.classes && CircuitOpenError in BACKOFF;
  }

  /**
   An error loop never spins: while every turn fails, each attempt costs five seconds and each
   rejection one, whatever the errors are.
   */
  lemma {:induction false} ErrorsNeverSpin(c: Config, at: real, turns: seq<Turn>)
    requires forall k :: 0 <= k < |turns| ==> Plausible(turns[k]) && turns[k].ending.Raised?
    ensures var l := Run(c, at, turns);
      |l.attempts| <= |turns| &&
      (!l.over ==> l.clock >= at + (5 * |l.attempts|) as real + (|turns| - |l.attempts|) as real)
  {
    if turns != [] {
      var before, t := turns[..|turns| - 1], turns[|turns| - 1];
      ErrorsNeverSpin(c, at, before);
      var l := Run(c, at, before);
      if !l.over && Admit(l.breaker, l.clock + t.idle).1.Rejected? {
        RejectionWaits(l.breaker, l.clock + t.idle);
      }
    }
  }

  // ---------------------------------------------------------------------------------------------
  // The worker's loop is this loop

  lemma {:induction false} OneMoreProgress(c: Config, b: Breaker, n: nat)
    ensures SucceedTimes(c, Succeed(c, b), n) == SucceedTimes(c, b, n + 1)
  {
    if n > 0 {
      OneMoreProgress(c, b, n - 1);
    }
  }

  predicate NoComments(items: seq<SW.Item>) {
    forall i :: 0 <= i < |items| ==> items[i].Gap?
  }

  /** A session's effect on the breaker is a number of progress reports. */
  lemma {:induction false} SessionsReportProgress(
      s: SW.Settings, d: SW.Data, snapshot: Option<string>, items: seq<SW.Item>)
    returns (progress: nat)
    ensures SW.Comments(s, d, snapshot, items).0.breaker == SucceedTimes(s.breaker, d.breaker, progress)
    ensures NoComments(items) ==> progress == 0 && SW.Comments(s, d, snapshot, items).1.Through?
    ensures SW.Comments(s, d, snapshot, items).1.Through? ==> progress == SW.CountComments(items)
    decreases |items|
  {
    progress := 0;
    if items != [] && items[0].Gap? {
      SW.InterferenceTouches(s, d, items[0].meanwhile);
      progress := SessionsReportProgress(s, SW.Interfere(s, d, items[0].meanwhile), snapshot, items[1..]);
    } else if items != [] && !items[0].stop {
      var (e, o) := SW.Process(s, SW.Progressed(s, d), items[0].id, snapshot, items[0].fate);
      SW.ProcessKeepsBreaker(s, SW.Progressed(s, d), items[0].id, snapshot, items[0].fate);
      if !o.Undelivered? && !o.NoteFailed? && !o.WasInterrupted? {
        progress := SessionsReportProgress(s, e, snapshot, items[1..]);
      }
      OneMoreProgress(s.breaker, d.breaker, progress);
      progress := progress + 1;
    }
  }

  /** Two comments close a worker's circuit again: a probe that yields them ends the backoff. */
  lemma TwoCommentsCloseTheCircuit(b: Breaker, now: real)
    requires b.state.Open? && Admit(b, now).1.Admitted?
    ensures var probing := Admit(b, now).0;
      && SucceedTimes(WORKER_CONFIG, probing, 1).state.HalfOpen?
      && SucceedTimes(WORKER_CONFIG, probing, 2).state.Closed? && SucceedTimes(WORKER_CONFIG, probing, 2).backoff == 60
  {
    var probing := Admit(b, now).0;
    assert SucceedTimes(WORKER_CONFIG, probing, 1) == Succeed(WORKER_CONFIG, probing);
    assert SucceedTimes(WORKER_CONFIG, probing, 2) == Succeed(WORKER_CONFIG, SucceedTimes(WORKER_CONFIG, probing, 1));
  }

  predicate IsAdmitted(d: SW.Data, t: SW.Turn) {
    Admit(d.breaker, t.start).1.Admitted?
  }

  /** What a turn of the worker's loop raises to the error handler. */
  function TurnError(s: SW.Settings, d: SW.Data, t: SW.Turn): Option<Error> {
    var (b, admission) := Admit(d.breaker, t.start);
    match admission
    case Rejected(after) => Some(Error({CircuitOpenError}, after))
    case Admitted =>
      var r := SW.RunSession(s, SW.Interfere(s, d, t.meanwhile).(breaker := b), t.session).1;
      if r.Raises? then Some(r.error) else None
  }

  /** When a turn and the sleep its error asks for are over. */
  function Rested(s: SW.Settings, d: SW.Data, t: SW.Turn): real {
    var at, e := if IsAdmitted(d, t) then t.finish else t.start, TurnError(s, d, t);
    if e.Some? && HandleError(e.value).RetryAfter? then at + HandleError(e.value).seconds as real else at
  }

  /** The turn starts no earlier than `clock`, and its session does not itself go through the breaker. */
  predicate OnClock(s: SW.Settings, d: SW.Data, t: SW.Turn, clock: real) {
    && t.start >= clock && t.finish >= t.start
    && (IsAdmitted(d, t) && TurnError(s, d, t).Some? ==> CircuitOpenError !in TurnError(s, d, t).value.classes)
  }

  /** The session fails with a transient error before it yields a comment. */
  predicate TransientTurn(t: SW.Turn) {
    var opening, end := t.session.opening, t.session.end;
    || (opening.Throws? && HandleError(opening.error) == RetryAfter(5))
    || (opening.Completes? && NoComments(t.session.comments) && end.Broken? && HandleError(end.error) == RetryAfter(5))
  }

  const TRANSIENT: Error := Error({TimeoutError}, 0)

  lemma TransientIsRetried()
    ensures HandleError(TRANSIENT) == RetryAfter(5)
  {
    assert TimeoutError in TRANSIENT.classes && TimeoutError in RETRYABLE + BACKOFF;
  }

  /**
   Every turn the worker's loop takes without being cancelled is a turn of the timed loop: the same
   admission, the same breaker and the same clock afterwards, and the loop ends in the one exactly
   when it ends in the other.
   */
  lemma WorkerTurnsAreTimed(s: SW.Settings, d: SW.Data, t: SW.Turn, l: Loop) returns (u: Turn)
    requires d.breaker == l.breaker && !l.over && !SW.TakeTurn(s, d, t).1.CancelledResult?
    requires OnClock(s, d, t, l.clock)
    ensures Plausible(u) && (TransientTurn(t) ==> TransientFailure(u))
    ensures var (d', r) := SW.TakeTurn(s, d, t);
      var l' := Advance(s.breaker, l, u);
      && l'.breaker == d'.breaker && (l'.over <==> !r.Normal?)
      && l'.rejected == !IsAdmitted(d, t)
      && l'.attempts == l.attempts + (if IsAdmitted(d, t) then [t.start] else [])
      && (!l'.over ==> l'.clock == Rested(s, d, t))
  {
    if IsAdmitted(d, t) {
      u := AdmittedTurnsAreTimed(s, d, t, l);
    } else {
      u := Turn(t.start - l.clock, 0, t.finish - t.start, Ending.Raised(TRANSIENT), t.recording.Completes?, 0.0, 0.0);
      TransientIsRetried();
      RejectionWaits(d.breaker, t.start);
      assert l.clock + u.idle == t.start;
    }
  }

  lemma AdmittedTurnsAreTimed(s: SW.Settings, d: SW.Data, t: SW.Turn, l: Loop) returns (u: Turn)
    requires d.breaker == l.breaker && !l.over && !SW.TakeTurn(s, d, t).1.CancelledResult?
    requires OnClock(s, d, t, l.clock) && IsAdmitted(d, t)
    ensures Plausible(u) && (TransientTurn(t) ==> TransientFailure(u))
    ensures var (d', r) := SW.TakeTurn(s, d, t);
      var l' := Advance(s.breaker, l, u);
      && l'.breaker == d'.breaker && (l'.over <==> !r.Normal?) && !l'.rejected
      && l'.attempts == l.attempts + [t.start] && (!l'.over ==> l'.clock == Rested(s, d, t))
  {
    var progress := 0;
    var e := SW.Interfere(s, d, t.meanwhile).(breaker := Admit(d.breaker, t.start).0);
    if t.session.opening.Completes? {
      progress := SessionsReportProgress(s, e, e.stored, t.session.comments);
    }
    var error := TurnError(s, d, t);
    var ending := if error.Some? then Ending.Raised(error.value) else Returned;
    u := Turn(t.start - l.clock, progress, t.finish - t.start, ending, t.recording.Completes?, 0.0, 0.0);
    assert l.clock + u.idle == t.start && t.start + u.duration == t.finish;
    SessionsBreaker(s, e, t.session, progress);
  }

  lemma SessionsBreaker(s: SW.Settings, d: SW.Data, fate: SW.SessionFate, progress: nat)
    requires if fate.opening.Completes? then
               SW.Comments(s, d, d.stored, fate.comments).0.breaker == SucceedTimes(s.breaker, d.breaker, progress)
             else progress == 0
    ensures SW.RunSession(s, d, fate).0.breaker == SucceedTimes(s.breaker, d.breaker, progress)
  {
  }

  function ClockAfter(s: SW.Settings, d: SW.Data, turns: seq<SW.Turn>, at: real): real {
    if turns == [] then at
    else
      var before, last := turns[..|turns| - 1], turns[|turns| - 1];
      var (e, r) := SW.Turns(s, d, before);
      if r.Normal? then Rested(s, e, last) else ClockAfter(s, d, before, at)
  }

  /** The start times of the calls that reached Reddit. */
  function Attempts(s: SW.Settings, d: SW.Data, turns: seq<SW.Turn>): seq<real> {
    if turns == [] then []
    else
      var before, last := turns[..|turns| - 1], turns[|turns| - 1];
      var (e, r) := SW.Turns(s, d, before);
      Attempts(s, d, before) + if r.Normal? && IsAdmitted(e, last) then [last.start] else []
  }

  /** No turn starts before the one before it, and the sleep its error asked for, are over. */
  ghost predicate Timely(s: SW.Settings, d: SW.Data, turns: seq<SW.Turn>, at: real) {
    turns == [] ||
    var before, last := turns[..|turns| - 1], turns[|turns| - 1];
    && Timely(s, d, before, at)
    && (SW.Turns(s, d, before).1.Normal? ==> OnClock(s, SW.Turns(s, d, before).0, last, ClockAfter(s, d, before, at)))
  }

  /** The last turn is taken if the loop has come to it. */
  lemma LastTurn(s: SW.Settings, d: SW.Data, turns: seq<SW.Turn>)
    requires turns != []
    ensures var before, last := turns[..|turns| - 1], turns[|turns| - 1];
      var (e, r) := SW.Turns(s, d, before);
      SW.Turns(s, d, turns) == if r.Normal? then SW.TakeTurn(s, e, last) else (e, r)
  {
    var before, last := turns[..|turns| - 1], turns[|turns| - 1];
    assert turns == before + [last] && [last][1..] == [];
    SW.TurnsContinue(s, d, before, [last]);
  }

  /** The timed loop is where the worker's loop is after these turns. */
  ghost predicate Tracks(s: SW.Settings, d: SW.Data, turns: seq<SW.Turn>, at: real, l: Loop) {
    var (d', r) := SW.Turns(s, d, turns);
    && l.breaker == d'.breaker && (l.over <==> !r.Normal?)
    && l.attempts == Attempts(s, d, turns) && (!l.over ==> l.clock == ClockAfter(s, d, turns, at))
  }

  lemma OneMoreTurn(s: SW.Settings, d: SW.Data, turns: seq<SW.Turn>, at: real, l: Loop) returns (u: Turn)
    requires turns != [] && Timely(s, d, turns, at) && !SW.Turns(s, d, turns).1.CancelledResult?
    requires Tracks(s, d, turns[..|turns| - 1], at, l)
    ensures Plausible(u) && (TransientTurn(turns[|turns| - 1]) ==> TransientFailure(u))
    ensures Tracks(s, d, turns, at, Advance(s.breaker, l, u))
  {
    var before, last := turns[..|turns| - 1], turns[|turns| - 1];
    LastTurn(s, d, turns);
    if l.over {
      TransientIsRetried();
      u := Turn(0.0, 0, 0.0, Ending.Raised(TRANSIENT), true, 0.0, 0.0);
      assert Attempts(s, d, turns) == Attempts(s, d, before);
    } else {
      u := WorkerTurnsAreTimed(s, SW.Turns(s, d, before).0, last, l);
    }
  }

  /** A whole run of the worker's loop is a run of the timed loop, with the same attempts. */
  lemma {:induction false} WorkerRunsAreTimed(s: SW.Settings, d: SW.Data, turns: seq<SW.Turn>, at: real)
    returns (us: seq<Turn>)
    requires d.breaker == Initial(s.breaker) && Timely(s, d, turns, at)
    requires !SW.Turns(s, d, turns).1.CancelledResult?
    ensures |us| == |turns| && forall k :: 0 <= k < |us| ==> Plausible(us[k])
    ensures forall k :: 0 <= k < |us| && TransientTurn(turns[k]) ==> TransientFailure(us[k])
    ensures Tracks(s, d, turns, at, Run(s.breaker, at, us))
  {
    us := [];
    if turns != [] {
      LastTurn(s, d, turns);
      us := WorkerRunsAreTimed(s, d, turns[..|turns| - 1], at);
      var u := OneMoreTurn(s, d, turns, at, Run(s.breaker, at, us));
      assert (us + [u])[..|us|] == us;
      us := us + [u];
    }
  }

  /** In no run of the worker's loop are two successive calls turned away. */
  lemma WorkerRejectionsAreIsolated(s: SW.Settings, d: SW.Data, turns: seq<SW.Turn>, at: real, i: nat)
    requires i + 2 == |turns| && Timely(s, d, turns, at) && SW.Turns(s, d, turns[..i + 1]).1.Normal?
    requires SW.Turns(s, d, turns[..i]).1.Normal? && !IsAdmitted(SW.Turns(s, d, turns[..i]).0, turns[i])
    ensures IsAdmitted(SW.Turns(s, d, turns[..i + 1]).0, turns[i + 1])
  {
    var before := turns[..i + 1];
    assert before[..i] == turns[..i];
    LastTurn(s, d, before);
    var e, f := SW.Turns(s, d, turns[..i]).0, SW.Turns(s, d, before).0;
    assert SW.Turns(s, d, before) == SW.TakeTurn(s, e, turns[i]);
    var l := Loop(e.breaker, turns[i].start, [], false, false);
    var u := WorkerTurnsAreTimed(s, e, turns[i], l);
    var l' := Advance(s.breaker, l, u);
    var v := Turn(turns[i + 1].start - l'.clock, 0, 0.0, Returned, true, 0.0, 0.0);
    assert l'.clock + v.idle == turns[i + 1].start;
    AdmittedAfterRejection(s.breaker, l, u, v);
  }

  /**
   So the worker spaces its attempts: in a run of nothing but transient failures the k-th call that
   reaches Reddit starts at least 20 + sum of min(60 * 2^j, 3600), j = 1 .. k - 5, seconds after the
   loop (k >= 6).
   */
  lemma WorkerAttemptSpacing(s: SW.Settings, d: SW.Data, turns: seq<SW.Turn>, at: real, k: nat)
    requires s.breaker == WORKER_CONFIG && d.breaker == Initial(s.breaker) && Timely(s, d, turns, at)
    requires !SW.Turns(s, d, turns).1.CancelledResult?
    requires forall i :: 0 <= i < |turns| ==> TransientTurn(turns[i])
    requires k < |Attempts(s, d, turns)|
    ensures Attempts(s, d, turns)[k] >= at + EarliestAttempt(k + 1) as real
  {
    var us := WorkerRunsAreTimed(s, d, turns, at);
    AttemptSpacing(at, us);
  }
}
