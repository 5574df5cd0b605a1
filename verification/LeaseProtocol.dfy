/**
 Timed mutual exclusion of workers on one subreddit (worker.py, manager.py, lock.py).

 Any number of activations compete for one lease key, each under its own fresh token. An
 activation acquires the lease, re-verifies it with a first refresh and a registry heartbeat,
 then streams while its refresh loop sleeps, refreshes and heartbeats. Every Redis command is
 split into sending, executing at the server and learning the answer; commands whose client gave
 up may still execute later. Assumed: one clock rate and an event loop that is not stalled, so
 that sleeps and time-outs end on time. The worker puts no time-out on the heartbeat call (its Redis
 client limits each socket operation, which bounds no whole call): the parameter `heartbeat` bounds it.
 */
module LeaseProtocol {
  import opened Common
  import opened LockManager
  import Registry

  datatype Timing = Timing(interval: nat, timeout: nat, heartbeat: nat, ttl: nat)

  /** The worker's constants in milliseconds, for a given bound on the heartbeat call. */
  function RepositoryTiming(heartbeat: nat): Timing {
    Timing(30_000, 10_000, heartbeat, 60_000)
  }

  datatype Phase =
    | Acquiring(outcome: Option<bool>)               // SET NX EX sent; executed with this outcome
    | Holding                                        // has the token; the manager activates the worker
    | Refreshing(sent: nat, answer: Option<bool>)    // refresh sent; executed with this answer
    | Heartbeating(since: nat)
    | Sleeping(since: nat)
    | Over                                           // failed, stopped, cancelled or crashed

  datatype Late = LateAcquire | LateRefresh

  datatype Worker = Worker(
    phase: Phase,
    streaming: bool,
    confirmed: nat,          // when the server last executed a successful refresh
    late: Option<Late>)      // a command of a worker that is over, still on its way

  datatype System = System(now: nat, key: Key, workers: map<Token, Worker>)

  datatype Step =
    | Tick(d: nat)
    | SendAcquire(t: Token) | ExecuteAcquire(t: Token) | LearnAcquire(t: Token)
    | SendRefresh(t: Token) | ExecuteRefresh(t: Token) | LearnRefresh(t: Token)
    | FinishHeartbeat(t: Token)
    | Quit(t: Token)             // time-out, error, stop request, cancellation or crash
    | ExecuteLate(t: Token)
    | ExecuteRelease(t: Token)   // the release sent once the worker is over

  const INIT: System := System(0, None, map[])

  /** The event loop is not stalled: no timer is passed over. */
  predicate OnTime(c: Timing, w: Worker, now: nat) {
    match w.phase
    case Sleeping(since) => now <= since + c.interval
    case Refreshing(sent, _) => now <= sent + c.timeout
    case Heartbeating(since) => now <= since + c.heartbeat
    case _ => true
  }

  ghost predicate Enabled(c: Timing, s: System, step: Step) {
    match step
    case Tick(d) => forall t :: t in s.workers ==> OnTime(c, s.workers[t], s.now + d)
    case SendAcquire(t) => t !in s.workers
    case Quit(t) => t in s.workers
    case _ =>
      && step.t in s.workers
      && var w := s.workers[step.t];
         match step
         case ExecuteAcquire(_) => w.phase == Acquiring(None)
         case LearnAcquire(_) => w.phase.Acquiring? && w.phase.outcome.Some?
         case SendRefresh(_) => w.phase.Holding? || (w.phase.Sleeping? && s.now >= w.phase.since + c.interval)
         case ExecuteRefresh(_) => w.phase.Refreshing? && w.phase.answer.None?
         case LearnRefresh(_) => w.phase.Refreshing? && w.phase.answer.Some?
         case FinishHeartbeat(_) => w.phase.Heartbeating?
         case ExecuteLate(_) => w.phase.Over? && w.late.Some?
         case _ => w.phase.Over?
  }

  function Abandoned(w: Worker): Worker {
    Worker(Over, false, w.confirmed,
           if w.phase == Acquiring(None) then Some(LateAcquire)
           else if w.phase.Refreshing? && w.phase.answer.None? then Some(LateRefresh)
           else w.late)
  }

  ghost function Apply(c: Timing, s: System, step: Step): System
    requires Enabled(c, s, step)
  {
    match step
    case Tick(d) => s.(now := s.now + d)
    case SendAcquire(t) => s.(workers := s.workers[t := Worker(Acquiring(None), false, 0, None)])
    case ExecuteAcquire(t) =>
      var won := !Exists(s.key, s.now);
      s.(key := SetIfAbsent(s.key, s.now, t, c.ttl),
         workers := s.workers[t := s.workers[t].(phase := Acquiring(Some(won)))])
    case LearnAcquire(t) =>
      var w := s.workers[t];
      s.(workers := s.workers[t := if w.phase.outcome.value then w.(phase := Holding) else Abandoned(w)])
    case SendRefresh(t) => s.(workers := s.workers[t := s.workers[t].(phase := Refreshing(s.now, None))])
    case ExecuteRefresh(t) =>
      var w, ok := s.workers[t], Holds(s.key, s.now, t);
      s.(key := ExpireIfOwner(s.key, s.now, t, c.ttl),
         workers := s.workers[t := w.(phase := Refreshing(w.phase.sent, Some(ok)),
                                      confirmed := if ok then s.now else w.confirmed)])
    case LearnRefresh(t) =>
      var w := s.workers[t];
      s.(workers := s.workers[t := if w.phase.answer.value then w.(phase := Heartbeating(s.now)) else Abandoned(w)])
    case FinishHeartbeat(t) =>
      s.(workers := s.workers[t := s.workers[t].(phase := Sleeping(s.now), streaming := true)])
    case Quit(t) => s.(workers := s.workers[t := Abandoned(s.workers[t])])
    case ExecuteLate(t) =>
      s.(key := if s.workers[t].late.value.LateAcquire? then SetIfAbsent(s.key, s.now, t, c.ttl)
                else ExpireIfOwner(s.key, s.now, t, c.ttl),
         workers := s.workers[t := s.workers[t].(late := None)])
    case ExecuteRelease(t) => s.(key := DeleteIfOwner(s.key, s.now, t))
  }

  /** `steps` is a run of the protocol from the empty system, and ends in `s`. */
  ghost predicate Runs(c: Timing, steps: seq<Step>, s: System)
    decreases |steps|, 1
  {
    if steps == [] then s == INIT
    else exists r :: Before(c, steps, r) && s == Apply(c, r, steps[|steps| - 1])
  }

  ghost predicate Before(c: Timing, steps: seq<Step>, r: System)
    requires steps != []
    decreases |steps|, 0
  {
    Runs(c, steps[..|steps| - 1], r) && Enabled(c, r, steps[|steps| - 1])
  }

  ghost predicate Streaming(s: System, t: Token) {
    t in s.workers && s.workers[t].streaming
  }

  ghost predicate AtMostOneStreams(s: System) {
    forall t, u :: Streaming(s, t) && Streaming(s, u) ==> t == u
  }

  predicate Margin(c: Timing) {
    c.interval + 2 * c.timeout + c.heartbeat < c.ttl
  }

  // ---------------------------------------------------------------------------------------------
  // Safety

  ghost predicate Leased(c: Timing, s: System, t: Token, w: Worker) {
    && s.key.Some? && s.key.value.token == t
    && w.confirmed <= s.now && w.confirmed + c.ttl <= s.key.value.expiresAt
  }

  /** What a worker knows about its lease in each phase, counted from the last confirmation. */
  ghost predicate Sound(c: Timing, s: System, t: Token, w: Worker) {
    && OnTime(c, w, s.now)
    && (w.streaming ==> w.phase.Sleeping? || w.phase.Refreshing? || w.phase.Heartbeating?)
    && (match w.phase
        case Heartbeating(since) => Leased(c, s, t, w) && since <= w.confirmed + c.timeout
        case Sleeping(since) =>
          Leased(c, s, t, w) && w.streaming && since <= w.confirmed + c.timeout + c.heartbeat
        case Refreshing(sent, answer) =>
          && sent <= s.now
          && (w.streaming ==>
                Leased(c, s, t, w) && sent <= w.confirmed + c.timeout + c.heartbeat + c.interval)
          && (answer == Some(true) ==> Leased(c, s, t, w) && sent <= w.confirmed)
        case _ => true)
  }

  ghost predicate Inv(c: Timing, s: System) {
    forall t :: t in s.workers ==> Sound(c, s, t, s.workers[t])
  }

  /** The margin: a worker whose phase relies on the lease still has it. */
  lemma LeaseIsLive(c: Timing, s: System, t: Token)
    requires Margin(c) && Inv(c, s) && t in s.workers
    requires Streaming(s, t) || s.workers[t].phase.Heartbeating?
          || (s.workers[t].phase.Refreshing? && s.workers[t].phase.answer == Some(true))
    ensures Leased(c, s, t, s.workers[t]) && Holds(s.key, s.now, t)
  {
    assert Sound(c, s, t, s.workers[t]);
  }

  /** A step of one worker does not touch the lease another worker relies on. */
  lemma OthersAreSafe(c: Timing, s: System, step: Step, t: Token)
    requires Margin(c) && Inv(c, s) && Enabled(c, s, step) && !step.Tick?
    requires t in s.workers && t != step.t
    ensures var s' := Apply(c, s, step);
      t in s'.workers && s'.workers[t] == s.workers[t] && Sound(c, s', t, s.workers[t])
  {
    var w := s.workers[t];
    assert Sound(c, s, t, w);
    if Streaming(s, t) || w.phase.Heartbeating? || (w.phase.Refreshing? && w.phase.answer == Some(true)) {
      LeaseIsLive(c, s, t);
    }
  }

  lemma OwnStepIsSafe(c: Timing, s: System, step: Step)
    requires Margin(c) && Inv(c, s) && Enabled(c, s, step) && !step.Tick?
    ensures var s' := Apply(c, s, step);
      step.t in s'.workers && Sound(c, s', step.t, s'.workers[step.t])
  {
    var t := step.t;
    if t in s.workers {
      var w := s.workers[t];
      assert Sound(c, s, t, w);
      if Streaming(s, t) || w.phase.Heartbeating? || (w.phase.Refreshing? && w.phase.answer == Some(true)) {
        LeaseIsLive(c, s, t);
      }
    }
  }

  lemma StepKeepsInv(c: Timing, s: System, step: Step)
    requires Margin(c) && Inv(c, s) && Enabled(c, s, step)
    ensures Inv(c, Apply(c, s, step))
  {
    var s' := Apply(c, s, step);
    forall t | t in s'.workers
      ensures Sound(c, s', t, s'.workers[t])
    {
      if step.Tick? {
        assert Sound(c, s, t, s.workers[t]);
      } else if t == step.t {
        OwnStepIsSafe(c, s, step);
      } else {
        OthersAreSafe(c, s, step, t);
      }
    }
  }

  lemma {:induction false} RunKeepsInv(c: Timing, steps: seq<Step>, s: System)
    requires Margin(c) && Runs(c, steps, s)
    ensures Inv(c, s)
  {
    if steps != [] {
      var r :| Before(c, steps, r) && s == Apply(c, r, steps[|steps| - 1]);
      RunKeepsInv(c, steps[..|steps| - 1], r);
      StepKeepsInv(c, r, steps[|steps| - 1]);
    }
  }

  /**
   In every run, of any number of activations, a streaming worker's token is the stored, unexpired
   lease, and hence at most one worker streams.
   */
  lemma MutualExclusion(c: Timing, steps: seq<Step>, s: System)
    requires Margin(c) && Runs(c, steps, s)
    ensures forall t :: Streaming(s, t) ==> Holds(s.key, s.now, t)
    ensures AtMostOneStreams(s)
  {
    RunKeepsInv(c, steps, s);
    forall t | Streaming(s, t)
      ensures Holds(s.key, s.now, t)
    {
      LeaseIsLive(c, s, t);
    }
  }

  /** An abandoned stop is finalized, as the registry's script guards it, only when no worker streams. */
  lemma FinalizedOnlyWhenNobodyStreams(
      c: Timing, steps: seq<Step>, s: System, store: Registry.Store, id: string, expectedUpdatedAt: string)
    requires Margin(c) && Runs(c, steps, s)
    requires Registry.CanFinalize(store, id, Exists(s.key, s.now), expectedUpdatedAt)
    ensures forall t :: !Streaming(s, t)
  {
    MutualExclusion(c, steps, s);
  }

  // ---------------------------------------------------------------------------------------------
  // The margin is exact

  lemma Then(c: Timing, steps: seq<Step>, s: System, step: Step, s': System)
    requires Runs(c, steps, s) && Enabled(c, s, step) && s' == Apply(c, s, step)
    ensures Runs(c, steps + [step], s')
  {
    var longer := steps + [step];
    assert longer[..|longer| - 1] == steps;
    assert Before(c, longer, s);
  }

  /** An activation takes the free lease. */
  lemma Acquires(c: Timing, steps: seq<Step>, s: System, t: Token) returns (steps': seq<Step>, s': System)
    requires Runs(c, steps, s) && t !in s.workers && !Exists(s.key, s.now)
    ensures Runs(c, steps', s')
    ensures s' == System(s.now, Some(Lease(t, s.now + c.ttl)), s.workers[t := Worker(Holding, false, 0, None)])
  {
    var path := [SendAcquire(t), ExecuteAcquire(t), LearnAcquire(t)];
    var key, ws := Some(Lease(t, s.now + c.ttl)), s.workers;
    var states := [
      s,
      System(s.now, s.key, ws[t := Worker(Acquiring(None), false, 0, None)]),
      System(s.now, key, ws[t := Worker(Acquiring(Some(true)), false, 0, None)]),
      System(s.now, key, ws[t := Worker(Holding, false, 0, None)])];
    steps', s' := steps, s;
    for i := 0 to 3
      invariant Runs(c, steps', s') && s' == states[i]
    {
      assert Enabled(c, states[i], path[i]) && Apply(c, states[i], path[i]) == states[i + 1];
      Then(c, steps', s', path[i], states[i + 1]);
      steps', s' := steps' + [path[i]], states[i + 1];
    }
  }

  /** It sends its first refresh, whose reply takes a while. */
  lemma Verifies(c: Timing, steps: seq<Step>, s: System, t: Token, reply: nat) returns (steps': seq<Step>, s': System)
    requires Runs(c, steps, s) && t in s.workers && s.workers[t] == Worker(Holding, false, 0, None)
    requires s.key == Some(Lease(t, s.now + c.ttl)) && c.ttl > 0 && reply <= c.timeout
    requires forall u :: u in s.workers ==> OnTime(c, s.workers[u], s.now + reply)
    ensures Runs(c, steps', s')
    ensures s' == System(s.now + reply, s.key,
                         s.workers[t := Worker(Refreshing(s.now, Some(true)), false, s.now, None)])
  {
    var path := [SendRefresh(t), ExecuteRefresh(t), Tick(reply)];
    var states := [
      s,
      System(s.now, s.key, s.workers[t := Worker(Refreshing(s.now, None), false, 0, None)]),
      System(s.now, s.key, s.workers[t := Worker(Refreshing(s.now, Some(true)), false, s.now, None)]),
      System(s.now + reply, s.key, s.workers[t := Worker(Refreshing(s.now, Some(true)), false, s.now, None)])];
    steps', s' := steps, s;
    for i := 0 to 3
      invariant Runs(c, steps', s') && s' == states[i]
    {
      assert Enabled(c, states[i], path[i]) && Apply(c, states[i], path[i]) == states[i + 1];
      Then(c, steps', s', path[i], states[i + 1]);
      steps', s' := steps' + [path[i]], states[i + 1];
    }
  }

  /** It learns the reply, reports a heartbeat, and streams. */
  lemma Beats(c: Timing, steps: seq<Step>, s: System, t: Token, sent: nat, confirmed: nat, beat: nat)
    returns (steps': seq<Step>, s': System)
    requires Runs(c, steps, s) && t in s.workers && beat <= c.heartbeat
    requires s.workers[t] == Worker(Refreshing(sent, Some(true)), false, confirmed, None)
    requires forall u :: u in s.workers && u != t ==> OnTime(c, s.workers[u], s.now + beat)
    ensures Runs(c, steps', s')
    ensures s' == System(s.now + beat, s.key, s.workers[t := Worker(Sleeping(s.now + beat), true, confirmed, None)])
  {
    var w := Worker(Heartbeating(s.now), false, confirmed, None);
    var path := [LearnRefresh(t), Tick(beat), FinishHeartbeat(t)];
    var states := [
      s,
      s.(workers := s.workers[t := w]),
      s.(now := s.now + beat, workers := s.workers[t := w]),
      System(s.now + beat, s.key, s.workers[t := Worker(Sleeping(s.now + beat), true, confirmed, None)])];
    steps', s' := steps, s;
    for i := 0 to 3
      invariant Runs(c, steps', s') && s' == states[i]
    {
      assert Enabled(c, states[i], path[i]) && Apply(c, states[i], path[i]) == states[i + 1];
      Then(c, steps', s', path[i], states[i + 1]);
      steps', s' := steps' + [path[i]], states[i + 1];
    }
  }

  /** One activation: it takes the lease, verifies it, reports a heartbeat, and streams. */
  lemma Activates(c: Timing, steps: seq<Step>, s: System, t: Token, reply: nat, beat: nat)
    returns (steps': seq<Step>, s': System)
    requires Runs(c, steps, s) && t !in s.workers && !Exists(s.key, s.now) && c.ttl > 0
    requires reply <= c.timeout && beat <= c.heartbeat
    requires forall u :: u in s.workers ==> OnTime(c, s.workers[u], s.now + reply + beat)
    ensures Runs(c, steps', s') && s'.now == s.now + reply + beat
    ensures s'.key == Some(Lease(t, s.now + c.ttl))
    ensures s'.workers == s.workers[t := Worker(Sleeping(s'.now), true, s.now, None)]
  {
    steps', s' := Acquires(c, steps, s, t);
    steps', s' := Verifies(c, steps', s', t, reply);
    steps', s' := Beats(c, steps', s', t, s.now, s.now, beat);
  }

  /** The release of a worker that is over frees its lease: another activation has it at once. */
  lemma FailoverIsImmediate(c: Timing, steps: seq<Step>, s: System, t: Token, u: Token)
    returns (steps': seq<Step>, s': System)
    requires Runs(c, steps, s) && t in s.workers && u !in s.workers && c.ttl > 0
    requires s.workers[t].phase.Over? && Holds(s.key, s.now, t)
    ensures Runs(c, steps', s') && s'.now == s.now && Holds(s'.key, s'.now, u)
    ensures u in s'.workers && s'.workers[u].phase.Holding? && !Holds(s'.key, s'.now, t)
  {
    var freed := Apply(c, s, ExecuteRelease(t));
    assert freed == s.(key := None);
    Then(c, steps, s, ExecuteRelease(t), freed);
    steps', s' := Acquires(c, steps + [ExecuteRelease(t)], freed, u);
  }

  /** An answer decides: who acquired goes on to verify, who lost the race or the lease is over. */
  lemma AnswersDecide(c: Timing, s: System, t: Token)
    ensures Enabled(c, s, LearnAcquire(t)) ==>
      var after := Apply(c, s, LearnAcquire(t));
      && (after.workers[t].phase.Holding? <==> s.workers[t].phase.outcome.value)
      && (after.workers[t].phase.Over? <==> !s.workers[t].phase.outcome.value) && after.key == s.key
    ensures Enabled(c, s, LearnRefresh(t)) ==>
      var after := Apply(c, s, LearnRefresh(t));
      && (after.workers[t].phase == Heartbeating(s.now) <==> s.workers[t].phase.answer.value)
      && (after.workers[t].phase.Over? && !Streaming(after, t) <==> !s.workers[t].phase.answer.value) && after.key == s.key
    ensures Enabled(c, s, ExecuteAcquire(t)) ==>
      Apply(c, s, ExecuteAcquire(t)).workers[t].phase == Acquiring(Some(!Exists(s.key, s.now)))
    ensures Enabled(c, s, ExecuteRefresh(t)) ==>
      Apply(c, s, ExecuteRefresh(t)).workers[t].phase.answer == Some(Holds(s.key, s.now, t))
  {
  }

  /** A command its client has given up on does to the key what it would have done before. */
  lemma GivingUpRecallsNothing(c: Timing, s: System, t: Token)
    requires t in s.workers && (s.workers[t].phase == Acquiring(None)
             || (s.workers[t].phase.Refreshing? && s.workers[t].phase.answer.None?))
    ensures var gone := Apply(c, s, Quit(t));
      var inTime := if s.workers[t].phase.Acquiring? then ExecuteAcquire(t) else ExecuteRefresh(t);
      && gone.key == s.key && !Streaming(gone, t)
      && Enabled(c, s, inTime) && Enabled(c, gone, ExecuteLate(t))
      && Apply(c, gone, ExecuteLate(t)).key == Apply(c, s, inTime).key
  {
  }

  /** A streaming worker sends its next refresh just when the interval since its heartbeat is over. */
  lemma RefreshesAreSpaced(c: Timing, steps: seq<Step>, s: System, t: Token)
    requires Margin(c) && Runs(c, steps, s) && Enabled(c, s, SendRefresh(t)) && s.workers[t].phase.Sleeping?
    ensures s.now == s.workers[t].phase.since + c.interval
  {
    RunKeepsInv(c, steps, s);
    assert Sound(c, s, t, s.workers[t]);
  }

  /** Without the margin, two workers can stream at once. */
  lemma Overlap(c: Timing, a: Token, b: Token) returns (steps: seq<Step>, s: System)
    requires c.ttl > 0 && !Margin(c) && a != b
    ensures Runs(c, steps, s) && Streaming(s, a) && Streaming(s, b)
  {
    steps, s := Activates(c, [], INIT, a, c.timeout, c.heartbeat);
    var due := c.timeout + c.heartbeat + c.interval;
    var w := Worker(Refreshing(due, None), true, 0, None);
    assert s.workers == map[a := Worker(Sleeping(c.timeout + c.heartbeat), true, 0, None)];
    var awake, asked := s.(now := due), s.(now := due, workers := map[a := w]);
    Then(c, steps, s, Tick(c.interval), awake);
    Then(c, steps + [Tick(c.interval)], awake, SendRefresh(a), asked);
    steps := steps + [Tick(c.interval)] + [SendRefresh(a)];
    s := s.(now := due + c.timeout, workers := map[a := w]);
    Then(c, steps, asked, Tick(c.timeout), s);
    steps := steps + [Tick(c.timeout)];
    steps, s := Activates(c, steps, s, b, 0, 0);
  }

  /**
   At most one worker ever streams if and only if
   refresh interval + twice the refresh time-out + the bound on the heartbeat is below the TTL.
   */
  lemma MutualExclusionExact(c: Timing)
    requires c.ttl > 0
    ensures (forall steps, s :: Runs(c, steps, s) ==> AtMostOneStreams(s)) <==> Margin(c)
  {
    if Margin(c) {
      forall steps, s | Runs(c, steps, s)
        ensures AtMostOneStreams(s)
      {
        MutualExclusion(c, steps, s);
      }
    } else {
      var steps, s := Overlap(c, Token("a", 0), Token("b", 1));
      assert Runs(c, steps, s) && !AtMostOneStreams(s);
    }
  }

  /** With the repository's constants: exactly when the heartbeat call returns within ten seconds. */
  lemma RepositoryMutualExclusion(heartbeat: nat)
    ensures (forall steps, s :: Runs(RepositoryTiming(heartbeat), steps, s) ==> AtMostOneStreams(s))
       <==> heartbeat < 10_000
  {
    MutualExclusionExact(RepositoryTiming(heartbeat));
  }
}
