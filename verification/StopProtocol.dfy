/**
 Stop requests across instances (manager.py, stream_registry.py), for one stream.

 A stop request is a key every instance can read. An adoption checks it after taking the lease; a
 first start never checks it, but needs the unclaimed subreddit. Running workers poll it. Between
 a check and the creation of the worker task lie several awaits, so a worker may still appear
 after the request: the question is how many.
 */
module StopProtocol {

  type ActivationId = nat

  datatype State = State(
    claimed: bool,                   // the subreddit key exists
    stopKey: bool,
    checking: set<ActivationId>,     // adoptions that have not yet looked at the stop key
    committed: set<ActivationId>,    // starts of either kind past the point where it could stop them
    running: set<ActivationId>)      // worker tasks, on all instances

  datatype Step =
    | Adopt(x: ActivationId)
    | Check(x: ActivationId)         // is_stop_requested after the lease was acquired
    | Create(x: ActivationId)        // create_stream claims the subreddit
    | Complete(x: ActivationId)      // the worker task exists
    | Abort(x: ActivationId)         // lock contended, lease lost, shutting down, crash
    | Poll(x: ActivationId)          // the stop watcher looks at the key
    | Exit(x: ActivationId)          // cancelled locally, lease lost, failed, crashed
    | StoreStop
    | Delete                         // the script removes entry, claim and stop key together

  const INIT: State := State(false, false, {}, {}, {})

  ghost predicate Enabled(s: State, step: Step) {
    match step
    case Adopt(x) => x !in s.checking + s.committed + s.running
    case Check(x) => x in s.checking
    case Create(x) => x !in s.checking + s.committed + s.running && !s.claimed
    case Complete(x) => x in s.committed
    case Abort(x) => x in s.checking || x in s.committed
    case Poll(x) => x in s.running
    case Exit(x) => x in s.running
    case StoreStop => true
    case Delete => s.claimed
  }

  ghost function Apply(s: State, step: Step): State
    requires Enabled(s, step)
  {
    match step
    case Adopt(x) => s.(checking := s.checking + {x})
    case Check(x) =>
      if s.stopKey then s.(checking := s.checking - {x})
      else s.(checking := s.checking - {x}, committed := s.committed + {x})
    case Create(x) => s.(claimed := true, committed := s.committed + {x})
    case Complete(x) => s.(committed := s.committed - {x}, running := s.running + {x})
    case Abort(x) => s.(checking := s.checking - {x}, committed := s.committed - {x})
    case Poll(x) => if s.stopKey then s.(running := s.running - {x}) else s
    case Exit(x) => s.(running := s.running - {x})
    case StoreStop => s.(stopKey := true)
    case Delete => s.(claimed := false, stopKey := false)
  }

  ghost predicate Behaviour(tr: seq<State>, steps: seq<Step>) {
    && |tr| == |steps| + 1 && tr[0] == INIT
    && forall i {:trigger steps[i]} :: 0 <= i < |steps| ==> Enabled(tr[i], steps[i]) && tr[i + 1] == Apply(tr[i], steps[i])
  }

  /** What is left to happen before nobody runs: a committed start still has to start and to stop. */
  ghost function Outstanding(s: State): nat {
    2 * |s.committed| + |s.running|
  }

  /** The steps that bring a stop forward: completed starts and polls of running workers. */
  predicate IsProgress(step: Step) {
    step.Complete? || step.Poll?
  }

  function Progress(steps: seq<Step>, i: nat, j: nat): nat
    requires i <= j <= |steps|
    decreases j
  {
    if i == j then 0 else Progress(steps, i, j - 1) + if IsProgress(steps[j - 1]) then 1 else 0
  }

  ghost predicate Undeleted(steps: seq<Step>, i: nat, j: nat)
    requires i <= j <= |steps|
  {
    forall k :: i <= k < j ==> !steps[k].Delete?
  }

  lemma RemovingOne(a: set<ActivationId>, x: ActivationId)
    ensures |a - {x}| == if x in a then |a| - 1 else |a|
    ensures |a + {x}| == if x in a then |a| else |a| + 1
  {
    if x in a {
      assert a == (a - {x}) + {x};
      assert a + {x} == a;
    } else {
      assert a - {x} == a;
    }
  }

  lemma StepCosts(s: State, step: Step)
    requires s.claimed && s.stopKey && Enabled(s, step) && !step.Delete?
    ensures var s' := Apply(s, step);
      s'.claimed && s'.stopKey && Outstanding(s') + (if IsProgress(step) then 1 else 0) <= Outstanding(s)
  {
    if !step.StoreStop? {
      RemovingOne(s.committed, step.x);
      RemovingOne(s.running, step.x);
    }
  }

  /**
   From the moment the stop key is stored for a claimed subreddit until its entry is deleted,
   2 * (committed starts) + (running workers) never grows, and every completed start and every
   watcher poll of a running worker lowers it.
   */
  lemma {:induction false} StopNeverLosesGround(tr: seq<State>, steps: seq<Step>, i: nat, j: nat)
    requires Behaviour(tr, steps) && i <= j < |tr| && Undeleted(steps, i, j)
    requires tr[i].claimed && tr[i].stopKey
    ensures tr[j].claimed && tr[j].stopKey
    ensures Outstanding(tr[j]) + Progress(steps, i, j) <= Outstanding(tr[i])
    decreases j
  {
    if i < j {
      StopNeverLosesGround(tr, steps, i, j - 1);
      var step := steps[j - 1];
      assert !step.Delete? && tr[j] == Apply(tr[j - 1], step);
      StepCosts(tr[j - 1], step);
    }
  }

  /** So the stop wins: once that many steps were taken, nobody runs or can come to run. */
  lemma StopWins(tr: seq<State>, steps: seq<Step>, i: nat, j: nat, k: nat)
    requires Behaviour(tr, steps) && i <= j <= k < |tr| && Undeleted(steps, i, k)
    requires tr[i].claimed && tr[i].stopKey && Progress(steps, i, j) >= Outstanding(tr[i])
    ensures tr[k].committed == {} && tr[k].running == {}
  {
    StopNeverLosesGround(tr, steps, i, j);
    StopNeverLosesGround(tr, steps, j, k);
  }

  /** Before the deletion the bound is sharp: a worker can still appear after the request. */
  lemma AStartMayOutliveTheRequest() returns (tr: seq<State>, steps: seq<Step>)
    ensures Behaviour(tr, steps) && |steps| == 3 && steps[1].StoreStop?
    ensures tr[2].claimed && tr[2].stopKey && tr[2].running == {} && tr[3].running != {}
  {
    steps := [Create(0), StoreStop, Complete(0)];
    tr := [INIT, State(true, false, {}, {0}, {}), State(true, true, {}, {0}, {}), State(true, true, {}, {}, {0})];
    assert Apply(tr[2], steps[2]).committed == {};
  }

  /** So can one that was adopted: the adoption looked at the stop key before it was stored. */
  lemma AnAdoptionMayOutliveTheRequest() returns (tr: seq<State>, steps: seq<Step>)
    ensures Behaviour(tr, steps) && |steps| == 7 && steps[3].Adopt? && steps[5].StoreStop?
    ensures tr[6].claimed && tr[6].stopKey && tr[6].running == {} && tr[7].running == {steps[3].x}
  {
    steps := [Create(0), Complete(0), Exit(0), Adopt(1), Check(1), StoreStop, Complete(1)];
    tr := [INIT, State(true, false, {}, {0}, {}), State(true, false, {}, {}, {0}), State(true, false, {}, {}, {}),
           State(true, false, {1}, {}, {}), State(true, false, {}, {1}, {}), State(true, true, {}, {1}, {}),
           State(true, true, {}, {}, {1})];
    assert Apply(tr[1], steps[1]) == tr[2] && Apply(tr[2], steps[2]) == tr[3];
    assert Apply(tr[4], steps[4]) == tr[5] && Apply(tr[6], steps[6]) == tr[7];
  }

  // ---------------------------------------------------------------------------------------------
  // When a stop request keeps new workers out

  ghost predicate Disjoint(s: State) {
    s.checking !! s.committed && s.checking !! s.running && s.committed !! s.running
  }

  /** An activation is in one phase at a time. */
  lemma {:induction false} PhasesAreDisjoint(tr: seq<State>, steps: seq<Step>, i: nat)
    requires Behaviour(tr, steps) && i < |tr|
    ensures Disjoint(tr[i])
  {
    if i > 0 {
      PhasesAreDisjoint(tr, steps, i - 1);
      assert tr[i] == Apply(tr[i - 1], steps[i - 1]);
    }
  }

  /** Once nobody is committed, nobody can come to run before the deletion. */
  lemma {:induction false} NobodyElseComesToRun(tr: seq<State>, steps: seq<Step>, i: nat, j: nat)
    requires Behaviour(tr, steps) && i <= j < |tr| && Undeleted(steps, i, j)
    requires tr[i].claimed && tr[i].stopKey && tr[i].committed == {}
    ensures tr[j].claimed && tr[j].stopKey && tr[j].committed == {} && tr[j].running <= tr[i].running
    decreases j
  {
    if i < j {
      NobodyElseComesToRun(tr, steps, i, j - 1);
      var step := steps[j - 1];
      assert !step.Delete? && tr[j] == Apply(tr[j - 1], step);
    }
  }

  /** A run that goes on from the end of another one, without the deletion. */
  ghost predicate Continues(tr: seq<State>, steps: seq<Step>, tr': seq<State>, steps': seq<Step>) {
    Behaviour(tr', steps') && tr <= tr' && steps <= steps' && Undeleted(steps', |steps|, |steps'|)
  }

  /**
   After a stop request, in any reached state, no new worker can appear before the deletion if and
   only if no start is committed: neither a first start, which never looks at the stop key, nor an
   adoption that looked before the key was stored.
   */
  lemma NoNewWorkerExactlyWhen(tr: seq<State>, steps: seq<Step>)
    requires Behaviour(tr, steps) && tr[|steps|].claimed && tr[|steps|].stopKey
    ensures (forall tr': seq<State>, steps': seq<Step> :: Continues(tr, steps, tr', steps') ==> tr'[|steps'|].running <= tr[|steps|].running)
            <==> tr[|steps|].committed == {}
  {
    var s := tr[|steps|];
    if s.committed == {} {
      forall tr': seq<State>, steps': seq<Step> | Continues(tr, steps, tr', steps')
        ensures tr'[|steps'|].running <= s.running
      {
        NobodyElseComesToRun(tr', steps', |steps|, |steps'|);
      }
    } else {
      PhasesAreDisjoint(tr, steps, |steps|);
      var x :| x in s.committed;
      var tr', steps' := tr + [Apply(s, Complete(x))], steps + [Complete(x)];
      assert Continues(tr, steps, tr', steps');
      assert x in tr'[|steps'|].running && x !in s.running;
    }
  }

  // ---------------------------------------------------------------------------------------------
  // The states read off the history

  /** The entry exists: it was created and not deleted since. */
  function IsClaimed(steps: seq<Step>): bool {
    steps != [] &&
    var last := steps[|steps| - 1];
    last.Create? || (!last.Delete? && IsClaimed(steps[..|steps| - 1]))
  }

  /** A stop is requested: the key was stored and the entry not deleted since. */
  function IsStopRequested(steps: seq<Step>): bool {
    steps != [] &&
    var last := steps[|steps| - 1];
    last.StoreStop? || (!last.Delete? && IsStopRequested(steps[..|steps| - 1]))
  }

  datatype Stage = Idle | Checking | Committed | Working

  /** The life of one activation, from its own steps and the stop requests it meets. */
  function StageOf(x: ActivationId, steps: seq<Step>): Stage {
    if steps == [] then Idle
    else
      var before, last := steps[..|steps| - 1], steps[|steps| - 1];
      match last
      case Adopt(y) => if y == x then Checking else StageOf(x, before)
      case Check(y) => if y == x then (if IsStopRequested(before) then Idle else Committed) else StageOf(x, before)
      case Create(y) => if y == x then Committed else StageOf(x, before)
      case Complete(y) => if y == x then Working else StageOf(x, before)
      case Abort(y) => if y == x then Idle else StageOf(x, before)
      case Poll(y) => if y == x && IsStopRequested(before) then Idle else StageOf(x, before)
      case Exit(y) => if y == x then Idle else StageOf(x, before)
      case _ => StageOf(x, before)
  }

  /** Every state is what its history says: claim, stop key, and the stage of each activation. */
  lemma {:induction false} StatesAreHistories(tr: seq<State>, steps: seq<Step>, i: nat)
    requires Behaviour(tr, steps) && i < |tr|
    ensures tr[i].claimed <==> IsClaimed(steps[..i])
    ensures tr[i].stopKey <==> IsStopRequested(steps[..i])
    ensures forall x :: x in tr[i].checking <==> StageOf(x, steps[..i]).Checking?
    ensures forall x :: x in tr[i].committed <==> StageOf(x, steps[..i]).Committed?
    ensures forall x :: x in tr[i].running <==> StageOf(x, steps[..i]).Working?
  {
    if i > 0 {
      StatesAreHistories(tr, steps, i - 1);
      PhasesAreDisjoint(tr, steps, i - 1);
      assert steps[..i][..i - 1] == steps[..i - 1];
      assert tr[i] == Apply(tr[i - 1], steps[i - 1]) && Enabled(tr[i - 1], steps[i - 1]);
    }
  }
}
