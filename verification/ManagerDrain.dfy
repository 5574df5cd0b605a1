/**
 Draining an instance (manager.py, `_start_local_worker`, `_run` and `stop_all`).

 Starts, finishing worker tasks and one `stop_all` interleave at their awaits; the manager's lock
 is a critical section. A task leaves the table in its own `finally`, except that a task cancelled
 before its first step never runs it and stays in the table although it is done.
 */
module ManagerDrain {

  type StreamId = string
  type TaskId = nat
  type StartId = nat

  datatype Start =
    | Waiting(stream: StreamId)      // has its lease, wants the manager's lock
    | Activating(stream: StreamId)   // past the check, awaiting Redis inside the lock
    | Ended(started: bool)

  datatype Drain =
    | NotBegun
    | FlagSet                        // stopping the reconciler, then waiting for the lock
    | Gathering(snapshot: set<TaskId>)
    | Returned

  datatype Owner = Nobody | StartOwner(start: StartId)

  datatype Manager = Manager(
    shuttingDown: bool,
    owner: Owner,
    tasks: map<StreamId, TaskId>,
    created: set<TaskId>,
    done: set<TaskId>,
    starts: map<StartId, Start>,
    drain: Drain)

  const INIT: Manager := Manager(false, Nobody, map[], {}, {}, map[], NotBegun)

  datatype Step =
    | Arrive(start: StartId, stream: StreamId)
    | Enter(start: StartId)                  // take the lock, check the flag and the table
    | GiveUp(start: StartId)                 // lease lost or an exception: leave the lock
    | Register(start: StartId, task: TaskId) // create a worker task, put it in the table, leave the lock
    | Finish(stream: StreamId)               // its own finally removes it from the table
    | FinishUnstarted(stream: StreamId)      // cancelled before its first step: done, still in the table
    | SetFlag
    | TakeSnapshot
    | GatherDone

  ghost predicate Enabled(m: Manager, s: Step) {
    match s
    case Arrive(x, _) => x !in m.starts
    case Enter(x) => x in m.starts && m.starts[x].Waiting? && m.owner.Nobody?
    case GiveUp(x) => x in m.starts && m.starts[x].Activating? && m.owner == StartOwner(x)
    case Register(x, t) =>
      x in m.starts && m.starts[x].Activating? && m.owner == StartOwner(x) && t !in m.created
    case Finish(stream) => stream in m.tasks && m.tasks[stream] !in m.done && m.owner.Nobody?
    case FinishUnstarted(stream) => stream in m.tasks && m.tasks[stream] !in m.done
    case SetFlag => m.drain.NotBegun?
    case TakeSnapshot => m.drain.FlagSet? && m.owner.Nobody?
    case GatherDone => m.drain.Gathering? && m.drain.snapshot <= m.done
  }

  ghost function Apply(m: Manager, s: Step): Manager
    requires Enabled(m, s)
  {
    match s
    case Arrive(x, stream) => m.(starts := m.starts[x := Waiting(stream)])
    case Enter(x) =>
      var stream := m.starts[x].stream;
      if m.shuttingDown || stream in m.tasks then m.(starts := m.starts[x := Ended(false)])
      else m.(owner := StartOwner(x), starts := m.starts[x := Activating(stream)])
    case GiveUp(x) => m.(owner := Nobody, starts := m.starts[x := Ended(false)])
    case Register(x, t) =>
      m.(owner := Nobody, created := m.created + {t}, tasks := m.tasks[m.starts[x].stream := t],
         starts := m.starts[x := Ended(true)])
    case Finish(stream) => m.(done := m.done + {m.tasks[stream]}, tasks := m.tasks - {stream})
    case FinishUnstarted(stream) => m.(done := m.done + {m.tasks[stream]})
    case SetFlag => m.(shuttingDown := true, drain := FlagSet)
    case TakeSnapshot => m.(drain := Gathering(m.tasks.Values))
    case GatherDone => m.(drain := Returned)
  }

  ghost predicate Behaviour(tr: seq<Manager>, steps: seq<Step>) {
    && |tr| == |steps| + 1 && tr[0] == INIT
    && forall i {:trigger steps[i]} :: 0 <= i < |steps| ==> Enabled(tr[i], steps[i]) && tr[i + 1] == Apply(tr[i], steps[i])
  }

  function Live(m: Manager): set<TaskId> {
    m.created - m.done
  }

  ghost predicate Inv(m: Manager) {
    // Tasks in the table and done tasks were created, and every task that is not done is in the table.
    && (forall stream :: stream in m.tasks ==> m.tasks[stream] in m.created) && m.done <= m.created
    && (forall t :: t in Live(m) ==> exists stream :: stream in m.tasks && m.tasks[stream] == t)
    // Only the lock's holder is past its check, and its stream is still free.
    && (forall x :: x in m.starts && m.starts[x].Activating? ==>
          m.owner == StartOwner(x) && m.starts[x].stream !in m.tasks)
    && (m.owner.StartOwner? ==> m.owner.start in m.starts && m.starts[m.owner.start].Activating?)
    && (m.shuttingDown <==> !m.drain.NotBegun?)
    // Since the snapshot nobody is past its check, and what lives is in the snapshot.
    && (m.drain.Gathering? || m.drain.Returned? ==> m.owner.Nobody?)
    && (m.drain.Gathering? ==> Live(m) <= m.drain.snapshot)
    && (m.drain.Returned? ==> Live(m) == {})
  }

  lemma LiveTasksStayInTheTable(m: Manager, s: Step)
    requires Inv(m) && Enabled(m, s)
    ensures var m' := Apply(m, s);
      forall t :: t in Live(m') ==> exists stream :: stream in m'.tasks && m'.tasks[stream] == t
  {
    var m' := Apply(m, s);
    forall t | t in Live(m')
      ensures exists stream :: stream in m'.tasks && m'.tasks[stream] == t
    {
      if s.Register? && t == s.task {
        assert m'.tasks[m.starts[s.start].stream] == t;
      } else {
        assert t in Live(m);
        var stream :| stream in m.tasks && m.tasks[stream] == t;
        assert stream in m'.tasks && m'.tasks[stream] == t;
      }
    }
  }

  lemma StepKeepsInv(m: Manager, s: Step)
    requires Inv(m) && Enabled(m, s)
    ensures Inv(Apply(m, s))
  {
    LiveTasksStayInTheTable(m, s);
    var m' := Apply(m, s);
    if s.TakeSnapshot? {
      assert Live(m') <= m.tasks.Values;
    }
  }

  lemma {:induction false} Invariant(tr: seq<Manager>, steps: seq<Step>, i: nat)
    requires Behaviour(tr, steps) && i < |tr|
    ensures Inv(tr[i])
  {
    if i > 0 {
      Invariant(tr, steps, i - 1);
      StepKeepsInv(tr[i - 1], steps[i - 1]);
    }
  }

  /**
   In every interleaving of starts with `stop_all`: when it has returned, every worker task ever
   created is done; and from its snapshot on, none is created.
   */
  lemma {:induction false} DrainLeavesNoLiveWorker(tr: seq<Manager>, steps: seq<Step>, i: nat, j: nat)
    requires Behaviour(tr, steps) && i <= j < |tr|
    requires tr[i].drain.Gathering? || tr[i].drain.Returned?
    ensures tr[j].created == tr[i].created
    ensures tr[j].drain.Gathering? || tr[j].drain.Returned?
    ensures tr[j].drain.Returned? ==> tr[j].created <= tr[j].done
    decreases j
  {
    Invariant(tr, steps, j);
    if i < j {
      DrainLeavesNoLiveWorker(tr, steps, i, j - 1);
      Invariant(tr, steps, j - 1);
      assert tr[j] == Apply(tr[j - 1], steps[j - 1]);
    }
    if tr[j].drain.Returned? {
      assert forall t :: t in tr[j].created && t !in tr[j].done ==> t in Live(tr[j]);
    }
  }

  /** A start that had passed its check before the flag was set is still caught by the drain. */
  lemma LateRegistrationIsDrained(tr: seq<Manager>, steps: seq<Step>, i: nat, j: nat)
    requires Behaviour(tr, steps) && i < j < |tr| && steps[i].Register? && tr[i].shuttingDown
    requires tr[j].drain.Returned?
    ensures steps[i].task in tr[j].done
    ensures tr[i].drain.FlagSet?
  {
    Invariant(tr, steps, i);
    DrainLeavesNoLiveWorker(tr, steps, j, j);
    CreatedStays(tr, steps, i + 1, j);
  }

  lemma {:induction false} CreatedStays(tr: seq<Manager>, steps: seq<Step>, i: nat, j: nat)
    requires Behaviour(tr, steps) && i <= j < |tr|
    ensures tr[i].created <= tr[j].created
    decreases j
  {
    if i < j {
      CreatedStays(tr, steps, i, j - 1);
      assert tr[j] == Apply(tr[j - 1], steps[j - 1]);
    }
  }

  // ---------------------------------------------------------------------------------------------
  // The states read off the history

  /** The worker task `t` was created in one of these steps. */
  ghost predicate WasRegistered(steps: seq<Step>, t: TaskId) {
    exists k :: 0 <= k < |steps| && steps[k].Register? && steps[k].task == t
  }

  /** In one of the first i steps the task that was the stream's finished. */
  ghost predicate HasFinished(tr: seq<Manager>, steps: seq<Step>, i: nat, t: TaskId)
    requires i <= |steps| && |tr| == |steps| + 1
  {
    exists k :: 0 <= k < i && (steps[k].Finish? || steps[k].FinishUnstarted?)
                && steps[k].stream in tr[k].tasks && tr[k].tasks[steps[k].stream] == t
  }

  /** The created tasks are those that were registered, and the flag is set once the drain has set it. */
  lemma {:induction false} CreatedAreRegistered(tr: seq<Manager>, steps: seq<Step>, i: nat)
    requires Behaviour(tr, steps) && i < |tr|
    ensures tr[i].shuttingDown <==> SetFlag in steps[..i]
    ensures forall t :: t in tr[i].created <==> WasRegistered(steps[..i], t)
  {
    if i > 0 {
      CreatedAreRegistered(tr, steps, i - 1);
      var before, step := steps[..i - 1], steps[i - 1];
      assert steps[..i] == before + [step];
      assert tr[i] == Apply(tr[i - 1], step);
      forall t
        ensures WasRegistered(before + [step], t) <==> WasRegistered(before, t) || (step.Register? && step.task == t)
      {
        RegisteredEarlier(before, step, t);
      }
    }
  }

  lemma RegisteredEarlier(before: seq<Step>, step: Step, t: TaskId)
    ensures WasRegistered(before + [step], t) <==> WasRegistered(before, t) || (step.Register? && step.task == t)
  {
    if step.Register? && step.task == t {
      assert (before + [step])[|before|] == step;
    }
    if WasRegistered(before, t) {
      var k :| 0 <= k < |before| && before[k].Register? && before[k].task == t;
      assert (before + [step])[k] == before[k];
    }
  }

  /** The done tasks are those that finished. */
  lemma {:induction false} DoneAreFinished(tr: seq<Manager>, steps: seq<Step>, i: nat)
    requires Behaviour(tr, steps) && i < |tr|
    ensures forall t :: t in tr[i].done <==> HasFinished(tr, steps, i, t)
  {
    if i > 0 {
      DoneAreFinished(tr, steps, i - 1);
      assert tr[i] == Apply(tr[i - 1], steps[i - 1]) && Enabled(tr[i - 1], steps[i - 1]);
    }
  }

  /** A stream is in the table from its registration until its task removes it itself. */
  lemma TableAfterStep(tr: seq<Manager>, steps: seq<Step>, n: nat, stream: StreamId)
    requires Behaviour(tr, steps) && n < |steps|
    ensures var m, m', step := tr[n], tr[n + 1], steps[n];
      var registers := step.Register? && m.starts[step.start].stream == stream;
      && (stream in m'.tasks <==> registers || (stream in m.tasks && step != Finish(stream)))
      && (stream in m'.tasks ==> m'.tasks[stream] == if registers then step.task else m.tasks[stream])
  {
    Invariant(tr, steps, n);
    assert tr[n + 1] == Apply(tr[n], steps[n]) && Enabled(tr[n], steps[n]);
  }

  /** A start that arrives waits for the lock, and may enter whenever the lock is free. */
  lemma ArrivalsWait(m: Manager, x: StartId, stream: StreamId)
    requires Enabled(m, Arrive(x, stream))
    ensures var m' := Apply(m, Arrive(x, stream));
      && m' == m.(starts := m'.starts) && m'.starts == m.starts[x := Waiting(stream)]
      && (Enabled(m', Enter(x)) <==> m.owner.Nobody?)
  {
  }

  /** A start that meets no shutdown and a free stream gets its task; one that meets either does not. */
  lemma StartsAreDecidedInside(m: Manager, x: StartId, t: TaskId)
    requires Inv(m) && Enabled(m, Enter(x)) && t !in m.created
    ensures var stream, inside := m.starts[x].stream, Apply(m, Enter(x));
      if m.shuttingDown || stream in m.tasks then
        inside == m.(starts := m.starts[x := Ended(false)])
      else
        && inside.owner == StartOwner(x) && Enabled(inside, Register(x, t)) && Enabled(inside, GiveUp(x))
        && var started, gone := Apply(inside, Register(x, t)), Apply(inside, GiveUp(x));
           && started.owner.Nobody? && started.starts[x] == Ended(true)
           && started.tasks == m.tasks[stream := t] && Live(started) == Live(m) + {t}
           && gone == m.(starts := m.starts[x := Ended(false)])
  {
    assert t !in m.done;
    assert Live(m.(created := m.created + {t})) == Live(m) + {t};
  }

  /** A drain whose snapshot is done returns; until then it waits. */
  lemma DrainReturnsWhenDone(m: Manager)
    requires Inv(m) && Enabled(m, TakeSnapshot)
    ensures var waiting := Apply(m, TakeSnapshot);
      && waiting.drain == Gathering(m.tasks.Values) && Live(m) <= m.tasks.Values
      && (Enabled(waiting, GatherDone) <==> m.tasks.Values <= m.done)
      && (Enabled(waiting, GatherDone) ==> Apply(waiting, GatherDone).drain.Returned? && Live(m) == {})
  {
    assert Live(m) <= m.tasks.Values;
  }
}
