/**
 The worker of `StreamWorkers` is a worker of `CheckpointSafety`. `RunSteps` are the protocol's steps
 a run of the worker takes, those of everybody else interleaved wherever it awaits; if whatever the
 others do is possible when its turn comes, the whole is a run of the protocol, so that the
 protocol's theorems are about the worker.
 */
module WorkerRefinement {
  import opened Common
  import opened DeliveryWait
  import opened CheckpointSafety
  import CB = CircuitBreakers
  import SW = StreamWorkers

  // ---------------------------------------------------------------------------------------------
  // Steps of the world

  /** `steps` lead from `g` to `g'`. */
  ghost predicate Path(g: World, steps: seq<Step>, g': World)
    decreases |steps|
  {
    if steps == [] then g' == g
    else Enabled(g, steps[0]) && Path(Apply(g, steps[0]), steps[1..], g')
  }

  lemma {:induction false} PathsCompose(g: World, steps: seq<Step>, h: World, more: seq<Step>, k: World)
    requires Path(g, steps, h) && Path(h, more, k)
    ensures Path(g, steps + more, k)
    decreases |steps|
  {
    if steps == [] {
      assert steps + more == more;
    } else {
      PathsCompose(Apply(g, steps[0]), steps[1..], h, more, k);
      assert (steps + more)[1..] == steps[1..] + more;
    }
  }

  lemma OneStep(g: World, step: Step)
    requires Enabled(g, step)
    ensures Path(g, [step], Apply(g, step))
  {
    assert [step][1..] == [];
  }

  /** Whatever leads on from a reached world is part of a longer run. */
  lemma {:induction false} PathsAreRuns(tr: seq<World>, past: seq<Step>, steps: seq<Step>, g': World)
    returns (tr': seq<World>)
    requires Behaviour(tr, past) && Path(tr[|past|], steps, g')
    ensures Behaviour(tr', past + steps) && tr <= tr' && tr'[|past + steps|] == g'
    decreases |steps|
  {
    if steps == [] {
      assert past + steps == past;
      tr' := tr;
    } else {
      var next := Apply(tr[|past|], steps[0]);
      tr' := PathsAreRuns(tr + [next], past + [steps[0]], steps[1..], g');
      assert past + [steps[0]] + steps[1..] == past + steps;
    }
  }

  predicate OwnedBy(step: Step, w: nat) {
    match step
    case Start(v, _) => v == w
    case Produce(f, _, _) => f.worker == w
    case Refuse(v) => v == w
    case Confirm(v, _) => v == w
    case FinishSave(v) => v == w
    case Leave(v) => v == w
    case ShutdownRead(v) => v == w
    case ShutdownWrite(v) => v == w
    case _ => false
  }

  /** Every step that is not the worker's own is possible when its turn comes. */
  ghost predicate OthersCan(g: World, steps: seq<Step>, w: nat)
    decreases |steps|
  {
    steps != [] ==>
      && (OwnedBy(steps[0], w) || Enabled(g, steps[0]))
      && (Enabled(g, steps[0]) ==> OthersCan(Apply(g, steps[0]), steps[1..], w))
  }

  lemma {:induction false} OthersCanFirst(g: World, steps: seq<Step>, more: seq<Step>, w: nat)
    requires OthersCan(g, steps + more, w)
    ensures OthersCan(g, steps, w)
    decreases |steps|
  {
    if steps != [] && Enabled(g, steps[0]) {
      assert (steps + more)[1..] == steps[1..] + more;
      OthersCanFirst(Apply(g, steps[0]), steps[1..], more, w);
    }
  }

  lemma {:induction false} OthersCanThen(g: World, steps: seq<Step>, h: World, more: seq<Step>, w: nat)
    requires OthersCan(g, steps + more, w) && Path(g, steps, h)
    ensures OthersCan(h, more, w)
    decreases |steps|
  {
    if steps == [] {
      assert steps + more == more;
    } else {
      assert (steps + more)[1..] == steps[1..] + more;
      OthersCanThen(Apply(g, steps[0]), steps[1..], h, more, w);
    }
  }

  // ---------------------------------------------------------------------------------------------
  // One worker in the world

  function ProducedComments(log: seq<SW.Happening>): seq<string> {
    if log == [] then []
    else
      var last := log[|log| - 1];
      ProducedComments(log[..|log| - 1]) + if last.Produced? then [last.comment] else []
  }

  function StoredIn(g: World, stream: string): Option<string> {
    if stream in g.redis then Some(g.redis[stream]) else None
  }

  /** In the world `g`, the worker has the data `d` and is in this phase. */
  ghost predicate MirrorsIn(g: World, s: SW.Settings, d: SW.Data, phase: Phase) {
    && s.id in g.workers
    && g.workers[s.id].stream == s.stream && g.workers[s.id].phase == phase
    && g.workers[s.id].comments == ProducedComments(d.log) && |g.workers[s.id].comments| == d.produced
    && g.reports == d.futures
    && StoredIn(g, s.stream) == d.stored
    && (d.status.Running? ==>
          d.sinceCheckpoint <= d.produced && g.workers[s.id].batchStart == d.produced - d.sinceCheckpoint)
  }

  ghost predicate Mirrors(g: World, s: SW.Settings, d: SW.Data) {
    MirrorsIn(g, s, d, if d.status.Running? then Running else Gone)
  }

  lemma Logging(log: seq<SW.Happening>, h: SW.Happening)
    ensures ProducedComments(log + [h]) == ProducedComments(log) + if h.Produced? then [h.comment] else []
  {
    assert (log + [h])[..|log|] == log;
  }

  // ---------------------------------------------------------------------------------------------
  // Others

  predicate ByOthers(steps: seq<Step>, w: nat) {
    forall i :: 0 <= i < |steps| ==> !OwnedBy(steps[i], w)
  }

  /** Any step that is not the worker's own is, for the worker, what it notices of it. */
  lemma OthersAreSimulated(g: World, s: SW.Settings, d: SW.Data, phase: Phase, step: Step)
    requires MirrorsIn(g, s, d, phase) && Enabled(g, step) && !OwnedBy(step, s.id)
    ensures MirrorsIn(Apply(g, step), s, SW.Notice(s, d, step), phase)
    ensures Apply(g, step).workers[s.id] == g.workers[s.id]
  {
  }

  lemma {:induction false} MeanwhileIsSimulated(g: World, s: SW.Settings, d: SW.Data, phase: Phase, m: SW.Meanwhile)
    returns (g': World)
    requires MirrorsIn(g, s, d, phase) && ByOthers(m, s.id) && OthersCan(g, m, s.id)
    ensures Path(g, m, g') && MirrorsIn(g', s, SW.Interfere(s, d, m), phase)
    ensures s.id in g'.workers && g'.workers[s.id] == g.workers[s.id]
    decreases |m|
  {
    g' := g;
    if m != [] {
      OthersAreSimulated(g, s, d, phase, m[0]);
      g' := MeanwhileIsSimulated(Apply(g, m[0]), s, SW.Notice(s, d, m[0]), phase, m[1..]);
    }
  }

  // ---------------------------------------------------------------------------------------------
  // The wait

  function ReportSteps(cbs: seq<Callback>): seq<Step> {
    if cbs == [] then [] else ReportSteps(cbs[..|cbs| - 1]) + [Report(cbs[|cbs| - 1])]
  }

  function WaitStepsFrom(own: seq<Future>, fs: Futures, pending: set<Future>, remaining: real, s: Script, n: nat): seq<Step>
    requires pending != {}
    decreases Budget(pending, remaining)
  {
    RoundsCost(own, fs, pending, remaining, s, n);
    var r := PlayRound(own, fs, pending, remaining, s, n);
    (if PollOnce(own, fs, pending, remaining, s.polls(n)).Continues? then ReportSteps(s.awaits(n).callbacks) else [])
    + (if r.Continues? then WaitStepsFrom(own, r.futures, r.pending, r.remaining, s, n + 1) else [])
  }

  function WaitSteps(own: seq<Future>, fs: Futures, timeout: real, s: Script): seq<Step> {
    if own == [] then []
    else
      assert own[0] in ToSet(own);
      WaitStepsFrom(own, fs, ToSet(own), timeout, s, 0)
  }

  lemma {:induction false} ReportsAreSimulated(g: World, cbs: seq<Callback>)
    ensures Path(g, ReportSteps(cbs), g.(reports := CompleteAll(g.reports, cbs)))
  {
    if cbs != [] {
      var init, last := cbs[..|cbs| - 1], Report(cbs[|cbs| - 1]);
      var h := g.(reports := CompleteAll(g.reports, init));
      ReportsAreSimulated(g, init);
      OneStep(h, last);
      PathsCompose(g, ReportSteps(init), h, [last], Apply(h, last));
    }
  }

  lemma {:induction false} RoundsAreSimulated(
      g: World, own: seq<Future>, pending: set<Future>, remaining: real, s: Script, n: nat)
    requires pending != {}
    ensures Path(g, WaitStepsFrom(own, g.reports, pending, remaining, s, n),
                 g.(reports := WaitFrom(own, g.reports, pending, remaining, s, n).futures))
    decreases Budget(pending, remaining)
  {
    RoundsCost(own, g.reports, pending, remaining, s, n);
    var r := PlayRound(own, g.reports, pending, remaining, s, n);
    var h := g.(reports := r.futures);
    var first := if PollOnce(own, g.reports, pending, remaining, s.polls(n)).Continues?
                 then ReportSteps(s.awaits(n).callbacks) else [];
    ReportsAreSimulated(g, s.awaits(n).callbacks);
    assert Path(g, first, h);
    if r.Continues? {
      RoundsAreSimulated(h, own, r.pending, r.remaining, s, n + 1);
      PathsCompose(g, first, h, WaitStepsFrom(own, r.futures, r.pending, r.remaining, s, n + 1),
                   g.(reports := WaitFrom(own, g.reports, pending, remaining, s, n).futures));
    } else {
      assert first + [] == first;
    }
  }

  lemma WaitIsSimulated(g: World, own: seq<Future>, timeout: real, s: Script)
    ensures Path(g, WaitSteps(own, g.reports, timeout, s), g.(reports := Wait(own, g.reports, timeout, s).futures))
  {
    if own != [] {
      assert own[0] in ToSet(own);
      RoundsAreSimulated(g, own, ToSet(own), timeout, s, 0);
    }
  }

  // ---------------------------------------------------------------------------------------------
  // One comment

  /** A delivery failure or a cancellation. */
  lemma LeavingIsSimulated(g: World, s: SW.Settings, d: SW.Data, phase: Phase)
    requires MirrorsIn(g, s, d, phase)
    ensures Path(g, [Leave(s.id)], Apply(g, Leave(s.id)))
    ensures Mirrors(Apply(g, Leave(s.id)), s, SW.Break(d)) && Mirrors(Apply(g, Leave(s.id)), s, SW.Interrupt(d))
  {
    Logging(d.log, SW.DeliveryFailure);
    Logging(d.log, SW.Interruption);
    OneStep(g, Leave(s.id));
  }

  lemma ConfirmingIsSimulated(g: World, s: SW.Settings, d: SW.Data, comment: string)
    requires MirrorsIn(g, s, d, Waiting) && Enabled(g, Confirm(s.id, comment))
    ensures var g' := Apply(g, Confirm(s.id, comment));
      && Path(g, [Confirm(s.id, comment)], g')
      && MirrorsIn(g', s, SW.Log(d, SW.Written(comment, d.futures)), Saving)
  {
    Logging(d.log, SW.Written(comment, d.futures));
    OneStep(g, Confirm(s.id, comment));
  }

  function LandSteps(s: SW.Settings, comment: string, arrives: bool): seq<Step> {
    if arrives then [Land(Checkpoint(s.stream, comment))] else []
  }

  lemma LandingIsSimulated(g: World, s: SW.Settings, d: SW.Data, phase: Phase, comment: string, arrives: bool)
    returns (g': World)
    requires MirrorsIn(g, s, d, phase) && OthersCan(g, LandSteps(s, comment, arrives), s.id)
    ensures Path(g, LandSteps(s, comment, arrives), g')
    ensures MirrorsIn(g', s, d.(stored := if arrives then Some(comment) else d.stored), phase)
  {
    g' := g;
    if arrives {
      var land := Land(Checkpoint(s.stream, comment));
      assert LandSteps(s, comment, arrives)[0] == land;
      OneStep(g, land);
      g' := Apply(g, land);
    }
  }

  lemma FinishingIsSimulated(g: World, s: SW.Settings, d: SW.Data, saved: nat, misses: nat)
    requires MirrorsIn(g, s, d, Saving) && d.status.Running?
    ensures Path(g, [FinishSave(s.id)], Apply(g, FinishSave(s.id)))
    ensures Mirrors(Apply(g, FinishSave(s.id)), s, d.(sinceCheckpoint := 0, saved := saved, misses := misses))
  {
    OneStep(g, FinishSave(s.id));
  }

  function SaveSteps(s: SW.Settings, comment: string, fate: SW.CommentFate): seq<Step> {
    [Confirm(s.id, comment)] + (fate.meanwhile + (LandSteps(s, comment, fate.save.Arrives())
      + [if fate.save.Goes? then FinishSave(s.id) else Leave(s.id)]))
  }

  /** The checkpoint write, what others do while it is on its way, and what becomes of it. */
  lemma SaveIsSimulated(g: World, s: SW.Settings, d: SW.Data, comment: string, fate: SW.CommentFate) returns (g': World)
    requires MirrorsIn(g, s, d, Waiting) && d.status.Running? && SW.OnlyProduced(s.id, d)
    requires Enabled(g, Confirm(s.id, comment))
    requires ByOthers(fate.meanwhile, s.id) && OthersCan(g, SaveSteps(s, comment, fate), s.id)
    ensures Path(g, SaveSteps(s, comment, fate), g') && Mirrors(g', s, SW.Save(s, d, comment, fate).0)
  {
    var confirm, last := [Confirm(s.id, comment)], [if fate.save.Goes? then FinishSave(s.id) else Leave(s.id)];
    var land := LandSteps(s, comment, fate.save.Arrives());
    ConfirmingIsSimulated(g, s, d, comment);
    var h := Apply(g, Confirm(s.id, comment));
    var w := SW.Log(d, SW.Written(comment, d.futures));
    SW.InterferenceGrows(s, w, fate.meanwhile);
    var e := SW.Interfere(s, w, fate.meanwhile);
    OthersCanThen(g, confirm, h, fate.meanwhile + (land + last), s.id);
    OthersCanFirst(h, fate.meanwhile, land + last, s.id);
    var i := MeanwhileIsSimulated(h, s, w, Saving, fate.meanwhile);
    OthersCanThen(h, fate.meanwhile, i, land + last, s.id);
    OthersCanFirst(i, land, last, s.id);
    var j := LandingIsSimulated(i, s, e, Saving, comment, fate.save.Arrives());
    e := e.(stored := if fate.save.Arrives() then Some(comment) else e.stored);
    if fate.save.Goes? {
      var d' := SW.Save(s, d, comment, fate).0;
      FinishingIsSimulated(j, s, e, d'.saved, d'.misses);
    } else {
      LeavingIsSimulated(j, s, e, Saving);
    }
    g' := Apply(j, last[0]);
    PathsCompose(i, land, j, last, g');
    PathsCompose(h, fate.meanwhile, i, land + last, g');
    PathsCompose(g, confirm, h, fate.meanwhile + (land + last), g');
  }

  function CheckpointSteps(s: SW.Settings, d: SW.Data, comment: string, fate: SW.CommentFate): seq<Step> {
    WaitSteps(d.pending, d.futures, s.deliveryTimeout, fate.script)
    + if Wait(d.pending, d.futures, s.deliveryTimeout, fate.script).verdict.AllDelivered?
      then SaveSteps(s, comment, fate) else [Leave(s.id)]
  }

  /** A batch that was waited for successfully may be confirmed, and nothing is left pending. */
  lemma DeliveredMayConfirm(g: World, s: SW.Settings, d: SW.Data, comment: string, fs: Futures)
    requires MirrorsIn(g, s, d, Waiting) && d.status.Running? && SW.Batched(s.id, d) && d.sinceCheckpoint > 0
    requires g.workers[s.id].comments[d.produced - 1] == comment && OwnDelivered(d.pending, fs)
    ensures Enabled(g.(reports := fs), Confirm(s.id, comment))
    ensures MirrorsIn(g.(reports := fs), s, d.(futures := fs, pending := []), Waiting)
  {
  }

  /** Processing of the hundredth comment, from the batch's wait to the checkpoint write. */
  lemma CheckpointIsSimulated(g: World, s: SW.Settings, d: SW.Data, comment: string, fate: SW.CommentFate)
    returns (g': World)
    requires MirrorsIn(g, s, d, Waiting) && d.status.Running? && SW.Batched(s.id, d) && SW.OnlyProduced(s.id, d)
    requires d.sinceCheckpoint == CHECKPOINT_INTERVAL && SW.LastIsOpen(s.id, d)
    requires g.workers[s.id].comments[d.produced - 1] == comment
    requires ByOthers(fate.meanwhile, s.id) && OthersCan(g, CheckpointSteps(s, d, comment, fate), s.id)
    ensures Path(g, CheckpointSteps(s, d, comment, fate), g') && Mirrors(g', s, SW.Checkpoint(s, d, comment, fate).0)
  {
    var o := Wait(d.pending, d.futures, s.deliveryTimeout, fate.script);
    var wait, h := WaitSteps(d.pending, d.futures, s.deliveryTimeout, fate.script), g.(reports := o.futures);
    WaitIsSimulated(g, d.pending, s.deliveryTimeout, fate.script);
    WaitIsExact(d.pending, d.futures, s.deliveryTimeout, fate.script);
    var rest := if o.verdict.AllDelivered? then SaveSteps(s, comment, fate) else [Leave(s.id)];
    OthersCanThen(g, wait, h, rest, s.id);
    if o.verdict.AllDelivered? {
      DeliveredMayConfirm(g, s, d, comment, o.futures);
      g' := SaveIsSimulated(h, s, d.(futures := o.futures, pending := []), comment, fate);
    } else {
      LeavingIsSimulated(h, s, d.(futures := o.futures, pending := if o.verdict.Cancelled? then d.pending else []), Waiting);
      g' := Apply(h, Leave(s.id));
    }
    PathsCompose(g, wait, h, rest, g');
  }

  /** Handing a message to Kafka, and a poll that may raise. */
  lemma ProducingIsSimulated(g: World, s: SW.Settings, d: SW.Data, comment: string, polled: bool)
    requires Mirrors(g, s, d) && d.status.Running?
    ensures var step := Produce(Future(s.id, d.produced), comment, polled);
      && Enabled(g, step) && Path(g, [step], Apply(g, step))
      && var g', d' := Apply(g, step), SW.Produce(s, d, comment);
         && (!polled ==> Mirrors(g', s, SW.Break(d')))
         && (polled ==>
               MirrorsIn(g', s, d'.(sinceCheckpoint := d.sinceCheckpoint + 1),
                         if d.sinceCheckpoint + 1 >= CHECKPOINT_INTERVAL then Waiting else Running))
         && g'.workers[s.id].comments[d.produced] == comment
  {
    var d' := SW.Produce(s, d, comment);
    Logging(d.log, SW.Produced(d.produced, comment));
    Logging(d'.log, SW.DeliveryFailure);
    OneStep(g, Produce(Future(s.id, d.produced), comment, polled));
  }

  function EnqueueSteps(s: SW.Settings, d: SW.Data, comment: string, fate: SW.CommentFate): seq<Step> {
    [Produce(Future(s.id, d.produced), comment, fate.polled)]
    + if fate.polled && d.sinceCheckpoint + 1 >= CHECKPOINT_INTERVAL
      then CheckpointSteps(s, SW.Produce(s, d, comment).(sinceCheckpoint := d.sinceCheckpoint + 1), comment, fate) else []
  }

  lemma EnqueuingIsSimulated(g: World, s: SW.Settings, d: SW.Data, comment: string, fate: SW.CommentFate)
    returns (g': World)
    requires Mirrors(g, s, d) && SW.Sound(s.id, d) && d.status.Running?
    requires ByOthers(fate.meanwhile, s.id) && OthersCan(g, EnqueueSteps(s, d, comment, fate), s.id)
    ensures Path(g, EnqueueSteps(s, d, comment, fate), g') && Mirrors(g', s, SW.Enqueue(s, d, comment, fate).0)
  {
    var step := Produce(Future(s.id, d.produced), comment, fate.polled);
    ProducingIsSimulated(g, s, d, comment, fate.polled);
    g' := Apply(g, step);
    if fate.polled && d.sinceCheckpoint + 1 == CHECKPOINT_INTERVAL {
      SW.ProduceKeepsBatch(s, d, comment);
      var e := SW.Produce(s, d, comment).(sinceCheckpoint := CHECKPOINT_INTERVAL);
      var more := CheckpointSteps(s, e, comment, fate);
      OthersCanThen(g, [step], g', more, s.id);
      var k := CheckpointIsSimulated(g', s, e, comment, fate);
      PathsCompose(g, [step], g', more, k);
      g' := k;
    } else {
      assert EnqueueSteps(s, d, comment, fate) == [step];
    }
  }

  function ProcessSteps(s: SW.Settings, d: SW.Data, comment: string, snapshot: Option<string>, fate: SW.CommentFate)
    : seq<Step>
  {
    if snapshot == Some(comment) && comment != "" then []
    else if !fate.wellFormed then if fate.note.Goes? then [] else [Leave(s.id)]
    else if !fate.accepted then [Leave(s.id)]
    else EnqueueSteps(s, d, comment, fate)
  }

  /** Whatever happens to one comment is a run of the protocol's steps. */
  lemma CommentIsSimulated(
      g: World, s: SW.Settings, d: SW.Data, comment: string, snapshot: Option<string>, fate: SW.CommentFate)
    returns (g': World)
    requires Mirrors(g, s, d) && SW.Sound(s.id, d) && d.status.Running?
    requires ByOthers(fate.meanwhile, s.id) && OthersCan(g, ProcessSteps(s, d, comment, snapshot, fate), s.id)
    ensures Path(g, ProcessSteps(s, d, comment, snapshot, fate), g')
    ensures Mirrors(g', s, SW.Process(s, d, comment, snapshot, fate).0)
  {
    if ProcessSteps(s, d, comment, snapshot, fate) == [] {
      g' := g;
    } else if fate.wellFormed && fate.accepted {
      g' := EnqueuingIsSimulated(g, s, d, comment, fate);
    } else {
      LeavingIsSimulated(g, s, d, Running);
      g' := Apply(g, Leave(s.id));
    }
  }

  // ---------------------------------------------------------------------------------------------
  // Sessions

  /** What one item of a session makes of the data, unless the session stops at it. */
  function AfterItem(s: SW.Settings, d: SW.Data, snapshot: Option<string>, item: SW.Item): SW.Data {
    match item
    case Gap(m) => SW.Interfere(s, d, m)
    case Comment(id, _, fate) => SW.Process(s, SW.Progressed(s, d), id, snapshot, fate).0
  }

  /** The session goes on after the item. */
  predicate GoesOn(s: SW.Settings, d: SW.Data, snapshot: Option<string>, item: SW.Item) {
    match item
    case Gap(_) => true
    case Comment(id, stop, fate) =>
      var o := SW.Process(s, SW.Progressed(s, d), id, snapshot, fate).1;
      !stop && !o.Undelivered? && !o.NoteFailed? && !o.WasInterrupted?
  }

  function ItemSteps(s: SW.Settings, d: SW.Data, snapshot: Option<string>, item: SW.Item): seq<Step> {
    match item
    case Gap(m) => m
    case Comment(id, stop, fate) => if stop then [] else ProcessSteps(s, SW.Progressed(s, d), id, snapshot, fate)
  }

  function CommentsSteps(s: SW.Settings, d: SW.Data, snapshot: Option<string>, items: seq<SW.Item>): seq<Step>
    decreases |items|
  {
    if items == [] then []
    else
      ItemSteps(s, d, snapshot, items[0])
      + if GoesOn(s, d, snapshot, items[0])
        then CommentsSteps(s, AfterItem(s, d, snapshot, items[0]), snapshot, items[1..]) else []
  }

  predicate ItemByOthers(item: SW.Item, w: nat) {
    ByOthers(if item.Gap? then item.meanwhile else item.fate.meanwhile, w)
  }

  predicate ItemsByOthers(items: seq<SW.Item>, w: nat) {
    forall i :: 0 <= i < |items| ==> ItemByOthers(items[i], w)
  }

  lemma ProgressIsUnseen(g: World, s: SW.Settings, d: SW.Data)
    requires Mirrors(g, s, d) && SW.Sound(s.id, d) && d.status.Running?
    ensures var p := SW.Progressed(s, d); Mirrors(g, s, p) && SW.Sound(s.id, p) && p.status.Running?
  {
  }

  lemma GapIsSimulated(g: World, s: SW.Settings, d: SW.Data, m: SW.Meanwhile) returns (g': World)
    requires Mirrors(g, s, d) && SW.Sound(s.id, d) && d.status.Running?
    requires ByOthers(m, s.id) && OthersCan(g, m, s.id)
    ensures var e := SW.Interfere(s, d, m);
      Path(g, m, g') && Mirrors(g', s, e) && SW.Sound(s.id, e) && e.status.Running?
  {
    SW.InterferenceKeepsSound(s, d, m);
    g' := MeanwhileIsSimulated(g, s, d, Running, m);
  }

  lemma ItemIsSimulated(g: World, s: SW.Settings, d: SW.Data, snapshot: Option<string>, item: SW.Item)
    returns (g': World)
    requires Mirrors(g, s, d) && SW.Sound(s.id, d) && d.status.Running? && ItemByOthers(item, s.id)
    requires !(item.Comment? && item.stop) && OthersCan(g, ItemSteps(s, d, snapshot, item), s.id)
    ensures Path(g, ItemSteps(s, d, snapshot, item), g') && Mirrors(g', s, AfterItem(s, d, snapshot, item))
    ensures SW.Sound(s.id, AfterItem(s, d, snapshot, item))
    ensures GoesOn(s, d, snapshot, item) ==> AfterItem(s, d, snapshot, item).status.Running?
  {
    match item
    case Gap(m) =>
      g' := GapIsSimulated(g, s, d, m);
    case Comment(id, _, fate) =>
      ProgressIsUnseen(g, s, d);
      SW.ProcessKeepsSound(s, SW.Progressed(s, d), id, snapshot, fate);
      g' := CommentIsSimulated(g, s, SW.Progressed(s, d), id, snapshot, fate);
  }

  lemma CommentsGoOn(s: SW.Settings, d: SW.Data, snapshot: Option<string>, items: seq<SW.Item>)
    requires items != [] && !(items[0].Comment? && items[0].stop)
    ensures var e := AfterItem(s, d, snapshot, items[0]);
      SW.Comments(s, d, snapshot, items).0
        == if GoesOn(s, d, snapshot, items[0]) then SW.Comments(s, e, snapshot, items[1..]).0 else e
  {
  }

  lemma {:induction false} CommentsAreSimulated(
      g: World, s: SW.Settings, d: SW.Data, snapshot: Option<string>, items: seq<SW.Item>)
    returns (g': World)
    requires Mirrors(g, s, d) && SW.Sound(s.id, d) && d.status.Running? && ItemsByOthers(items, s.id)
    requires OthersCan(g, CommentsSteps(s, d, snapshot, items), s.id)
    ensures Path(g, CommentsSteps(s, d, snapshot, items), g') && Mirrors(g', s, SW.Comments(s, d, snapshot, items).0)
    decreases |items|
  {
    g' := g;
    if items == [] || (items[0].Comment? && items[0].stop) {
      return;
    }
    CommentsGoOn(s, d, snapshot, items);
    var item, e := items[0], AfterItem(s, d, snapshot, items[0]);
    var first := ItemSteps(s, d, snapshot, item);
    var rest := if GoesOn(s, d, snapshot, item) then CommentsSteps(s, e, snapshot, items[1..]) else [];
    assert CommentsSteps(s, d, snapshot, items) == first + rest;
    OthersCanFirst(g, first, rest, s.id);
    var h := ItemIsSimulated(g, s, d, snapshot, item);
    g' := h;
    if GoesOn(s, d, snapshot, item) {
      OthersCanThen(g, first, h, rest, s.id);
      g' := CommentsAreSimulated(h, s, e, snapshot, items[1..]);
    }
    PathsCompose(g, first, h, rest, g');
  }

  function EndSteps(s: SW.Settings, d: SW.Data, r: SW.Result): seq<Step> {
    if r.CancelledResult? && d.status.Running? then [Leave(s.id)] else []
  }

  lemma EndingIsSimulated(g: World, s: SW.Settings, d: SW.Data, r: SW.Result) returns (g': World)
    requires Mirrors(g, s, d)
    ensures Path(g, EndSteps(s, d, r), g') && Mirrors(g', s, SW.Ended(d, r).0)
  {
    g' := g;
    if r.CancelledResult? && d.status.Running? {
      LeavingIsSimulated(g, s, d, Running);
      g' := Apply(g, Leave(s.id));
    }
  }

  /** The worker's data when a session's comments are through, if it came to any. */
  function AfterComments(s: SW.Settings, d: SW.Data, fate: SW.SessionFate): SW.Data {
    if fate.opening.Completes? then SW.Comments(s, d, d.stored, fate.comments).0 else d
  }

  function SessionSteps(s: SW.Settings, d: SW.Data, fate: SW.SessionFate): seq<Step> {
    (if fate.opening.Completes? then CommentsSteps(s, d, d.stored, fate.comments) else [])
    + EndSteps(s, AfterComments(s, d, fate), SW.RunSession(s, d, fate).1)
  }

  lemma SessionIsSimulated(g: World, s: SW.Settings, d: SW.Data, fate: SW.SessionFate) returns (g': World)
    requires Mirrors(g, s, d) && SW.Sound(s.id, d) && d.status.Running? && ItemsByOthers(fate.comments, s.id)
    requires OthersCan(g, SessionSteps(s, d, fate), s.id)
    ensures Path(g, SessionSteps(s, d, fate), g') && Mirrors(g', s, SW.RunSession(s, d, fate).0)
  {
    var e, r := AfterComments(s, d, fate), SW.RunSession(s, d, fate).1;
    SW.CommentsKeepSound(s, d, d.stored, fate.comments);
    assert SW.RunSession(s, d, fate).0 == SW.Ended(e, r).0;
    var first := if fate.opening.Completes? then CommentsSteps(s, d, d.stored, fate.comments) else [];
    OthersCanFirst(g, first, EndSteps(s, e, r), s.id);
    var h := g;
    if fate.opening.Completes? {
      h := CommentsAreSimulated(g, s, d, d.stored, fate.comments);
    }
    g' := EndingIsSimulated(h, s, e, r);
    PathsCompose(g, first, h, EndSteps(s, e, r), g');
  }

  // ---------------------------------------------------------------------------------------------
  // Turns and runs

  function Opened(s: SW.Settings, d: SW.Data, t: SW.Turn): SW.Data {
    SW.Interfere(s, d, t.meanwhile).(breaker := CB.Admit(d.breaker, t.start).0)
  }

  predicate IsAdmitted(d: SW.Data, t: SW.Turn) {
    CB.Admit(d.breaker, t.start).1.Admitted?
  }

  function AfterSession(s: SW.Settings, d: SW.Data, t: SW.Turn): SW.Data {
    if IsAdmitted(d, t) then SW.RunSession(s, Opened(s, d, t), t.session).0 else Opened(s, d, t)
  }

  function CallSteps(s: SW.Settings, d: SW.Data, t: SW.Turn): seq<Step> {
    if IsAdmitted(d, t) then SessionSteps(s, Opened(s, d, t), t.session) else []
  }

  function TurnSteps(s: SW.Settings, d: SW.Data, t: SW.Turn): seq<Step> {
    t.meanwhile + (CallSteps(s, d, t) + EndSteps(s, AfterSession(s, d, t), SW.TakeTurn(s, d, t).1))
  }

  predicate TurnByOthers(t: SW.Turn, w: nat) {
    ByOthers(t.meanwhile, w) && ItemsByOthers(t.session.comments, w)
  }

  lemma TurnEnds(s: SW.Settings, d: SW.Data, t: SW.Turn)
    requires SW.Sound(s.id, d) && d.status.Running?
    ensures var (d', r) := SW.TakeTurn(s, d, t);
      d' == SW.Ended(AfterSession(s, d, t).(breaker := d'.breaker), r).0
  {
    SW.InterferenceKeepsSound(s, d, t.meanwhile);
    assert SW.Sound(s.id, Opened(s, d, t));
    SW.SessionKeepsSound(s, Opened(s, d, t), t.session);
  }

  lemma CallIsSimulated(g: World, s: SW.Settings, d: SW.Data, t: SW.Turn) returns (g': World)
    requires Mirrors(g, s, Opened(s, d, t)) && SW.Sound(s.id, Opened(s, d, t)) && d.status.Running?
    requires Opened(s, d, t).status.Running? && TurnByOthers(t, s.id) && OthersCan(g, CallSteps(s, d, t), s.id)
    ensures Path(g, CallSteps(s, d, t), g') && Mirrors(g', s, AfterSession(s, d, t))
  {
    g' := g;
    if IsAdmitted(d, t) {
      g' := SessionIsSimulated(g, s, Opened(s, d, t), t.session);
    }
  }

  lemma TurnEndIsSimulated(g: World, s: SW.Settings, d: SW.Data, t: SW.Turn) returns (g': World)
    requires SW.Sound(s.id, d) && d.status.Running? && Mirrors(g, s, AfterSession(s, d, t))
    ensures Path(g, EndSteps(s, AfterSession(s, d, t), SW.TakeTurn(s, d, t).1), g')
    ensures Mirrors(g', s, SW.TakeTurn(s, d, t).0)
  {
    TurnEnds(s, d, t);
    var k := AfterSession(s, d, t).(breaker := SW.TakeTurn(s, d, t).0.breaker);
    assert Mirrors(g, s, k);
    g' := EndingIsSimulated(g, s, k, SW.TakeTurn(s, d, t).1);
  }

  lemma OpeningIsSimulated(g: World, s: SW.Settings, d: SW.Data, t: SW.Turn) returns (g': World)
    requires Mirrors(g, s, d) && SW.Sound(s.id, d) && d.status.Running?
    requires ByOthers(t.meanwhile, s.id) && OthersCan(g, t.meanwhile, s.id)
    ensures Path(g, t.meanwhile, g') && Mirrors(g', s, Opened(s, d, t))
    ensures SW.Sound(s.id, Opened(s, d, t)) && Opened(s, d, t).status.Running?
  {
    SW.InterferenceKeepsSound(s, d, t.meanwhile);
    g' := MeanwhileIsSimulated(g, s, d, Running, t.meanwhile);
  }

  lemma TurnIsSimulated(g: World, s: SW.Settings, d: SW.Data, t: SW.Turn) returns (g': World)
    requires Mirrors(g, s, d) && SW.Sound(s.id, d) && d.status.Running? && TurnByOthers(t, s.id)
    requires OthersCan(g, TurnSteps(s, d, t), s.id)
    ensures Path(g, TurnSteps(s, d, t), g') && Mirrors(g', s, SW.TakeTurn(s, d, t).0)
  {
    var call, end := CallSteps(s, d, t), EndSteps(s, AfterSession(s, d, t), SW.TakeTurn(s, d, t).1);
    OthersCanFirst(g, t.meanwhile, call + end, s.id);
    var h := OpeningIsSimulated(g, s, d, t);
    OthersCanThen(g, t.meanwhile, h, call + end, s.id);
    OthersCanFirst(h, call, end, s.id);
    var i := CallIsSimulated(h, s, d, t);
    g' := TurnEndIsSimulated(i, s, d, t);
    PathsCompose(h, call, i, end, g');
    PathsCompose(g, t.meanwhile, h, call + end, g');
  }

  function TurnsSteps(s: SW.Settings, d: SW.Data, turns: seq<SW.Turn>): seq<Step>
    decreases |turns|
  {
    if turns == [] then []
    else
      var (e, r) := SW.TakeTurn(s, d, turns[0]);
      TurnSteps(s, d, turns[0]) + if r.Normal? then TurnsSteps(s, e, turns[1..]) else []
  }

  predicate TurnsByOthers(turns: seq<SW.Turn>, w: nat) {
    forall i :: 0 <= i < |turns| ==> TurnByOthers(turns[i], w)
  }

  lemma {:induction false} TurnsAreSimulated(g: World, s: SW.Settings, d: SW.Data, turns: seq<SW.Turn>)
    returns (g': World)
    requires Mirrors(g, s, d) && SW.Sound(s.id, d) && d.status.Running? && TurnsByOthers(turns, s.id)
    requires OthersCan(g, TurnsSteps(s, d, turns), s.id)
    ensures Path(g, TurnsSteps(s, d, turns), g') && Mirrors(g', s, SW.Turns(s, d, turns).0)
    decreases |turns|
  {
    g' := g;
    if turns != [] {
      var (e, r) := SW.TakeTurn(s, d, turns[0]);
      var first := TurnSteps(s, d, turns[0]);
      var rest := if r.Normal? then TurnsSteps(s, e, turns[1..]) else [];
      assert TurnByOthers(turns[0], s.id);
      SW.TurnKeepsSound(s, d, turns[0]);
      OthersCanFirst(g, first, rest, s.id);
      g' := TurnIsSimulated(g, s, d, turns[0]);
      if r.Normal? {
        OthersCanThen(g, first, g', rest, s.id);
        assert TurnsByOthers(turns[1..], s.id);
        var k := TurnsAreSimulated(g', s, e, turns[1..]);
        PathsCompose(g, first, g', rest, k);
        g' := k;
      } else {
        assert first + rest == first;
      }
    }
  }

  function ResaveSteps(s: SW.Settings, d: SW.Data, c: SW.Closing): seq<Step> {
    if !SW.Resaves(d, c) then []
    else [ShutdownRead(s.id)] + (c.meanwhile + ([ShutdownWrite(s.id)] + LandSteps(s, d.stored.value, c.save.Arrives())))
  }

  lemma WritingBackIsSimulated(g: World, s: SW.Settings, d: SW.Data, last: string)
    requires MirrorsIn(g, s, d, Gone) && !d.status.Running? && g.workers[s.id].held == Some(last)
    ensures var g' := Apply(g, ShutdownWrite(s.id));
      Path(g, [ShutdownWrite(s.id)], g') && MirrorsIn(g', s, SW.Log(d, SW.Resaved(last)), Gone)
  {
    Logging(d.log, SW.Resaved(last));
    OneStep(g, ShutdownWrite(s.id));
  }

  /** The shutdown re-save of what is stored, others acting between its read and its write. */
  lemma ResaveIsSimulated(g: World, s: SW.Settings, d: SW.Data, c: SW.Closing) returns (g': World)
    requires Mirrors(g, s, d) && SW.OnlyProduced(s.id, d) && !d.status.Running? && ByOthers(c.meanwhile, s.id)
    requires OthersCan(g, ResaveSteps(s, d, c), s.id)
    ensures Path(g, ResaveSteps(s, d, c), g') && Mirrors(g', s, SW.Resave(s, d, c))
  {
    g' := g;
    if SW.Resaves(d, c) {
      var last := d.stored.value;
      var write, land := [ShutdownWrite(s.id)], LandSteps(s, last, c.save.Arrives());
      OneStep(g, ShutdownRead(s.id));
      var h := Apply(g, ShutdownRead(s.id));
      OthersCanThen(g, [ShutdownRead(s.id)], h, c.meanwhile + (write + land), s.id);
      OthersCanFirst(h, c.meanwhile, write + land, s.id);
      SW.InterferenceGrows(s, d, c.meanwhile);
      var i := MeanwhileIsSimulated(h, s, d, Gone, c.meanwhile);
      var e := SW.Interfere(s, d, c.meanwhile);
      WritingBackIsSimulated(i, s, e, last);
      var j := Apply(i, ShutdownWrite(s.id));
      OthersCanThen(h, c.meanwhile, i, write + land, s.id);
      OthersCanThen(i, write, j, land, s.id);
      g' := LandingIsSimulated(j, s, SW.Log(e, SW.Resaved(last)), Gone, last, c.save.Arrives());
      PathsCompose(i, write, j, land, g');
      PathsCompose(h, c.meanwhile, i, write + land, g');
      PathsCompose(g, [ShutdownRead(s.id)], h, c.meanwhile + (write + land), g');
    }
  }

  function Halted(d: SW.Data): SW.Data {
    if d.status.Running? then d.(status := SW.Stopped) else d
  }

  function CloseSteps(s: SW.Settings, d: SW.Data, c: SW.Closing): seq<Step> {
    [Leave(s.id)] + (c.before + ResaveSteps(s, SW.Interfere(s, Halted(d), c.before), c))
  }

  /** The end of a run. */
  lemma ClosingIsSimulated(g: World, s: SW.Settings, d: SW.Data, c: SW.Closing) returns (g': World)
    requires Mirrors(g, s, d) && SW.OnlyProduced(s.id, d) && ByOthers(c.before, s.id) && ByOthers(c.meanwhile, s.id)
    requires OthersCan(g, CloseSteps(s, d, c), s.id)
    ensures Path(g, CloseSteps(s, d, c), g') && Mirrors(g', s, SW.Close(s, d, c))
  {
    var h, e := Apply(g, Leave(s.id)), Halted(d);
    var i := SW.Interfere(s, e, c.before);
    var resave := ResaveSteps(s, i, c);
    OneStep(g, Leave(s.id));
    OthersCanThen(g, [Leave(s.id)], h, c.before + resave, s.id);
    OthersCanFirst(h, c.before, resave, s.id);
    SW.InterferenceGrows(s, e, c.before);
    var k := MeanwhileIsSimulated(h, s, e, Gone, c.before);
    OthersCanThen(h, c.before, k, resave, s.id);
    g' := ResaveIsSimulated(k, s, i, c);
    PathsCompose(h, c.before, k, resave, g');
    PathsCompose(g, [Leave(s.id)], h, c.before + resave, g');
  }

  /** All the steps of a run of the worker, the others' in between included. */
  function RunSteps(s: SW.Settings, d: SW.Data, turns: seq<SW.Turn>, c: SW.Closing): seq<Step> {
    TurnsSteps(s, d, turns) + CloseSteps(s, SW.Turns(s, d, turns).0, c)
  }

  predicate RunByOthers(turns: seq<SW.Turn>, c: SW.Closing, w: nat) {
    TurnsByOthers(turns, w) && ByOthers(c.before, w) && ByOthers(c.meanwhile, w)
  }

  /**
   A whole run of the worker, with every session, error, retry and the closing, and with arbitrary
   steps of others wherever it awaits, is a run of the protocol.
   */
  lemma RunIsSimulated(g: World, s: SW.Settings, d: SW.Data, turns: seq<SW.Turn>, c: SW.Closing) returns (g': World)
    requires Mirrors(g, s, d) && SW.Sound(s.id, d) && d.status.Running?
    requires RunByOthers(turns, c, s.id) && OthersCan(g, RunSteps(s, d, turns, c), s.id)
    ensures Path(g, RunSteps(s, d, turns, c), g') && Mirrors(g', s, SW.RunWorker(s, d, turns, c).0)
  {
    var e := SW.Turns(s, d, turns).0;
    SW.TurnsKeepSound(s, d, turns);
    OthersCanFirst(g, TurnsSteps(s, d, turns), CloseSteps(s, e, c), s.id);
    var h := TurnsAreSimulated(g, s, d, turns);
    OthersCanThen(g, TurnsSteps(s, d, turns), h, CloseSteps(s, e, c), s.id);
    g' := ClosingIsSimulated(h, s, e, c);
    PathsCompose(g, TurnsSteps(s, d, turns), h, CloseSteps(s, e, c), g');
  }

  lemma StartIsSimulated(g: World, s: SW.Settings)
    requires Inv(g) && s.id !in g.workers
    ensures var d := SW.Fresh(s.breaker, g.reports, StoredIn(g, s.stream));
      && Path(g, [Start(s.id, s.stream)], Apply(g, Start(s.id, s.stream)))
      && Mirrors(Apply(g, Start(s.id, s.stream)), s, d) && SW.Sound(s.id, d)
  {
    OneStep(g, Start(s.id, s.stream));
    SW.FreshIsSound(s.id, s.breaker, g.reports, StoredIn(g, s.stream));
  }

  /**
   So, from its start in any reached world to its end, a worker takes part in a run of the protocol,
   and whatever checkpoint is stored then was there from the start or was first written by a worker
   that held a success report for every message it had produced.
   */
  lemma StoredAfterRunIsDelivered(
      tr: seq<World>, past: seq<Step>, s: SW.Settings, turns: seq<SW.Turn>, c: SW.Closing)
    returns (tr': seq<World>, steps: seq<Step>)
    requires Behaviour(tr, past) && Initial(tr[0]) && s.id !in tr[|past|].workers && RunByOthers(turns, c, s.id)
    requires var g := tr[|past|];
      OthersCan(Apply(g, Start(s.id, s.stream)),
                RunSteps(s, SW.Fresh(s.breaker, g.reports, StoredIn(g, s.stream)), turns, c), s.id)
    ensures var g := tr[|past|];
      var d := SW.Fresh(s.breaker, g.reports, StoredIn(g, s.stream));
      var d' := SW.RunWorker(s, d, turns, c).0;
      && steps == past + ([Start(s.id, s.stream)] + RunSteps(s, d, turns, c))
      && Behaviour(tr', steps) && tr <= tr' && Mirrors(tr'[|steps|], s, d')
      && (d'.stored.Some? && !Stored(tr[0], Checkpoint(s.stream, d'.stored.value)) ==>
            exists i: nat :: i < |steps| && IsOrigin(tr', steps, i, Checkpoint(s.stream, d'.stored.value))
                             && StillDelivered(tr', steps, i, |steps|))
  {
    var g := tr[|past|];
    var d := SW.Fresh(s.breaker, g.reports, StoredIn(g, s.stream));
    EveryValueHasAnOrigin(tr, past, |past|, Checkpoint("", ""));
    StartIsSimulated(g, s);
    var h := Apply(g, Start(s.id, s.stream));
    var g' := RunIsSimulated(h, s, d, turns, c);
    PathsCompose(g, [Start(s.id, s.stream)], h, RunSteps(s, d, turns, c), g');
    tr' := PathsAreRuns(tr, past, [Start(s.id, s.stream)] + RunSteps(s, d, turns, c), g');
    steps := past + ([Start(s.id, s.stream)] + RunSteps(s, d, turns, c));
    var d' := SW.RunWorker(s, d, turns, c).0;
    if d'.stored.Some? && !Stored(tr[0], Checkpoint(s.stream, d'.stored.value)) {
      DeliveryBeforeCheckpoint(tr', steps, |steps|, Checkpoint(s.stream, d'.stored.value));
    }
  }
}
