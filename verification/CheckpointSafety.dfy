/**
 Delivery before checkpoint, end to end (worker.py, stream_registry.py, checkpoint_flusher.py).

 Any number of workers, on any streams and even several on one stream, interleave with Kafka's
 delivery reports, with checkpoint writes that land at the server at any later time or never, with
 stale shutdown re-saves, with crashes and takeovers, and with flushers that copy what they read
 from Redis to Postgres whenever they get to it. That a worker here does what `StreamWorker` does
 is proved in `WorkerRefinement`: what is not known to be delivered is the batch since its last
 checkpoint attempt, the checkpoint is written only after the whole batch was reported delivered,
 and any delivery failure is its end.
 */
module CheckpointSafety {
  import opened Common
  import opened DeliveryWait

  datatype Checkpoint = Checkpoint(stream: string, comment: string)

  datatype Phase = Running | Waiting | Saving | Gone

  datatype Worker = Worker(
    stream: string,
    comments: seq<string>,     // the comments whose messages were handed to Kafka, in order
    batchStart: nat,           // messages from here on are in the pending list
    phase: Phase,
    held: Option<string>)      // read from Redis for the shutdown re-save

  datatype World = World(
    workers: map<nat, Worker>,
    reports: Futures,
    redis: map<string, string>,
    postgres: map<string, string>,
    inFlight: set<Checkpoint>,   // writes on their way to Redis
    copied: set<Checkpoint>)     // read by a flusher, on their way to Postgres

  datatype Step =
    | Start(w: nat, stream: string)               // first start, restart or takeover
    | Produce(future: Future, comment: string, polled: bool)
    | Refuse(w: nat)                              // produce() raises
    | Report(callback: Callback)                  // heeded if the message was produced and has no report
    | Confirm(w: nat, comment: string)            // the wait returned normally; send the checkpoint
    | FinishSave(w: nat)                          // acknowledged, or failed and swallowed
    | Leave(w: nat)                               // delivery failure, error, cancellation, crash
    | ShutdownRead(w: nat) | ShutdownWrite(w: nat)
    | Land(c: Checkpoint) | Lose(c: Checkpoint)
    | FlushRead(stream: string) | FlushWrite(c: Checkpoint)

  ghost predicate Confirmed(g: World, w: nat) {
    && w in g.workers
    && forall n: nat :: n < |g.workers[w].comments| ==> Reported(w, n, g.reports)
  }

  ghost predicate Enabled(g: World, s: Step) {
    match s
    case Start(w, _) => w !in g.workers
    case Produce(f, _, _) =>
      f.worker in g.workers && g.workers[f.worker].phase.Running? && f.number == |g.workers[f.worker].comments|
    case Refuse(w) => w in g.workers && g.workers[w].phase.Running?
    case Report(_) => true
    case Confirm(w, comment) =>
      && w in g.workers && g.workers[w].phase.Waiting?
      && var v := g.workers[w];
         && v.batchStart < |v.comments| && comment == v.comments[|v.comments| - 1]
         && OwnDelivered(Numbered(w, v.batchStart, |v.comments|), g.reports)
    case FinishSave(w) => w in g.workers && g.workers[w].phase.Saving?
    case Leave(w) => w in g.workers
    case ShutdownRead(w) => w in g.workers && g.workers[w].phase.Gone? && g.workers[w].stream in g.redis
    case ShutdownWrite(w) => w in g.workers && g.workers[w].held.Some?
    case Land(c) => c in g.inFlight
    case Lose(c) => c in g.inFlight
    case FlushRead(stream) => stream in g.redis
    case FlushWrite(c) => c in g.copied
  }

  ghost function Apply(g: World, s: Step): World
    requires Enabled(g, s)
  {
    match s
    case Start(w, stream) => g.(workers := g.workers[w := Worker(stream, [], 0, Running, None)])
    case Produce(f, comment, polled) =>
      var v := g.workers[f.worker];
      var v := v.(comments := v.comments + [comment]);
      var full := |v.comments| - v.batchStart >= CHECKPOINT_INTERVAL;
      g.(workers := g.workers[f.worker := v.(phase := if !polled then Gone else if full then Waiting else Running)],
         reports := Create(g.reports, f))
    case Refuse(w) => g.(workers := g.workers[w := g.workers[w].(phase := Gone)])
    case Report(cb) => g.(reports := Complete(g.reports, cb))
    case Confirm(w, comment) =>
      var v := g.workers[w];
      g.(workers := g.workers[w := v.(phase := Saving)],
         inFlight := g.inFlight + {Checkpoint(v.stream, comment)})
    case FinishSave(w) =>
      var v := g.workers[w];
      g.(workers := g.workers[w := v.(phase := Running, batchStart := |v.comments|)])
    case Leave(w) => g.(workers := g.workers[w := g.workers[w].(phase := Gone)])
    case ShutdownRead(w) =>
      var v := g.workers[w];
      g.(workers := g.workers[w := v.(held := Some(g.redis[v.stream]))])
    case ShutdownWrite(w) =>
      var v := g.workers[w];
      g.(workers := g.workers[w := v.(held := None)],
         inFlight := g.inFlight + {Checkpoint(v.stream, v.held.value)})
    case Land(c) => g.(redis := g.redis[c.stream := c.comment])   // equal writes may land one by one
    case Lose(c) => g.(inFlight := g.inFlight - {c})
    case FlushRead(stream) => g.(copied := g.copied + {Checkpoint(stream, g.redis[stream])})
    case FlushWrite(c) => g.(postgres := g.postgres[c.stream := c.comment])
  }

  ghost predicate Behaviour(tr: seq<World>, steps: seq<Step>) {
    && |tr| == |steps| + 1
    && forall i {:trigger steps[i]} :: 0 <= i < |steps| ==> Enabled(tr[i], steps[i]) && tr[i + 1] == Apply(tr[i], steps[i])
  }

  /** Stores may hold anything from before; no worker runs and nothing is on its way. */
  ghost predicate Initial(g: World) {
    g.workers == map[] && g.reports == map[] && g.inFlight == {} && g.copied == {}
  }

  ghost predicate Stored(g: World, c: Checkpoint) {
    || (c.stream in g.redis && g.redis[c.stream] == c.comment)
    || (c.stream in g.postgres && g.postgres[c.stream] == c.comment)
  }

  ghost predicate OnItsWay(g: World, c: Checkpoint) {
    || c in g.inFlight
    || c in g.copied
    || exists w :: w in g.workers && g.workers[w].held == Some(c.comment) && g.workers[w].stream == c.stream
  }

  // ---------------------------------------------------------------------------------------------

  /** Outside its batch, a worker that is still going has only delivered messages. */
  ghost predicate Sound(v: Worker, w: nat, reports: Futures) {
    && v.batchStart <= |v.comments|
    && (forall n: nat :: n < v.batchStart ==> Reported(w, n, reports))
    && (v.phase.Saving? ==> forall n: nat :: n < |v.comments| ==> Reported(w, n, reports))
  }

  /** Reports are only kept of messages that were produced. */
  ghost predicate OnlyProduced(g: World) {
    forall f :: f in g.reports ==> f.worker in g.workers && f.number < |g.workers[f.worker].comments|
  }

  ghost predicate Inv(g: World) {
    && (forall w :: w in g.workers && !g.workers[w].phase.Gone? ==> Sound(g.workers[w], w, g.reports))
    && OnlyProduced(g)
  }

  lemma ConfirmMeansConfirmed(g: World, w: nat, comment: string)
    requires Inv(g) && Enabled(g, Confirm(w, comment))
    ensures Confirmed(g, w)
  {
    var v := g.workers[w];
    var batch := Numbered(w, v.batchStart, |v.comments|);
    forall n: nat | n < |v.comments|
      ensures Reported(w, n, g.reports)
    {
      if n >= v.batchStart {
        assert batch[n - v.batchStart] == Future(w, n);
      }
    }
  }

  lemma StepKeepsProduced(g: World, s: Step)
    requires OnlyProduced(g) && Enabled(g, s)
    ensures OnlyProduced(Apply(g, s))
  {
  }

  lemma StepKeepsReports(g: World, s: Step)
    requires Enabled(g, s)
    ensures Grows(g.reports, Apply(g, s).reports)
  {
  }

  lemma StepKeepsInv(g: World, s: Step)
    requires Inv(g) && Enabled(g, s)
    ensures Inv(Apply(g, s))
  {
    var g' := Apply(g, s);
    if s.Confirm? {
      ConfirmMeansConfirmed(g, s.w, s.comment);
    }
    StepKeepsProduced(g, s);
    StepKeepsReports(g, s);
    forall w | w in g'.workers && !g'.workers[w].phase.Gone?
      ensures Sound(g'.workers[w], w, g'.reports)
    {
      assert forall n: nat :: Reported(w, n, g.reports) ==> Reported(w, n, g'.reports);
      assert w in g.workers ==> Sound(g.workers[w], w, g.reports);
    }
  }

  /** Only a confirmation brings a new value into the stores or onto its way to them. */
  lemma NewValuesAreConfirmed(g: World, s: Step, c: Checkpoint)
    requires Inv(g) && Enabled(g, s)
    requires Stored(Apply(g, s), c) || OnItsWay(Apply(g, s), c)
    ensures Stored(g, c) || OnItsWay(g, c)
         || (s.Confirm? && s.comment == c.comment && Confirmed(g, s.w) && g.workers[s.w].stream == c.stream)
  {
    if s.Confirm? {
      ConfirmMeansConfirmed(g, s.w, s.comment);
    }
  }

  /**
   Step i of the run is a worker's checkpoint write of c; at that moment the worker held a success
   report for every message it had produced, of which c's was the latest.
   */
  ghost predicate IsOrigin(tr: seq<World>, steps: seq<Step>, i: nat, c: Checkpoint)
    requires Behaviour(tr, steps) && i < |steps|
  {
    && steps[i].Confirm? && steps[i].comment == c.comment
    && Confirmed(tr[i], steps[i].w)
    && tr[i].workers[steps[i].w].stream == c.stream
    && var comments := tr[i].workers[steps[i].w].comments;
       |comments| > 0 && comments[|comments| - 1] == c.comment
  }

  lemma {:induction false} EveryValueHasAnOrigin(tr: seq<World>, steps: seq<Step>, j: nat, c: Checkpoint)
    requires Behaviour(tr, steps) && Initial(tr[0]) && j < |tr|
    ensures Inv(tr[j])
    ensures (Stored(tr[j], c) || OnItsWay(tr[j], c)) && !Stored(tr[0], c) ==>
              exists i: nat :: i < j && IsOrigin(tr, steps, i, c)
  {
    if j > 0 {
      EveryValueHasAnOrigin(tr, steps, j - 1, c);
      StepKeepsInv(tr[j - 1], steps[j - 1]);
      if (Stored(tr[j], c) || OnItsWay(tr[j], c)) && !Stored(tr[0], c) {
        NewValuesAreConfirmed(tr[j - 1], steps[j - 1], c);
        if !(Stored(tr[j - 1], c) || OnItsWay(tr[j - 1], c)) {
          assert IsOrigin(tr, steps, j - 1, c);
        }
      }
    }
  }

  /** Reports are final, so whatever was confirmed stays delivered. */
  lemma {:induction false} DeliveredStaysDelivered(tr: seq<World>, steps: seq<Step>, i: nat, j: nat)
    requires Behaviour(tr, steps) && i <= j < |tr|
    ensures Grows(tr[i].reports, tr[j].reports)
    decreases j
  {
    if i < j {
      DeliveredStaysDelivered(tr, steps, i, j - 1);
      assert tr[j] == Apply(tr[j - 1], steps[j - 1]);
    }
  }

  ghost predicate StillDelivered(tr: seq<World>, steps: seq<Step>, i: nat, j: nat)
    requires i < |tr| && i < |steps| && steps[i].Confirm? && steps[i].w in tr[i].workers && j < |tr|
  {
    var w := steps[i].w;
    forall n: nat :: n < |tr[i].workers[w].comments| ==> Reported(w, n, tr[j].reports)
  }

  /**
   In every run, each checkpoint ever present in Redis or Postgres was there at the start or was
   first written by a worker that then held a success report for every message it had produced so
   far, the checkpointed comment's included; and those messages are delivered for good.
   */
  lemma DeliveryBeforeCheckpoint(tr: seq<World>, steps: seq<Step>, j: nat, c: Checkpoint)
    requires Behaviour(tr, steps) && Initial(tr[0]) && j < |tr|
    requires Stored(tr[j], c) && !Stored(tr[0], c)
    ensures exists i: nat :: i < j && IsOrigin(tr, steps, i, c) && StillDelivered(tr, steps, i, j)
  {
    EveryValueHasAnOrigin(tr, steps, j, c);
    var i: nat :| i < j && IsOrigin(tr, steps, i, c);
    DeliveredStaysDelivered(tr, steps, i, j);
    forall n: nat | n < |tr[i].workers[steps[i].w].comments|
      ensures Reported(steps[i].w, n, tr[j].reports)
    {
      assert Reported(steps[i].w, n, tr[i].reports);
    }
  }

  // ---------------------------------------------------------------------------------------------
  // Writes arrive

  /** A confirmed checkpoint can land at once, and is then the stored one; so can a held re-save. */
  lemma WritesCanLand(g: World, w: nat, comment: string)
    requires w in g.workers
    ensures var stream := g.workers[w].stream;
      && (Enabled(g, Confirm(w, comment)) ==>
            var sent := Apply(g, Confirm(w, comment));
            && Enabled(sent, Land(Checkpoint(stream, comment)))
            && stream in Apply(sent, Land(Checkpoint(stream, comment))).redis
            && Apply(sent, Land(Checkpoint(stream, comment))).redis[stream] == comment)
      && (Enabled(g, ShutdownRead(w)) ==>
            var sent := Apply(Apply(g, ShutdownRead(w)), ShutdownWrite(w));
            Enabled(sent, Land(Checkpoint(stream, g.redis[stream]))))
  {
  }

  /** A flusher that reads a stream's checkpoint can write it, and Postgres then holds it. */
  lemma FlushesCopy(g: World, stream: string)
    requires stream in g.redis
    ensures var read := Apply(g, FlushRead(stream));
      var c := Checkpoint(stream, g.redis[stream]);
      && Enabled(read, FlushWrite(c)) && read.redis == g.redis
      && stream in Apply(read, FlushWrite(c)).postgres && Apply(read, FlushWrite(c)).postgres[stream] == g.redis[stream]
      && forall x :: x in g.postgres && x != stream ==>
           x in Apply(read, FlushWrite(c)).postgres && Apply(read, FlushWrite(c)).postgres[x] == g.postgres[x]
  {
  }
}
