/**
 One worker's data path (worker.py): processing comments, checkpointing every hundred of them,
 and the way from a failure through the fetch handler, the breaker and the error handler to the
 end of the loop and the shutdown re-save.

 `Data` is the value of everything a worker's calls change, together with a log of what it did.
 The functions on `Data` say what one comment, one session, one run do; class `StreamWorker`
 performs them in place on its fields, its event loop, its checkpoint store and its breaker. The
 lemmas between the two are about every sequence of comments, sessions and turns.
 */
module StreamWorkers {
  import opened Common
  import opened ErrorHandling
  import opened CircuitBreakers
  import opened DeliveryWait
  import Protocol = CheckpointSafety

  datatype Happening =
    | Produced(number: nat, comment: string)
    | Written(comment: string, reports: Futures)   // a checkpoint write is attempted, with these reports in
    | DeliveryFailure
    | Interruption
    | Resaved(comment: string)       // the shutdown write of the checkpoint that was stored

  /** What the environment does while a call awaits Redis. */
  datatype Call = Goes(wire: Wire) | CancelledBefore | CancelledAfter
  {
    predicate Arrives() {
      CancelledAfter? || (Goes? && !wire.RequestLost?)
    }
  }

  /** What the environment does to one comment. */
  datatype CommentFate = CommentFate(
    wellFormed: bool,      // the message validates and serializes
    note: Call,            // recording an invalid comment
    noteError: Error,
    accepted: bool,        // produce() takes the message
    polled: bool,          // poll(0) after it does not raise
    script: Script,
    meanwhile: Meanwhile,  // while the checkpoint write is on its way
    save: Call)

  datatype CommentOutcome = Replayed | Queued | Invalid | NoteFailed | Undelivered | WasInterrupted

  /** What others do while the worker awaits something, as steps of the checkpoint protocol. */
  type Meanwhile = seq<Protocol.Step>

  /** What a session's `async for` meets: waiting or no comment, and comments. */
  datatype Item = Gap(meanwhile: Meanwhile) | Comment(id: string, stop: bool, fate: CommentFate)

  /** How an awaited call to Redis, Postgres or Reddit ends. */
  datatype Effort = Completes | Throws(error: Error) | IsCancelled

  /** One streaming session: fails to open, or yields comments and then ends somehow. */
  datatype SessionEnd = Exhausted | Broken(error: Error) | CancelledIdle
  datatype SessionFate = SessionFate(
    opening: Effort, comments: seq<Item>, end: SessionEnd, noting: Effort)

  /** How far the comments of a session got. */
  datatype Reach = Through | StopSeen | Threw(error: Error) | Cut

  datatype Result = Normal | Raises(error: Error) | CancelledResult

  /** One turn of the main loop: the clock, the session, and what handling an error meets. */
  datatype Turn = Turn(
    meanwhile: Meanwhile, start: real, finish: real, session: SessionFate,
    recording: Effort, noting: Effort, cancelSleep: bool)

  /** The end of a run: whether it is a shutdown, and how its re-save goes. */
  datatype Closing = Closing(shutdown: bool, before: Meanwhile, readFails: bool, meanwhile: Meanwhile, save: Call)

  /** Running until a delivery failure or a cancellation gets through. */
  datatype Status = Running | DeliveryBroken | Stopped

  datatype Settings = Settings(id: nat, stream: string, deliveryTimeout: real, breaker: Config)

  datatype Data = Data(
    pending: seq<Future>,
    sinceCheckpoint: nat,
    produced: nat,             // messages handed to Kafka; numbers the delivery futures
    futures: Futures,          // of the shared event loop
    stored: Option<string>,    // the checkpoint in Redis
    breaker: Breaker,
    saved: nat,                // produced when a checkpoint write was last acknowledged
    misses: nat,               // checkpoint writes that failed since then
    status: Status,
    log: seq<Happening>)

  const KAFKA_DELIVERY_ERROR: Error := Error({KafkaDeliveryError}, 0)

  // ---------------------------------------------------------------------------------------------
  // What the worker's methods do to its data

  function Fresh(c: Config, futures: Futures, stored: Option<string>): Data {
    Data([], 0, 0, futures, stored, Initial(c), 0, 0, Running, [])
  }

  function Log(d: Data, h: Happening): Data {
    d.(log := d.log + [h])
  }

  function Break(d: Data): Data {
    Log(d, DeliveryFailure).(status := DeliveryBroken)
  }

  function Interrupt(d: Data): Data {
    Log(d, Interruption).(status := Stopped)
  }

  /** What the worker notices of a step of somebody else. */
  function Notice(s: Settings, d: Data, step: Protocol.Step): Data {
    match step
    case Report(cb) => d.(futures := Complete(d.futures, cb))
    case Produce(f, _, _) => if f.worker != s.id then d.(futures := Create(d.futures, f)) else d
    case Land(c) => if c.stream == s.stream then d.(stored := Some(c.comment)) else d
    case _ => d
  }

  function Interfere(s: Settings, d: Data, m: Meanwhile): Data
    decreases |m|
  {
    if m == [] then d else Interfere(s, Notice(s, d, m[0]), m[1..])
  }

  /** The checkpoint write after a batch was delivered; a failed one is swallowed. */
  function Save(s: Settings, d: Data, comment: string, fate: CommentFate): (Data, CommentOutcome) {
    var d := Interfere(s, Log(d, Written(comment, d.futures)), fate.meanwhile);
    var d := d.(stored := if fate.save.Arrives() then Some(comment) else d.stored);
    if !fate.save.Goes? then (Interrupt(d), WasInterrupted)
    else
      var d := d.(sinceCheckpoint := 0);
      (if fate.save.wire.Answered? then d.(saved := d.produced, misses := 0) else d.(misses := d.misses + 1), Queued)
  }

  /** The hundredth comment: wait for the batch, then move the checkpoint. */
  function Checkpoint(s: Settings, d: Data, comment: string, fate: CommentFate): (Data, CommentOutcome) {
    var o := Wait(d.pending, d.futures, s.deliveryTimeout, fate.script);
    var d := d.(futures := o.futures, pending := if o.verdict.Cancelled? then d.pending else []);
    if o.verdict.Cancelled? then (Interrupt(d), WasInterrupted)
    else if o.verdict.AllDelivered? then Save(s, d, comment, fate)
    else (Break(d), Undelivered)
  }

  function Produce(s: Settings, d: Data, comment: string): Data {
    var f := Future(s.id, d.produced);
    Log(d, Produced(d.produced, comment)).(
      futures := Create(d.futures, f), pending := d.pending + [f], produced := d.produced + 1)
  }

  /** A message Kafka's client has taken; every hundredth moves the checkpoint. */
  function Enqueue(s: Settings, d: Data, comment: string, fate: CommentFate): (Data, CommentOutcome) {
    var d := Produce(s, d, comment);
    if !fate.polled then (Break(d), Undelivered)
    else
      var d := d.(sinceCheckpoint := d.sinceCheckpoint + 1);
      if d.sinceCheckpoint >= CHECKPOINT_INTERVAL then Checkpoint(s, d, comment, fate) else (d, Queued)
  }

  function Process(s: Settings, d: Data, comment: string, snapshot: Option<string>, fate: CommentFate)
    : (Data, CommentOutcome)
  {
    if snapshot == Some(comment) && comment != "" then (d, Replayed)
    else if !fate.wellFormed then
      if !fate.note.Goes? then (Interrupt(d), WasInterrupted)
      else (d, if fate.note.wire.Answered? then Invalid else NoteFailed)
    else if !fate.accepted then (Break(d), Undelivered)
    else Enqueue(s, d, comment, fate)
  }

  function Progressed(s: Settings, d: Data): Data {
    d.(breaker := Succeed(s.breaker, d.breaker))
  }

  function Comments(s: Settings, d: Data, snapshot: Option<string>, items: seq<Item>): (Data, Reach)
    decreases |items|
  {
    if items == [] then (d, Through)
    else
      match items[0]
      case Gap(m) => Comments(s, Interfere(s, d, m), snapshot, items[1..])
      case Comment(id, stop, fate) =>
        if stop then (d, StopSeen)
        else
          var (d, o) := Process(s, Progressed(s, d), id, snapshot, fate);
          match o
          case Undelivered => (d, Threw(KAFKA_DELIVERY_ERROR))
          case NoteFailed => (d, Threw(fate.noteError))
          case WasInterrupted => (d, Cut)
          case _ => Comments(s, d, snapshot, items[1..])
  }

  /** `_handle_fetch_exception`: a missing subreddit is also noted in the registry. */
  function HandleFetchException(e: Error, noting: Effort): Result {
    if TooManyRequests in e.classes || !InstanceOfAny(e, {NotFound, Forbidden}) then Raises(e)
    else
      match noting
      case Completes => Raises(e)
      case Throws(other) => Raises(other)
      case IsCancelled => CancelledResult
  }

  /** A cancellation is the end of the data path, unless that has ended already. */
  function Ended(d: Data, r: Result): (Data, Result) {
    (if r.CancelledResult? && d.status.Running? then Interrupt(d) else d, r)
  }

  function RunSession(s: Settings, d: Data, fate: SessionFate): (Data, Result) {
    match fate.opening
    // Opening the subreddit or reading the checkpoint raises outside the fetch handler.
    case Throws(e) => (d, Raises(e))
    case IsCancelled => Ended(d, CancelledResult)
    case Completes =>
      var (d, reach) := Comments(s, d, d.stored, fate.comments);
      match reach
      case Cut => (d, CancelledResult)
      case StopSeen => (d, Normal)
      case Threw(e) => Ended(d, HandleFetchException(e, fate.noting))
      case Through =>
        match fate.end
        case Exhausted => (d, Normal)
        case CancelledIdle => Ended(d, CancelledResult)
        case Broken(e) => Ended(d, HandleFetchException(e, fate.noting))
  }

  /** `_handle_error`: whether the loop goes on after this error, and what it raises if not. */
  function Recovery(e: Error, t: Turn): Result {
    match t.recording
    case Throws(other) => Raises(other)
    case IsCancelled => CancelledResult
    case Completes =>
      match HandleError(e)
      case Abandon =>
        (match t.noting
         case Completes => Raises(e)
         case Throws(other) => Raises(other)
         case IsCancelled => CancelledResult)
      case RetryAfter(_) => if t.cancelSleep then CancelledResult else Normal
      case Unhandled => Raises(e)
  }

  function TakeTurn(s: Settings, d: Data, t: Turn): (Data, Result) {
    var (b, admission) := Admit(d.breaker, t.start);
    var d := Interfere(s, d, t.meanwhile).(breaker := b);
    match admission
    case Rejected(after) => Ended(d, Recovery(Error({CircuitOpenError}, after), t))
    case Admitted =>
      var (d, r) := RunSession(s, d, t.session);
      match r
      case Normal => (Progressed(s, d), Normal)
      case CancelledResult => (d, CancelledResult)
      case Raises(e) => Ended(d.(breaker := Fail(s.breaker, d.breaker, e, t.finish)), Recovery(e, t))
  }

  /** The main loop; the stop event is seen once the turns are used up. */
  function Turns(s: Settings, d: Data, turns: seq<Turn>): (Data, Result)
    decreases |turns|
  {
    if turns == [] then (d, Normal)
    else
      var (d, r) := TakeTurn(s, d, turns[0]);
      if r.Normal? then Turns(s, d, turns[1..]) else (d, r)
  }

  /** The shutdown re-save finds a checkpoint to write back. */
  predicate Resaves(d: Data, c: Closing) {
    c.shutdown && !c.readFails && d.stored.Some? && d.stored.value != ""
  }

  /** The unguarded read and write of whatever checkpoint is stored, others writing in between. */
  function Resave(s: Settings, d: Data, c: Closing): Data {
    if !Resaves(d, c) then d
    else
      var last := d.stored.value;
      var d := Log(Interfere(s, d, c.meanwhile), Resaved(last));
      if c.save.Arrives() then d.(stored := Some(last)) else d
  }

  /** The end of `run`, whatever ended the loop. */
  function Close(s: Settings, d: Data, c: Closing): Data {
    Resave(s, Interfere(s, if d.status.Running? then d.(status := Stopped) else d, c.before), c)
  }

  /** `run` after the lease was verified. */
  function RunWorker(s: Settings, d: Data, turns: seq<Turn>, c: Closing): (Data, Result) {
    var (d, r) := Turns(s, d, turns);
    (Close(s, d, c), r)
  }

  // ---------------------------------------------------------------------------------------------
  // The worker object

  /** The stream's checkpoint hash in Redis. */
  class CheckpointStore {
    var lastCommentId: Option<string>

    method SetCheckpoint(comment: string, wire: Wire) returns (acknowledged: bool)
      modifies this
      ensures lastCommentId == if wire.RequestLost? then old(lastCommentId) else Some(comment)
      ensures acknowledged <==> wire.Answered?
    {
      if wire != RequestLost {
        lastCommentId := Some(comment);
      }
      acknowledged := wire == Answered;
    }
  }

  class StreamWorker {
    const id: nat
    const stream: string
    const deliveryTimeout: real
    const loop: EventLoop
    const registry: CheckpointStore
    const breaker: CircuitBreaker

    var commentsSinceCheckpoint: nat
    var pendingDeliveries: seq<Future>
    var produced: nat

    ghost var saved: nat
    ghost var misses: nat
    ghost var status: Status
    ghost var log: seq<Happening>

    ghost function Value(): Data
      reads this, loop, registry, breaker
    {
      Data(pendingDeliveries, commentsSinceCheckpoint, produced, loop.futures, registry.lastCommentId,
           breaker.Value(), saved, misses, status, log)
    }

    ghost function Setup(): Settings {
      Settings(id, stream, deliveryTimeout, breaker.config)
    }

    constructor (
        id: nat, stream: string, deliveryTimeout: real, loop: EventLoop, registry: CheckpointStore, breaker: CircuitBreaker)
      requires breaker.Value() == Initial(breaker.config)
      ensures Value() == Fresh(breaker.config, loop.futures, registry.lastCommentId)
      ensures this.id == id && this.stream == stream && this.deliveryTimeout == deliveryTimeout
      ensures this.loop == loop && this.registry == registry && this.breaker == breaker
    {
      this.id, this.stream, this.deliveryTimeout := id, stream, deliveryTimeout;
      this.loop, this.registry, this.breaker := loop, registry, breaker;
      commentsSinceCheckpoint, pendingDeliveries, produced := 0, [], 0;
      saved, misses, status, log := 0, 0, Running, [];
    }

    /** Waits for this worker's own futures only; every exit but a cancellation clears the list. */
    method WaitForDeliveryBatch(s: Script) returns (v: Verdict, ghost rounds: nat)
      modifies `pendingDeliveries, loop
      ensures var o := Wait(old(pendingDeliveries), old(loop.futures), deliveryTimeout, s);
        v == o.verdict && loop.futures == o.futures && rounds == o.rounds
      ensures pendingDeliveries == if v.Cancelled? then old(pendingDeliveries) else []
    {
      var deliveries := pendingDeliveries;
      rounds := 0;
      if deliveries == [] {
        return AllDelivered, 0;
      }
      var remaining, n := deliveryTimeout, 0;
      var pending := ToSet(deliveries);
      assert deliveries[0] in pending;
      ghost var goal := WaitFrom(deliveries, loop.futures, pending, remaining, s, 0);
      while true
        invariant pendingDeliveries == deliveries && rounds == n && pending != {}
        invariant goal == WaitFrom(deliveries, loop.futures, pending, remaining, s, n)
        decreases Budget(pending, remaining)
      {
        RoundsCost(deliveries, loop.futures, pending, remaining, s, n);
        var r := WaitOneRound(deliveries, pending, remaining, s, n);
        n := n + 1;
        rounds := n;
        if r.Ends? {
          if !r.verdict.Cancelled? {
            pendingDeliveries := [];
          }
          return r.verdict, rounds;
        }
        pending, remaining := r.pending, r.remaining;
      }
    }

    /** One round: poll, look which futures are still open, and wait a slice for them. */
    method WaitOneRound(own: seq<Future>, pending: set<Future>, remaining: real, s: Script, n: nat) returns (r: Round)
      modifies loop
      ensures r == PlayRound(own, old(loop.futures), pending, remaining, s, n)
      ensures loop.futures == r.futures
    {
      if s.polls(n).PollRaises? {
        return Ends(PollFailed, loop.futures);
      }
      var undone := Undone(pending, loop.futures);
      if undone == {} {
        return Ends(Judge(own, loop.futures), loop.futures);
      }
      if remaining <= 0.0 {
        return Ends(TimedOut(|undone|), loop.futures);
      }
      var aw := s.awaits(n);
      loop.Serve(aw.callbacks);
      if aw.Interrupted? {
        return Ends(Cancelled, loop.futures);
      }
      var left := Undone(undone, loop.futures);
      r := if left == {} then Ends(Judge(own, loop.futures), loop.futures)
           else Continues(loop.futures, left, remaining - Elapsed(aw, remaining, left != undone));
    }

    /** Writes a checkpoint; a failed write is swallowed, a cancellation is not. */
    method SaveCheckpointForCommentId(comment: string, save: Call) returns (acknowledged: bool, cancelled: bool)
      modifies registry
      ensures cancelled <==> !save.Goes?
      ensures acknowledged <==> save == Goes(Answered)
      ensures registry.lastCommentId == if save.Arrives() then Some(comment) else old(registry.lastCommentId)
    {
      match save {
        case Goes(wire) =>
          acknowledged := registry.SetCheckpoint(comment, wire);
          cancelled := false;
        case CancelledBefore =>
          acknowledged, cancelled := false, true;
        case CancelledAfter =>
          acknowledged := registry.SetCheckpoint(comment, Answered);
          acknowledged, cancelled := false, true;
      }
    }

    /** Others have their turn while the worker awaits. */
    method Yield(m: Meanwhile)
      modifies loop, registry
      ensures Value() == Interfere(Setup(), old(Value()), m)
    {
      ghost var goal := Interfere(Setup(), Value(), m);
      for i := 0 to |m|
        invariant goal == Interfere(Setup(), Value(), m[i..])
      {
        assert m[i..][0] == m[i] && m[i..][1..] == m[i + 1..];
        match m[i] {
          case Report(cb) => loop.CompleteDelivery(cb);
          case Produce(f, _, _) => if f.worker != id { loop.CreateFuture(f); }
          case Land(c) => if c.stream == stream { var _ := registry.SetCheckpoint(c.comment, Answered); }
          case _ =>
        }
      }
    }

    method ProcessComment(comment: string, snapshot: Option<string>, fate: CommentFate) returns (o: CommentOutcome)
      modifies this, loop, registry
      ensures (Value(), o) == Process(Setup(), old(Value()), comment, snapshot, fate)
    {
      if snapshot == Some(comment) && comment != "" {
        return Replayed;
      }
      if !fate.wellFormed {
        if !fate.note.Goes? {
          status, log := Stopped, log + [Interruption];
          return WasInterrupted;
        }
        return if fate.note.wire.Answered? then Invalid else NoteFailed;
      }
      if !fate.accepted {
        status, log := DeliveryBroken, log + [DeliveryFailure];
        return Undelivered;
      }
      o := EnqueueMessage(comment, fate);
    }

    method HandToKafka(comment: string)
      modifies this, loop
      ensures Value() == Produce(Setup(), old(Value()), comment)
    {
      loop.CreateFuture(Future(id, produced));
      pendingDeliveries := pendingDeliveries + [Future(id, produced)];
      log := log + [Produced(produced, comment)];
      produced := produced + 1;
    }

    method EnqueueMessage(comment: string, fate: CommentFate) returns (o: CommentOutcome)
      modifies this, loop, registry
      ensures (Value(), o) == Enqueue(Setup(), old(Value()), comment, fate)
    {
      HandToKafka(comment);
      if !fate.polled {
        status, log := DeliveryBroken, log + [DeliveryFailure];
        return Undelivered;
      }
      commentsSinceCheckpoint := commentsSinceCheckpoint + 1;
      o := Queued;
      if commentsSinceCheckpoint >= CHECKPOINT_INTERVAL {
        o := MoveCheckpoint(comment, fate);
      }
    }

    method MoveCheckpoint(comment: string, fate: CommentFate) returns (o: CommentOutcome)
      modifies this, loop, registry
      ensures (Value(), o) == Checkpoint(Setup(), old(Value()), comment, fate)
    {
      var verdict, _ := WaitForDeliveryBatch(fate.script);
      if verdict.Cancelled? {
        status, log := Stopped, log + [Interruption];
        return WasInterrupted;
      }
      if !verdict.AllDelivered? {
        status, log := DeliveryBroken, log + [DeliveryFailure];
        return Undelivered;
      }
      o := WriteCheckpoint(comment, fate);
    }

    /** The checkpoint write after a batch was delivered. */
    method WriteCheckpoint(comment: string, fate: CommentFate) returns (o: CommentOutcome)
      modifies this, loop, registry
      ensures (Value(), o) == Save(Setup(), old(Value()), comment, fate)
    {
      log := log + [Written(comment, loop.futures)];
      Yield(fate.meanwhile);
      var acknowledged, cancelled := SaveCheckpointForCommentId(comment, fate.save);
      if cancelled {
        status, log := Stopped, log + [Interruption];
        return WasInterrupted;
      }
      commentsSinceCheckpoint := 0;
      saved, misses := if acknowledged then produced else saved, if acknowledged then 0 else misses + 1;
      o := Queued;
    }

    /** One streaming session, with the fetch handler's treatment of what it raises. */
    method FetchAndProcessComments(s: SessionFate) returns (r: Result)
      modifies this, loop, registry, breaker
      ensures (Value(), r) == RunSession(Setup(), old(Value()), s)
    {
      match s.opening {
        case Throws(e) => return Raises(e);
        case IsCancelled => r := CancelledResult;
        case Completes =>
          var snapshot := registry.lastCommentId;
          var reach := ProcessAll(snapshot, s.comments);
          match reach {
            case Cut => return CancelledResult;
            case StopSeen => return Normal;
            case Threw(e) => r := HandleFetchException(e, s.noting);
            case Through =>
              match s.end {
                case Exhausted => return Normal;
                case CancelledIdle => r := CancelledResult;
                case Broken(e) => r := HandleFetchException(e, s.noting);
              }
          }
      }
      if r.CancelledResult? && status.Running? {
        status, log := Stopped, log + [Interruption];
      }
    }

    /** The session's `async for` over what the subreddit yields. */
    method ProcessAll(snapshot: Option<string>, items: seq<Item>) returns (reach: Reach)
      modifies this, loop, registry, breaker
      ensures (Value(), reach) == Comments(Setup(), old(Value()), snapshot, items)
    {
      ghost var goal := Comments(Setup(), Value(), snapshot, items);
      for i := 0 to |items|
        invariant goal == Comments(Setup(), Value(), snapshot, items[i..])
      {
        assert items[i..][0] == items[i] && items[i..][1..] == items[i + 1..];
        if items[i].Gap? {
          Yield(items[i].meanwhile);
          continue;
        }
        if items[i].stop {
          return StopSeen;
        }
        breaker.RecordSuccess();
        var o := ProcessComment(items[i].id, snapshot, items[i].fate);
        match o {
          case Undelivered => return Threw(KAFKA_DELIVERY_ERROR);
          case NoteFailed => return Threw(items[i].fate.noteError);
          case WasInterrupted => return Cut;
          case _ =>
        }
      }
      reach := Through;
    }

    /** One call through the breaker, and the error handler after it. */
    method CallOnce(t: Turn) returns (r: Result)
      modifies this, loop, registry, breaker
      ensures (Value(), r) == TakeTurn(Setup(), old(Value()), t)
    {
      Yield(t.meanwhile);
      var admission := breaker.BeginCall(t.start);
      var raised: Error;
      match admission {
        case Rejected(after) => raised := Error({CircuitOpenError}, after);
        case Admitted =>
          r := FetchAndProcessComments(t.session);
          match r {
            case Normal =>
              breaker.RecordSuccess();
              return;
            case CancelledResult => return;
            case Raises(e) =>
              breaker.RecordFailure(e, t.finish);
              raised := e;
          }
      }
      r := Recovery(raised, t);
      if r.CancelledResult? && status.Running? {
        status, log := Stopped, log + [Interruption];
      }
    }

    method StreamLoop(turns: seq<Turn>) returns (r: Result)
      modifies this, loop, registry, breaker
      ensures (Value(), r) == Turns(Setup(), old(Value()), turns)
    {
      ghost var goal := Turns(Setup(), Value(), turns);
      for i := 0 to |turns|
        invariant goal == Turns(Setup(), Value(), turns[i..])
      {
        assert turns[i..][0] == turns[i] && turns[i..][1..] == turns[i + 1..];
        r := CallOnce(turns[i]);
        if !r.Normal? {
          return;
        }
      }
      r := Normal;
    }

    /** Re-writes whatever checkpoint is stored when the worker shuts down. */
    method SaveCheckpoint(c: Closing)
      requires c.shutdown
      modifies `log, loop, registry
      ensures Value() == Resave(Setup(), old(Value()), c)
    {
      if !c.readFails && registry.lastCommentId.Some? && registry.lastCommentId.value != "" {
        var last := registry.lastCommentId.value;
        Yield(c.meanwhile);
        var _, _ := SaveCheckpointForCommentId(last, c.save);
        log := log + [Resaved(last)];
      }
    }

    method Run(turns: seq<Turn>, c: Closing) returns (r: Result)
      modifies this, loop, registry, breaker
      ensures (Value(), r) == RunWorker(Setup(), old(Value()), turns, c)
    {
      r := StreamLoop(turns);
      if status.Running? {
        status := Stopped;
      }
      Yield(c.before);
      if c.shutdown {
        SaveCheckpoint(c);
      }
    }
  }

  // ---------------------------------------------------------------------------------------------
  // What a worker's data may look like

  ghost predicate LogIsSound(worker: nat, log: seq<Happening>, status: Status, produced: nat) {
    // Once a failure or an interruption is logged, nothing but the shutdown re-save follows.
    && (forall i, j :: 0 <= i < j < |log| && (log[i].DeliveryFailure? || log[i].Interruption?) ==> log[j].Resaved?)
    && (status.Running? ==> forall i :: 0 <= i < |log| ==> log[i].Produced? || log[i].Written?)
    && (status.DeliveryBroken? <==> DeliveryFailure in log)
    // A checkpoint is written only when everything produced before it is reported delivered.
    && (forall i, j :: 0 <= i < j < |log| && log[i].Produced? && log[j].Written? ==>
          Reported(worker, log[i].number, log[j].reports))
    && (forall i :: 0 <= i < |log| && log[i].Produced? ==> log[i].number < produced)
  }

  ghost predicate Logged(worker: nat, d: Data) {
    LogIsSound(worker, d.log, d.status, d.produced)
  }

  /** The messages not yet known to be delivered are exactly those since the last checkpoint. */
  ghost predicate Batched(worker: nat, d: Data) {
    && d.sinceCheckpoint <= d.produced
    && d.pending == Numbered(worker, d.produced - d.sinceCheckpoint, d.produced)
    && AllReported(worker, d.produced - d.sinceCheckpoint, d.futures)
    && d.produced == d.saved + CHECKPOINT_INTERVAL * d.misses + d.sinceCheckpoint
  }

  /** The worker's futures in the loop are those of messages it has produced. */
  ghost predicate OnlyProduced(worker: nat, d: Data) {
    forall f :: f in d.futures && f.worker == worker ==> f.number < d.produced
  }

  ghost predicate Sound(worker: nat, d: Data) {
    && Logged(worker, d) && OnlyProduced(worker, d)
    && (d.status.Running? ==> Batched(worker, d) && d.sinceCheckpoint < CHECKPOINT_INTERVAL)
  }

  /** A new worker's nonce is new to the loop. */
  ghost predicate IsNew(worker: nat, futures: Futures) {
    forall f :: f in futures ==> f.worker != worker
  }

  lemma FreshIsSound(worker: nat, c: Config, futures: Futures, stored: Option<string>)
    requires IsNew(worker, futures)
    ensures Sound(worker, Fresh(c, futures, stored)) && Fresh(c, futures, stored).status.Running?
  {
  }

  lemma ReportedStays(worker: nat, n: nat, fs: Futures, fs': Futures)
    requires AllReported(worker, n, fs) && Grows(fs, fs')
    ensures AllReported(worker, n, fs')
  {
    forall k: nat | k < n
      ensures Reported(worker, k, fs')
    {
      assert Reported(worker, k, fs);
    }
  }

  /** Others complete and create futures and write checkpoints, and that is all the worker notices. */
  lemma {:induction false} InterferenceTouches(s: Settings, d: Data, m: Meanwhile)
    ensures Interfere(s, d, m) == d.(futures := Interfere(s, d, m).futures, stored := Interfere(s, d, m).stored)
    decreases |m|
  {
    if m != [] {
      InterferenceTouches(s, Notice(s, d, m[0]), m[1..]);
    }
  }

  lemma SaveKeepsBreaker(s: Settings, d: Data, comment: string, fate: CommentFate)
    ensures Save(s, d, comment, fate).0.breaker == d.breaker
  {
    InterferenceTouches(s, Log(d, Written(comment, d.futures)), fate.meanwhile);
  }

  lemma ProcessKeepsBreaker(s: Settings, d: Data, comment: string, snapshot: Option<string>, fate: CommentFate)
    ensures Process(s, d, comment, snapshot, fate).0.breaker == d.breaker
  {
    var e := Produce(s, d, comment).(sinceCheckpoint := d.sinceCheckpoint + 1);
    var o := Wait(e.pending, e.futures, s.deliveryTimeout, fate.script);
    SaveKeepsBreaker(s, e.(futures := o.futures, pending := []), comment, fate);
  }

  /** They lose no report, and complete only what was produced. */
  lemma {:induction false} InterferenceGrows(s: Settings, d: Data, m: Meanwhile)
    requires OnlyProduced(s.id, d)
    ensures var d' := Interfere(s, d, m);
      OnlyProduced(s.id, d') && Grows(d.futures, d'.futures) && d' == d.(futures := d'.futures, stored := d'.stored)
    decreases |m|
  {
    if m != [] {
      InterferenceGrows(s, Notice(s, d, m[0]), m[1..]);
    }
  }

  /** Others leave a worker's data as sound as it was. */
  lemma InterferenceKeepsSound(s: Settings, d: Data, m: Meanwhile)
    requires Sound(s.id, d)
    ensures Sound(s.id, Interfere(s, d, m)) && Grows(d.futures, Interfere(s, d, m).futures)
    ensures Interfere(s, d, m).status == d.status
  {
    InterferenceGrows(s, d, m);
    if d.status.Running? {
      ReportedStays(s.id, d.produced - d.sinceCheckpoint, d.futures, Interfere(s, d, m).futures);
    }
  }

  /** The batch's last message has just been produced, so its report cannot be in yet. */
  ghost predicate LastIsOpen(worker: nat, d: Data) {
    && d.sinceCheckpoint > 0 && d.produced > 0
    && Future(worker, d.produced - 1) in d.futures && d.futures[Future(worker, d.produced - 1)].Open?
  }

  /** The wait for a batch ends with a cancellation that arrives together with the last reports. */
  ghost predicate CutOffOnDelivery(s: Settings, d: Data, script: Script) {
    CancelledOnDelivery(d.pending, d.futures, s.deliveryTimeout, script)
  }

  /**
   The wait after a hundredth message returns normally if and only if everything produced so far is
   delivered when it ends, unless a cancellation arrives together with the last reports.
   */
  lemma WaitDecides(s: Settings, d: Data, script: Script)
    requires Batched(s.id, d) && OnlyProduced(s.id, d) && LastIsOpen(s.id, d)
    ensures var o := Wait(d.pending, d.futures, s.deliveryTimeout, script);
      && Grows(d.futures, o.futures) && o.futures.Keys == d.futures.Keys
      && (o.verdict.AllDelivered? ==> AllReported(s.id, d.produced, o.futures))
      && ((o.verdict.AllDelivered? <==> AllReported(s.id, d.produced, o.futures)) <==> !CutOffOnDelivery(s, d, script))
  {
    var o := Wait(d.pending, d.futures, s.deliveryTimeout, script);
    var from := d.produced - d.sinceCheckpoint;
    assert d.pending[d.sinceCheckpoint - 1] == Future(s.id, d.produced - 1);
    assert !AllDone(d.pending, d.futures);
    WaitIsExact(d.pending, d.futures, s.deliveryTimeout, script);
    NormalIffDeliveredExactlyWhen(d.pending, d.futures, s.deliveryTimeout, script);
    ReportedStays(s.id, from, d.futures, o.futures);
    BatchDecides(s.id, d, o.futures);
  }

  /** Everything produced is delivered if and only if everything in the batch is. */
  lemma BatchDecides(worker: nat, d: Data, fs: Futures)
    requires d.sinceCheckpoint <= d.produced && d.pending == Numbered(worker, d.produced - d.sinceCheckpoint, d.produced)
    requires AllReported(worker, d.produced - d.sinceCheckpoint, fs)
    ensures OwnDelivered(d.pending, fs) <==> AllReported(worker, d.produced, fs)
  {
    var from := d.produced - d.sinceCheckpoint;
    if OwnDelivered(d.pending, fs) {
      forall n: nat | n < d.produced
        ensures Reported(worker, n, fs)
      {
        if n >= from {
          assert d.pending[n - from] == Future(worker, n);
        }
      }
    }
    if AllReported(worker, d.produced, fs) {
      forall f | f in d.pending
        ensures IsDone(fs, f) && fs[f].report.Delivered?
      {
        assert Reported(worker, f.number, fs);
      }
    }
  }

  lemma LogExtends(worker: nat, d: Data, h: Happening, d': Data)
    requires Logged(worker, d) && d.status.Running?
    requires d'.log == d.log + [h] && d'.produced == d.produced + (if h.Produced? then 1 else 0)
    requires match h
             case Produced(n, _) => n == d.produced && d'.status.Running?
             case Written(_, reports) => AllReported(worker, d.produced, reports) && d'.status.Running?
             case DeliveryFailure => d'.status.DeliveryBroken?
             case Interruption => d'.status.Stopped?
             case Resaved(_) => false
    ensures Logged(worker, d')
  {
    forall i | 0 <= i < |d'.log|
      ensures d'.log[i] == if i < |d.log| then d.log[i] else h
    {
    }
    if d'.status.DeliveryBroken? {
      assert d'.log[|d.log|] == DeliveryFailure;
    }
  }

  lemma FailureKeepsSound(worker: nat, d: Data)
    requires Logged(worker, d) && OnlyProduced(worker, d) && d.status.Running?
    ensures Sound(worker, Break(d)) && Sound(worker, Interrupt(d))
  {
    LogExtends(worker, d, DeliveryFailure, Break(d));
    LogExtends(worker, d, Interruption, Interrupt(d));
  }

  lemma ProduceKeepsBatch(s: Settings, d: Data, comment: string)
    requires Sound(s.id, d) && d.status.Running?
    ensures var d' := Produce(s, d, comment);
      && Logged(s.id, d') && OnlyProduced(s.id, d') && Grows(d.futures, d'.futures)
      && Batched(s.id, d'.(sinceCheckpoint := d.sinceCheckpoint + 1))
      && LastIsOpen(s.id, d'.(sinceCheckpoint := d.sinceCheckpoint + 1))
  {
    LogExtends(s.id, d, Produced(d.produced, comment), Produce(s, d, comment));
    var from := d.produced - d.sinceCheckpoint;
    assert Numbered(s.id, from, d.produced) + [Future(s.id, d.produced)] == Numbered(s.id, from, d.produced + 1);
    ReportedStays(s.id, from, d.futures, Produce(s, d, comment).futures);
  }

  /** Only a delivery failure or a cancellation ends the worker's data path. */
  predicate Explains(o: CommentOutcome, status: Status) {
    status == if o.Undelivered? then DeliveryBroken else if o.WasInterrupted? then Stopped else Running
  }

  /** The data of a worker whose batch is delivered, up to the outcome of its checkpoint write. */
  lemma SaveKeepsSound(s: Settings, d: Data, comment: string, fate: CommentFate)
    requires Logged(s.id, d) && OnlyProduced(s.id, d) && d.status.Running? && d.pending == []
    requires AllReported(s.id, d.produced, d.futures)
    requires d.produced == d.saved + CHECKPOINT_INTERVAL * d.misses + CHECKPOINT_INTERVAL
    ensures var (d', o) := Save(s, d, comment, fate);
      Sound(s.id, d') && Grows(d.futures, d'.futures) && Explains(o, d'.status)
  {
    var w := Log(d, Written(comment, d.futures));
    LogExtends(s.id, d, Written(comment, d.futures), w);
    InterferenceGrows(s, w, fate.meanwhile);
    var e := Interfere(s, w, fate.meanwhile);
    ReportedStays(s.id, d.produced, d.futures, e.futures);
    FailureKeepsSound(s.id, e.(stored := if fate.save.Arrives() then Some(comment) else e.stored));
  }

  lemma CheckpointKeepsSound(s: Settings, d: Data, comment: string, fate: CommentFate)
    requires Logged(s.id, d) && OnlyProduced(s.id, d) && d.status.Running? && Batched(s.id, d)
    requires d.sinceCheckpoint == CHECKPOINT_INTERVAL && LastIsOpen(s.id, d)
    ensures var (d', o) := Checkpoint(s, d, comment, fate);
      Sound(s.id, d') && Grows(d.futures, d'.futures) && Explains(o, d'.status)
  {
    WaitDecides(s, d, fate.script);
    var o := Wait(d.pending, d.futures, s.deliveryTimeout, fate.script);
    var e := d.(futures := o.futures, pending := if o.verdict.Cancelled? then d.pending else []);
    if o.verdict.AllDelivered? {
      SaveKeepsSound(s, e, comment, fate);
    } else {
      FailureKeepsSound(s.id, e);
    }
  }

  lemma EnqueueKeepsSound(s: Settings, d: Data, comment: string, fate: CommentFate)
    requires Sound(s.id, d) && d.status.Running?
    ensures var (d', o) := Enqueue(s, d, comment, fate);
      Sound(s.id, d') && Explains(o, d'.status) && Grows(d.futures, d'.futures)
  {
    var e := Produce(s, d, comment);
    ProduceKeepsBatch(s, d, comment);
    if !fate.polled {
      FailureKeepsSound(s.id, e);
    } else if d.sinceCheckpoint + 1 == CHECKPOINT_INTERVAL {
      CheckpointKeepsSound(s, e.(sinceCheckpoint := CHECKPOINT_INTERVAL), comment, fate);
    }
  }

  lemma ProcessKeepsSound(s: Settings, d: Data, comment: string, snapshot: Option<string>, fate: CommentFate)
    requires Sound(s.id, d) && d.status.Running?
    ensures var (d', o) := Process(s, d, comment, snapshot, fate);
      Sound(s.id, d') && Explains(o, d'.status) && Grows(d.futures, d'.futures)
  {
    if fate.wellFormed && fate.accepted {
      EnqueueKeepsSound(s, d, comment, fate);
    } else {
      FailureKeepsSound(s.id, d);
    }
  }

  /** The hundredth message since the last checkpoint is with Kafka and its batch is waited for. */
  predicate ReachesCheckpoint(d: Data, comment: string, snapshot: Option<string>, fate: CommentFate) {
    && !(snapshot == Some(comment) && comment != "")
    && fate.wellFormed && fate.accepted && fate.polled && d.sinceCheckpoint + 1 == CHECKPOINT_INTERVAL
  }

  /** The worker goes on to write the comment's checkpoint, whatever then becomes of the write. */
  predicate Writes(d: Data, d': Data, comment: string) {
    && d.log + [Produced(d.produced, comment)] <= d'.log
    && |d'.log| > |d.log| + 1 && d'.log[|d.log| + 1].Written? && d'.log[|d.log| + 1].comment == comment
  }

  /** The worker's data as the wait for the batch finds it. */
  function Hundredth(s: Settings, d: Data, comment: string): Data {
    Produce(s, d, comment).(sinceCheckpoint := CHECKPOINT_INTERVAL)
  }

  /** What the wait for the batch comes to. */
  function BatchWait(s: Settings, d: Data, comment: string, fate: CommentFate): Outcome {
    var e := Hundredth(s, d, comment);
    Wait(e.pending, e.futures, s.deliveryTimeout, fate.script)
  }

  lemma WritesWhenDelivered(s: Settings, d: Data, comment: string, fate: CommentFate)
    requires Sound(s.id, d) && d.status.Running? && fate.polled && d.sinceCheckpoint + 1 == CHECKPOINT_INTERVAL
    requires BatchWait(s, d, comment, fate).verdict.AllDelivered?
    ensures var (d', o) := Enqueue(s, d, comment, fate);
      && Writes(d, d', comment)
      && d'.stored == if fate.save.Arrives() then Some(comment) else Interfere(s, d, fate.meanwhile).stored
  {
    ProduceKeepsBatch(s, d, comment);
    var e, reports := Hundredth(s, d, comment), BatchWait(s, d, comment, fate).futures;
    WaitDecides(s, e, fate.script);
    var w := Log(e.(futures := reports, pending := []), Written(comment, reports));
    InterferenceGrows(s, w, fate.meanwhile);
    SameStored(s, w, d, fate.meanwhile);
    assert w.log[|d.log| + 1] == Written(comment, reports);
  }

  lemma WritesExactlyWhen(s: Settings, d: Data, comment: string, snapshot: Option<string>, fate: CommentFate)
    requires Sound(s.id, d) && d.status.Running?
    ensures var (d', o) := Process(s, d, comment, snapshot, fate);
      && (Writes(d, d', comment) <==>
            ReachesCheckpoint(d, comment, snapshot, fate) && BatchWait(s, d, comment, fate).verdict.AllDelivered?)
      && (if Writes(d, d', comment) then
            d'.stored == if fate.save.Arrives() then Some(comment) else Interfere(s, d, fate.meanwhile).stored
          else d'.stored == d.stored)
  {
    if ReachesCheckpoint(d, comment, snapshot, fate) && BatchWait(s, d, comment, fate).verdict.AllDelivered? {
      WritesWhenDelivered(s, d, comment, fate);
    }
  }

  /** The stored checkpoint depends on others' writes alone. */
  lemma {:induction false} SameStored(s: Settings, d: Data, e: Data, m: Meanwhile)
    requires d.stored == e.stored
    ensures Interfere(s, d, m).stored == Interfere(s, e, m).stored
    decreases |m|
  {
    if m != [] {
      SameStored(s, Notice(s, d, m[0]), Notice(s, e, m[0]), m[1..]);
    }
  }

  /**
   A comment's checkpoint is written if and only if it is the hundredth since the last one, every
   message the worker ever produced is reported delivered when the wait for them ends, and no
   cancellation arrives together with the last of these reports. The stored checkpoint is moved by
   the worker only then, and only to this comment.
   */
  lemma CheckpointExactlyWhenDelivered(
      s: Settings, d: Data, comment: string, snapshot: Option<string>, fate: CommentFate)
    requires Sound(s.id, d) && d.status.Running?
    ensures var (d', o) := Process(s, d, comment, snapshot, fate);
      && (Writes(d, d', comment) <==>
            && ReachesCheckpoint(d, comment, snapshot, fate)
            && AllReported(s.id, d.produced + 1, BatchWait(s, d, comment, fate).futures)
            && !CutOffOnDelivery(s, Hundredth(s, d, comment), fate.script))
      && (if Writes(d, d', comment) then
            d'.stored == if fate.save.Arrives() then Some(comment) else Interfere(s, d, fate.meanwhile).stored
          else d'.stored == d.stored)
  {
    WritesExactlyWhen(s, d, comment, snapshot, fate);
    ProduceKeepsBatch(s, d, comment);
    if ReachesCheckpoint(d, comment, snapshot, fate) {
      WaitDecides(s, Hundredth(s, d, comment), fate.script);
    }
  }

  /**
   "The hundredth comment is checkpointed if and only if everything produced is delivered when the
   wait ends" fails exactly when a cancellation arrives together with the last reports.
   */
  lemma CheckpointIffDeliveredExactlyWhen(
      s: Settings, d: Data, comment: string, snapshot: Option<string>, fate: CommentFate)
    requires Sound(s.id, d) && d.status.Running? && ReachesCheckpoint(d, comment, snapshot, fate)
    ensures var (d', o) := Process(s, d, comment, snapshot, fate);
      (Writes(d, d', comment) <==> AllReported(s.id, d.produced + 1, BatchWait(s, d, comment, fate).futures))
        <==> !CutOffOnDelivery(s, Hundredth(s, d, comment), fate.script)
  {
    WritesExactlyWhen(s, d, comment, snapshot, fate);
    ProduceKeepsBatch(s, d, comment);
    WaitDecides(s, Hundredth(s, d, comment), fate.script);
  }

  predicate IsReplay(comment: string, snapshot: Option<string>) {
    snapshot == Some(comment) && comment != ""
  }

  /** Ends the path through a comment that was handed to Kafka: what the wait and the write came to. */
  function BatchOutcome(v: Verdict, save: Call): CommentOutcome {
    match v
    case AllDelivered => if save.Goes? then Queued else WasInterrupted
    case Cancelled => WasInterrupted
    case _ => Undelivered
  }

  /**
   The outcome of every comment, from the data and what happens to it: replayed if it is the stored
   one; invalid if it is malformed, or failing if that cannot be noted; undelivered if Kafka or its
   poll refuses it or the batch it completes is not delivered; interrupted if the note, the wait or
   the write is cancelled; and queued in every other case.
   */
  lemma OutcomeExactly(s: Settings, d: Data, comment: string, snapshot: Option<string>, fate: CommentFate)
    requires Sound(s.id, d) && d.status.Running?
    ensures Process(s, d, comment, snapshot, fate).1 ==
      if snapshot == Some(comment) && comment != "" then Replayed
      else if !fate.wellFormed then
        if fate.note == Goes(Answered) then Invalid else if fate.note.Goes? then NoteFailed else WasInterrupted
      else if !fate.accepted || !fate.polled then Undelivered
      else if d.sinceCheckpoint + 1 < 100 then Queued
      else BatchOutcome(BatchWait(s, d, comment, fate).verdict, fate.save)
  {
    ProduceKeepsBatch(s, d, comment);
  }

  /**
   What a comment costs: a message exactly if it is well formed, not replayed and accepted; and a
   queued one counts towards the next checkpoint, unless it is the hundredth, whose checkpoint write
   starts the count anew and is an acknowledged one or one more failed one.
   */
  lemma CountsExactly(s: Settings, d: Data, comment: string, snapshot: Option<string>, fate: CommentFate)
    requires Sound(s.id, d) && d.status.Running?
    ensures var (d', o) := Process(s, d, comment, snapshot, fate);
      && d'.produced == d.produced + (if !IsReplay(comment, snapshot) && fate.wellFormed && fate.accepted then 1 else 0)
      && (o.Replayed? || o.Invalid? || o.NoteFailed? ==> d' == d)
      && (o.Queued? && d.sinceCheckpoint + 1 < 100 ==>
            d'.sinceCheckpoint == d.sinceCheckpoint + 1 && d'.saved == d.saved && d'.misses == d.misses)
      && (o.Queued? && d.sinceCheckpoint + 1 == 100 ==>
            && d'.sinceCheckpoint == 0
            && (if fate.save == Goes(Answered) then d'.saved == d'.produced && d'.misses == 0
                else d'.saved == d.saved && d'.misses == d.misses + 1))
  {
    ProduceKeepsBatch(s, d, comment);
    var e := Hundredth(s, d, comment);
    InterferenceTouches(s, Log(e.(futures := BatchWait(s, d, comment, fate).futures, pending := []),
                              Written(comment, BatchWait(s, d, comment, fate).futures)), fate.meanwhile);
  }

  // ---------------------------------------------------------------------------------------------
  // Sessions and whole runs

  /** Nothing goes wrong with a comment: it becomes a message, and the batch it may complete is delivered. */
  predicate GoesWell(s: Settings, d: Data, snapshot: Option<string>, item: Item) {
    item.Comment? ==>
      && !item.stop && !(snapshot == Some(item.id) && item.id != "")
      && item.fate.wellFormed && item.fate.accepted && item.fate.polled
      && (d.sinceCheckpoint + 1 == 100 ==>
            BatchWait(s, Progressed(s, d), item.id, item.fate).verdict.AllDelivered? && item.fate.save.Goes?)
  }

  function CountComments(items: seq<Item>): nat {
    if items == [] then 0 else (if items[0].Comment? then 1 else 0) + CountComments(items[1..])
  }

  /** Nothing goes wrong in a session so far. */
  predicate AllGoesWell(s: Settings, d: Data, snapshot: Option<string>, items: seq<Item>)
    decreases |items|
  {
    items != [] ==>
      && GoesWell(s, d, snapshot, items[0])
      && var e := if items[0].Gap? then Interfere(s, d, items[0].meanwhile)
                  else Process(s, Progressed(s, d), items[0].id, snapshot, items[0].fate).0;
         AllGoesWell(s, e, snapshot, items[1..])
  }

  /** An undisturbed session gets through its comments and produces one message for each. */
  lemma {:induction false} UndisturbedSession(s: Settings, d: Data, snapshot: Option<string>, items: seq<Item>)
    requires Sound(s.id, d) && d.status.Running? && AllGoesWell(s, d, snapshot, items)
    ensures var (d', reach) := Comments(s, d, snapshot, items);
      reach.Through? && d'.status.Running? && d'.produced == d.produced + CountComments(items)
    decreases |items|
  {
    if items != [] && items[0].Gap? {
      InterferenceKeepsSound(s, d, items[0].meanwhile);
      InterferenceTouches(s, d, items[0].meanwhile);
      UndisturbedSession(s, Interfere(s, d, items[0].meanwhile), snapshot, items[1..]);
    } else if items != [] {
      var p, id, fate := Progressed(s, d), items[0].id, items[0].fate;
      assert Sound(s.id, p);
      OutcomeExactly(s, p, id, snapshot, fate);
      CountsExactly(s, p, id, snapshot, fate);
      ProcessKeepsSound(s, p, id, snapshot, fate);
      UndisturbedSession(s, Process(s, p, id, snapshot, fate).0, snapshot, items[1..]);
    }
  }

  /**
   The first comment that stops a session decides how it ends: a stop seen before it is processed, a
   failed note with that failure, an undelivered message with the delivery error, an interruption with
   the cancellation. No later comment matters.
   */
  lemma TroubleEndsTheSession(
      s: Settings, d: Data, snapshot: Option<string>, before: seq<Item>, item: Item, rest: seq<Item>)
    requires Comments(s, d, snapshot, before).1.Through? && item.Comment?
    ensures var e := Comments(s, d, snapshot, before).0;
      var (e', o) := Process(s, Progressed(s, e), item.id, snapshot, item.fate);
      var end := Comments(s, d, snapshot, before + [item] + rest);
      && (item.stop ==> end == (e, StopSeen))
      && (!item.stop && o.NoteFailed? ==> end == (e', Threw(item.fate.noteError)))
      && (!item.stop && o.Undelivered? ==> end == (e', Threw(KAFKA_DELIVERY_ERROR)))
      && (!item.stop && o.WasInterrupted? ==> end == (e', Cut))
      && (!item.stop && (o.Queued? || o.Replayed? || o.Invalid?) ==> end == Comments(s, e', snapshot, rest))
  {
    assert before + [item] + rest == before + ([item] + rest);
    assert ([item] + rest)[0] == item && ([item] + rest)[1..] == rest;
    CommentsContinue(s, d, snapshot, before, [item] + rest);
  }

  /**
   What comes out of the fetch handler: the error itself, except that for a missing or forbidden
   subreddit the note of it in the registry may fail or be cancelled instead.
   */
  lemma FetchErrorsComeOut(e: Error, noting: Effort)
    ensures HandleFetchException(e, noting) ==
      if (NotFound in e.classes || Forbidden in e.classes) && TooManyRequests !in e.classes && noting.Throws?
        then Raises(noting.error)
      else if (NotFound in e.classes || Forbidden in e.classes) && TooManyRequests !in e.classes && noting.IsCancelled?
        then CancelledResult
      else Raises(e)
  {
    assert InstanceOfAny(e, {NotFound, Forbidden}) <==> NotFound in e.classes || Forbidden in e.classes;
  }

  /** How a session ends, by how its opening, its comments and its stream end. */
  lemma SessionsEnd(s: Settings, d: Data, fate: SessionFate)
    requires Sound(s.id, d) && d.status.Running?
    ensures var (d', r) := RunSession(s, d, fate);
      var reach := Comments(s, d, d.stored, fate.comments).1;
      && (fate.opening.Throws? ==> r == Raises(fate.opening.error) && d' == d)
      && (fate.opening.IsCancelled? ==> r.CancelledResult? && d'.produced == d.produced)
      && (fate.opening.Completes? ==>
            && (reach.StopSeen? ==> r.Normal?)
            && (reach.Cut? ==> r.CancelledResult?)
            && (reach.Threw? ==> r == HandleFetchException(reach.error, fate.noting))
            && (reach.Through? ==>
                  r == match fate.end
                       case Exhausted => Normal
                       case CancelledIdle => CancelledResult
                       case Broken(e) => HandleFetchException(e, fate.noting))
            && d'.produced == Comments(s, d, d.stored, fate.comments).0.produced
            && d'.stored == Comments(s, d, d.stored, fate.comments).0.stored)
  {
  }

  /**
   What the error handler makes of an error: its own failing or cancelled calls come first; then a
   permanent error ends the loop, a retried one goes on after its sleep unless that is cancelled, and
   any other ends the loop.
   */
  lemma RecoveriesEnd(e: Error, t: Turn)
    ensures (t.recording.Throws? ==> Recovery(e, t) == Raises(t.recording.error))
    ensures (t.recording.IsCancelled? ==> Recovery(e, t) == CancelledResult)
    ensures t.recording.Completes? ==>
      && (HandleError(e).RetryAfter? ==> Recovery(e, t) == if t.cancelSleep then CancelledResult else Normal)
      && (HandleError(e).Unhandled? ==> Recovery(e, t) == Raises(e))
      && (HandleError(e).Abandon? ==>
            && (t.noting.Completes? ==> Recovery(e, t) == Raises(e))
            && (t.noting.Throws? ==> Recovery(e, t) == Raises(t.noting.error))
            && (t.noting.IsCancelled? ==> Recovery(e, t) == CancelledResult))
  {
  }

  lemma {:induction false} CommentsKeepSound(s: Settings, d: Data, snapshot: Option<string>, items: seq<Item>)
    requires Sound(s.id, d) && d.status.Running?
    ensures var (d', reach) := Comments(s, d, snapshot, items);
      && Sound(s.id, d')
      && (reach.Through? || reach.StopSeen? ==> d'.status.Running?)
      && (reach.Cut? <==> d'.status.Stopped?)
      && (d'.status.DeliveryBroken? ==> reach == Threw(KAFKA_DELIVERY_ERROR))
    decreases |items|
  {
    if items != [] {
      if items[0].Gap? {
        InterferenceKeepsSound(s, d, items[0].meanwhile);
        CommentsKeepSound(s, Interfere(s, d, items[0].meanwhile), snapshot, items[1..]);
      } else if !items[0].stop {
        ProcessKeepsSound(s, Progressed(s, d), items[0].id, snapshot, items[0].fate);
        var (e, o) := Process(s, Progressed(s, d), items[0].id, snapshot, items[0].fate);
        if e.status.Running? {
          CommentsKeepSound(s, e, snapshot, items[1..]);
        }
      }
    }
  }

  lemma EndingKeepsSound(worker: nat, d: Data, r: Result)
    requires Sound(worker, d) && !d.status.Stopped?
    ensures Sound(worker, Ended(d, r).0)
    ensures Ended(d, r).0.status == if d.status.Running? && r.CancelledResult? then Stopped else d.status
  {
    if d.status.Running? {
      FailureKeepsSound(worker, d);
    }
  }

  /** A delivery failure in a session comes out of the fetch handler as the same fatal error. */
  lemma SessionKeepsSound(s: Settings, d: Data, fate: SessionFate)
    requires Sound(s.id, d) && d.status.Running?
    ensures var (d', r) := RunSession(s, d, fate);
      && Sound(s.id, d')
      && (d'.status.DeliveryBroken? ==> r == Raises(KAFKA_DELIVERY_ERROR))
      && (d'.status.Stopped? <==> r.CancelledResult?)
  {
    EndingKeepsSound(s.id, d, CancelledResult);
    CommentsKeepSound(s, d, d.stored, fate.comments);
    var (e, reach) := Comments(s, d, d.stored, fate.comments);
    if reach.Threw? {
      EndingKeepsSound(s.id, e, HandleFetchException(reach.error, fate.noting));
    } else if reach.Through? && !fate.end.Exhausted? {
      EndingKeepsSound(s.id, e, RunSession(s, d, fate).1);
    }
  }

  /**
   The error handler never swallows it, whatever its own Redis and Postgres calls do: the loop is
   left with an exception, or with the cancellation that one of those calls met.
   */
  lemma DeliveryErrorIsFatal(t: Turn)
    ensures var r := Recovery(KAFKA_DELIVERY_ERROR, t);
      !r.Normal? && (r.CancelledResult? <==> t.recording.IsCancelled? || (t.recording.Completes? && t.noting.IsCancelled?))
  {
    assert KafkaDeliveryError in KAFKA_DELIVERY_ERROR.classes && KafkaDeliveryError in FATAL;
  }

  /** One of the error handler's own calls is cancelled. */
  predicate HandlerIsCancelled(t: Turn) {
    t.recording.IsCancelled? || t.noting.IsCancelled?
  }

  lemma TurnKeepsSound(s: Settings, d: Data, t: Turn)
    requires Sound(s.id, d) && d.status.Running?
    ensures var (d', r) := TakeTurn(s, d, t);
      && Sound(s.id, d')
      && (d'.status.DeliveryBroken? ==> r.Raises? || (r.CancelledResult? && HandlerIsCancelled(t)))
      && (d'.status.Stopped? ==> r.CancelledResult?)
      && (d'.status.Running? ==> !r.CancelledResult?)
  {
    var (b, admission) := Admit(d.breaker, t.start);
    var e := Interfere(s, d, t.meanwhile).(breaker := b);
    InterferenceKeepsSound(s, d, t.meanwhile);
    assert Sound(s.id, e);
    if admission.Rejected? {
      EndingKeepsSound(s.id, e, TakeTurn(s, d, t).1);
    } else {
      SessionKeepsSound(s, e, t.session);
      var (f, r) := RunSession(s, e, t.session);
      if r.Raises? {
        DeliveryErrorIsFatal(t);
        EndingKeepsSound(s.id, f.(breaker := Fail(s.breaker, f.breaker, r.error, t.finish)), Recovery(r.error, t));
      }
    }
  }

  lemma {:induction false} TurnsKeepSound(s: Settings, d: Data, turns: seq<Turn>)
    requires Sound(s.id, d) && d.status.Running?
    ensures var (d', r) := Turns(s, d, turns);
      && Sound(s.id, d')
      && (d'.status.DeliveryBroken? ==> !r.Normal?)
      && (d'.status.Stopped? ==> r.CancelledResult?)
      && (d'.status.Running? ==> !r.CancelledResult?)
    decreases |turns|
  {
    if turns != [] {
      TurnKeepsSound(s, d, turns[0]);
      var (e, r) := TakeTurn(s, d, turns[0]);
      if r.Normal? {
        TurnsKeepSound(s, e, turns[1..]);
      }
    }
  }

  lemma {:induction false} CommentsContinue(
      s: Settings, d: Data, snapshot: Option<string>, items: seq<Item>, more: seq<Item>)
    ensures var (d', reach) := Comments(s, d, snapshot, items);
      Comments(s, d, snapshot, items + more) == if reach.Through? then Comments(s, d', snapshot, more) else (d', reach)
    decreases |items|
  {
    if items == [] {
      assert items + more == more;
    } else {
      assert (items + more)[1..] == items[1..] + more;
      var e := match items[0]
        case Gap(m) => Interfere(s, d, m)
        case Comment(id, _, fate) => Process(s, Progressed(s, d), id, snapshot, fate).0;
      CommentsContinue(s, e, snapshot, items[1..], more);
    }
  }

  lemma {:induction false} TurnsContinue(s: Settings, d: Data, turns: seq<Turn>, more: seq<Turn>)
    ensures var (d', r) := Turns(s, d, turns);
      Turns(s, d, turns + more) == if r.Normal? then Turns(s, d', more) else (d', r)
    decreases |turns|
  {
    if turns == [] {
      assert turns + more == more;
    } else {
      assert (turns + more)[1..] == turns[1..] + more;
      TurnsContinue(s, TakeTurn(s, d, turns[0]).0, turns[1..], more);
    }
  }

  /**
   The main loop ends at the first turn that does not end normally, with what that turn ends with;
   and so does the run, whatever its closing does.
   */
  lemma FirstEndDecides(s: Settings, d: Data, before: seq<Turn>, t: Turn, rest: seq<Turn>, c: Closing)
    requires Turns(s, d, before).1.Normal?
    ensures var (e, r) := TakeTurn(s, Turns(s, d, before).0, t);
      && Turns(s, d, before + [t] + rest) == (if r.Normal? then Turns(s, e, rest) else (e, r))
      && (!r.Normal? ==> RunWorker(s, d, before + [t] + rest, c) == (Close(s, e, c), r))
    ensures RunWorker(s, d, before, c) == (Close(s, Turns(s, d, before).0, c), Normal)
  {
    assert before + [t] + rest == before + ([t] + rest);
    assert ([t] + rest)[0] == t && ([t] + rest)[1..] == rest;
    TurnsContinue(s, d, before, [t] + rest);
  }

  /** The worker's data in the middle of a session: in a turn's admitted call, after `items`. */
  function MidTurn(s: Settings, d: Data, t: Turn, items: seq<Item>): (Data, Reach) {
    var d := Interfere(s, d, t.meanwhile).(breaker := Admit(d.breaker, t.start).0);
    Comments(s, d, d.stored, items)
  }

  function MidSession(s: Settings, d: Data, turns: seq<Turn>, t: Turn, items: seq<Item>): (Data, Reach) {
    MidTurn(s, Turns(s, d, turns).0, t, items)
  }

  lemma MidTurnIsSound(s: Settings, d: Data, t: Turn, items: seq<Item>)
    requires Sound(s.id, d) && d.status.Running?
    ensures var (d', reach) := MidTurn(s, d, t, items);
      && Sound(s.id, d')
      && (d'.status.DeliveryBroken? ==> reach == Threw(KAFKA_DELIVERY_ERROR))
  {
    InterferenceKeepsSound(s, d, t.meanwhile);
    var e := Interfere(s, d, t.meanwhile).(breaker := Admit(d.breaker, t.start).0);
    assert Sound(s.id, e);
    CommentsKeepSound(s, e, e.stored, items);
  }

  /** The rest of the turn only touches the breaker. */
  lemma FailedTurnIsOver(s: Settings, d: Data, t: Turn, items: seq<Item>, more: seq<Item>)
    requires Sound(s.id, d) && d.status.Running? && Admit(d.breaker, t.start).1.Admitted?
    requires t.session.opening.Completes? && t.session.comments == items + more
    requires MidTurn(s, d, t, items).0.status.DeliveryBroken?
    ensures var (d', r) := TakeTurn(s, d, t);
      && !r.Normal? && (r.CancelledResult? ==> HandlerIsCancelled(t))
      && d' == MidTurn(s, d, t, items).0.(breaker := d'.breaker)
  {
    var e := Interfere(s, d, t.meanwhile).(breaker := Admit(d.breaker, t.start).0);
    MidTurnIsSound(s, d, t, items);
    CommentsContinue(s, e, e.stored, items, more);
    assert RunSession(s, e, t.session) == (Comments(s, e, e.stored, items).0, Raises(KAFKA_DELIVERY_ERROR));
    DeliveryErrorIsFatal(t);
  }

  /**
   Once a delivery failure is raised, no continuation of the run produces another message or moves
   the checkpoint forward: whatever the subreddit would still have yielded, however the session, the
   error handler's own calls and the remaining turns would have gone, the loop is left for good, by
   an exception unless the handler itself is cancelled. All that still happens is the closing: the
   shutdown re-save of the checkpoint that is stored by then.
   */
  lemma DeliveryFailureIsFinal(
      s: Settings, d: Data, turns: seq<Turn>, t: Turn, items: seq<Item>, more: seq<Item>, rest: seq<Turn>, c: Closing)
    requires Sound(s.id, d) && d.status.Running?
    requires Turns(s, d, turns).1.Normal? && Admit(Turns(s, d, turns).0.breaker, t.start).1.Admitted?
    requires t.session.opening.Completes? && t.session.comments == items + more
    requires MidSession(s, d, turns, t, items).0.status.DeliveryBroken?
    ensures var d' := MidSession(s, d, turns, t, items).0;
      var (end, r) := RunWorker(s, d, turns + [t] + rest, c);
      var e := Interfere(s, d'.(breaker := end.breaker), c.before);
      && !r.Normal? && (r.CancelledResult? ==> HandlerIsCancelled(t))
      && end == Resave(s, e, c) && end.produced == d'.produced
      && end.log == d'.log + if Resaves(e, c) then [Resaved(e.stored.value)] else []
  {
    TurnsKeepSound(s, d, turns);
    MidTurnIsSound(s, Turns(s, d, turns).0, t, items);
    FailedTurnIsOver(s, Turns(s, d, turns).0, t, items, more);
    TurnsContinue(s, d, turns, [t] + rest);
    assert ([t] + rest)[0] == t && turns + [t] + rest == turns + ([t] + rest);
    var d' := TakeTurn(s, Turns(s, d, turns).0, t).0;
    InterferenceGrows(s, d', c.before);
    var e := Interfere(s, d', c.before);
    InterferenceGrows(s, e, c.meanwhile);
  }

  /**
   Between comments of a live worker, in any session of any run, the pending list has one future
   for each comment since the checkpoint, fewer than a hundred; and after k failed checkpoint
   writes in a row fewer than 100 * (k + 1) messages lie beyond the last acknowledged one.
   */
  lemma ReplayWindow(s: Settings, futures: Futures, stored: Option<string>, turns: seq<Turn>, t: Turn, items: seq<Item>)
    requires IsNew(s.id, futures) && Turns(s, Fresh(s.breaker, futures, stored), turns).1.Normal?
    ensures var d := MidSession(s, Fresh(s.breaker, futures, stored), turns, t, items).0;
      d.status.Running? ==>
        && |d.pending| == d.sinceCheckpoint < CHECKPOINT_INTERVAL
        && d.produced - d.saved < CHECKPOINT_INTERVAL * (d.misses + 1)
  {
    var d := Fresh(s.breaker, futures, stored);
    FreshIsSound(s.id, s.breaker, futures, stored);
    TurnsKeepSound(s, d, turns);
    MidTurnIsSound(s, Turns(s, d, turns).0, t, items);
  }

  lemma ResaveKeepsSound(s: Settings, d: Data, c: Closing)
    requires Sound(s.id, d) && !d.status.Running?
    ensures Sound(s.id, Resave(s, d, c)) && Resave(s, d, c).status == d.status
  {
    InterferenceKeepsSound(s, d, c.meanwhile);
    InterferenceGrows(s, d, c.meanwhile);
  }

  lemma ClosingKeepsSound(s: Settings, d: Data, c: Closing)
    requires Sound(s.id, d)
    ensures Sound(s.id, Close(s, d, c)) && Close(s, d, c).status == if d.status.Running? then Stopped else d.status
  {
    var e := if d.status.Running? then d.(status := Stopped) else d;
    assert Sound(s.id, e);
    InterferenceKeepsSound(s, e, c.before);
    ResaveKeepsSound(s, Interfere(s, e, c.before), c);
  }

  /**
   The log of a finished run: after a failure or an interruption nothing but the re-save, and each
   checkpoint write with the reports that were in when it was sent, every message produced before
   it delivered.
   */
  lemma RunIsSound(s: Settings, futures: Futures, stored: Option<string>, turns: seq<Turn>, c: Closing)
    requires IsNew(s.id, futures)
    ensures var (d, r) := RunWorker(s, Fresh(s.breaker, futures, stored), turns, c);
      Sound(s.id, d) && !d.status.Running? && (d.status.DeliveryBroken? ==> !r.Normal?)
  {
    var d := Fresh(s.breaker, futures, stored);
    FreshIsSound(s.id, s.breaker, futures, stored);
    TurnsKeepSound(s, d, turns);
    ClosingKeepsSound(s, Turns(s, d, turns).0, c);
  }

  /**
   The re-save happens exactly on a shutdown whose read succeeds and finds a checkpoint, and then
   writes back the very value it read; otherwise the worker's end changes nothing.
   */
  lemma ResavesExactlyWhen(s: Settings, d: Data, c: Closing)
    ensures if c.shutdown && !c.readFails && d.stored.Some? && d.stored.value != "" then
              && Resave(s, d, c).log == d.log + [Resaved(d.stored.value)] && Resave(s, d, c).produced == d.produced
              && (c.save.Arrives() ==> Resave(s, d, c).stored == d.stored)
            else Resave(s, d, c) == d
  {
    InterferenceTouches(s, d, c.meanwhile);
  }

  /** The last checkpoint others wrote for the stream, if any. */
  function LastWrite(s: Settings, m: Meanwhile): Option<string> {
    if m == [] then None
    else
      var later := LastWrite(s, m[1..]);
      if later.Some? then later
      else if m[0].Land? && m[0].c.stream == s.stream then Some(m[0].c.comment) else None
  }

  lemma {:induction false} OthersWriteLast(s: Settings, d: Data, m: Meanwhile)
    ensures Interfere(s, d, m).stored == if LastWrite(s, m).Some? then LastWrite(s, m) else d.stored
    decreases |m|
  {
    if m != [] {
      OthersWriteLast(s, Notice(s, d, m[0]), m[1..]);
    }
  }

  /**
   The re-save is an unguarded read then write. It leaves the checkpoint as others left it unless
   the last of them wrote something else in between and the re-save arrives: it undoes that write.
   */
  lemma ResaveUndoesExactlyWhen(s: Settings, d: Data, c: Closing)
    ensures var left := if Resaves(d, c) then Interfere(s, d, c.meanwhile).stored else d.stored;
      var between := LastWrite(s, c.meanwhile);
      Resave(s, d, c).stored != left <==>
        Resaves(d, c) && c.save.Arrives() && between.Some? && between != d.stored
  {
    OthersWriteLast(s, d, c.meanwhile);
  }
}
