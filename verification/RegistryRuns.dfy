/**
 Many clients on one registry (stream_registry.py, dead_stream_cleanup.py), command by command.

 `create_stream` and `delete_stream` are sequences of Redis commands and interleave with each
 other; everything else a client may send (heartbeats, owner updates, finalizations, the
 unguarded status writes, stop keys, index maintenance, checkpoints) is a single command that may
 come from anybody at any time. Candidate ids (uuid4) are new, and so is every `updated_at` stamp.
 The purging delete, which nothing calls, is not among the steps.
 */
module RegistryRuns {
  import opened Common
  import opened Registry

  datatype Client =
    | CreateLook(subreddit: string, instance: string, config: string)
    | CreateBackfill(subreddit: string, existing: string)
    | CreateIdentify(subreddit: string, instance: string, config: string)
    | CreateRecall(subreddit: string, instance: string, config: string)
    | CreateClaim(subreddit: string, instance: string, config: string, id: string)
    | CreateWrite(subreddit: string, instance: string, config: string, id: string)
    | CreateTrack(subreddit: string, instance: string, id: string)
    | CreateIndex(subreddit: string, instance: string, id: string)
    | Created(subreddit: string, id: string)
    | CreateFailed(subreddit: string)
    | DeleteLook(id: string, expectedStatus: string, expectedUpdatedAt: string)
    | DeleteRun(id: string, subreddit: string, instance: string, expectedStatus: string, expectedUpdatedAt: string)
    | DeleteUnindex(id: string, instance: string)
    | Deleted(ok: bool)

  datatype Command =
    | Heartbeat(id: string, instance: string)
    | UpdateIfOwner(id: string, instance: string, status: string)
    | Finalize(id: string, lockExists: bool, expectedUpdatedAt: string)
    | WriteStatusCommand(id: string, status: string, owner: Option<string>)
    | StoreStop(id: string)
    | TrackCommand(instance: string, id: string)
    | UntrackCommand(instance: string, id: string)
    | PruneListing(id: string)
    | SetCheckpoint(id: string, value: string)

  datatype System = System(store: Store, clients: map<nat, Client>, usedIds: set<string>, usedStamps: set<string>)

  datatype Step =
    | Spawn(k: nat, client: Client)
    | Advance(k: nat, candidate: string, created: string, stamp: string)
    | Issue(command: Command, stamp: string)

  /** One command of one client. */
  function Act(s: Store, c: Client, candidate: string, created: string, stamp: string): (Store, Client) {
    match c
    case CreateLook(sub, instance, config) =>
      (s, if sub in s.claim && s.claim[sub] != "" then CreateBackfill(sub, s.claim[sub])
          else CreateIdentify(sub, instance, config))
    case CreateBackfill(sub, existing) =>
      (if sub in s.identity then s else s.(identity := s.identity[sub := existing]), CreateFailed(sub))
    case CreateIdentify(sub, instance, config) =>
      if sub in s.identity then (s, CreateRecall(sub, instance, config))
      else (s.(identity := s.identity[sub := candidate]), CreateClaim(sub, instance, config, candidate))
    case CreateRecall(sub, instance, config) =>
      (s, if sub in s.identity && s.identity[sub] != "" then CreateClaim(sub, instance, config, s.identity[sub])
          else CreateFailed(sub))
    case CreateClaim(sub, instance, config, id) =>
      if sub in s.claim then (s, CreateFailed(sub))
      else (s.(claim := s.claim[sub := id]), CreateWrite(sub, instance, config, id))
    case CreateWrite(sub, instance, config, id) =>
      (HSet(s, id, FullRecord(id, sub, instance, config, created, stamp)), CreateTrack(sub, instance, id))
    case CreateTrack(sub, instance, id) =>
      (s.(all := s.all + {id}), if instance != "" then CreateIndex(sub, instance, id) else Created(sub, id))
    case CreateIndex(sub, instance, id) => (Track(s, instance, id), Created(sub, id))
    case DeleteLook(id, status, updated) =>
      (s, var sub := HGet(s, id, Subreddit);
          if sub.None? || sub.value == "" then Deleted(false)
          else
            var instance := HGet(s, id, InstanceId);
            DeleteRun(id, sub.value, if instance.Some? then instance.value else "", status, updated))
    case DeleteRun(id, sub, instance, status, updated) =>
      (DeleteIfUnchanged(s, id, sub, status, updated, false),
       if !Unchanged(s, id, status, updated) then Deleted(false)
       else if instance != "" then DeleteUnindex(id, instance) else Deleted(true))
    case DeleteUnindex(id, instance) => (Untrack(s, instance, id), Deleted(true))
    case _ => (s, c)
  }

  function Perform(s: Store, c: Command, stamp: string): Store {
    match c
    case Heartbeat(id, instance) => HeartbeatIfActive(s, id, instance, stamp)
    case UpdateIfOwner(id, instance, status) => UpdateStatusIfOwner(s, id, instance, status, stamp)
    case Finalize(id, lockExists, updated) => FinalizeStopIfUnowned(s, id, lockExists, updated, stamp)
    case WriteStatusCommand(id, status, owner) => WriteStatus(s, id, status, owner, stamp)
    case StoreStop(id) => s.(stops := s.stops + {id})
    case TrackCommand(instance, id) => Track(s, instance, id)
    case UntrackCommand(instance, id) => Untrack(s, instance, id)
    case PruneListing(id) => s.(all := s.all - {id})
    case SetCheckpoint(id, value) => s.(checkpoints := s.checkpoints[id := value])
  }

  ghost predicate Enabled(y: System, step: Step) {
    match step
    case Spawn(k, c) => k !in y.clients && (c.CreateLook? || c.DeleteLook?)
    case Advance(k, candidate, _, stamp) =>
      k in y.clients && candidate !in y.usedIds && candidate != "" && stamp !in y.usedStamps && stamp != ""
    case Issue(_, stamp) => stamp !in y.usedStamps && stamp != ""
  }

  ghost function Apply(y: System, step: Step): System
    requires Enabled(y, step)
  {
    match step
    case Spawn(k, c) => y.(clients := y.clients[k := c])
    case Advance(k, candidate, created, stamp) =>
      var (s, c) := Act(y.store, y.clients[k], candidate, created, stamp);
      System(s, y.clients[k := c], y.usedIds + {candidate}, y.usedStamps + {stamp})
    case Issue(command, stamp) => y.(store := Perform(y.store, command, stamp), usedStamps := y.usedStamps + {stamp})
  }

  ghost predicate Behaviour(tr: seq<System>, steps: seq<Step>) {
    && |tr| == |steps| + 1 && Initial(tr[0])
    && forall i {:trigger steps[i]} :: 0 <= i < |steps| ==> Enabled(tr[i], steps[i]) && tr[i + 1] == Apply(tr[i], steps[i])
  }

  // ---------------------------------------------------------------------------------------------
  // Identity

  /**
   The id a subreddit is bound to: its identity key or, for a stream created before identity keys
   existed, its claim.
   */
  ghost predicate Bound(s: Store, sub: string, id: string) {
    if sub in s.identity then s.identity[sub] == id else sub in s.claim && s.claim[sub] == id
  }

  ghost predicate StoreInv(s: Store, usedIds: set<string>) {
    && (forall sub, id :: Bound(s, sub, id) ==> id in usedIds && id != "")
    && (forall sub1, sub2, id :: Bound(s, sub1, id) && Bound(s, sub2, id) ==> sub1 == sub2)
    && (forall sub :: sub in s.claim ==> Bound(s, sub, s.claim[sub]))
    && RecordsInv(s)
  }

  /** A record that names its stream or its subreddit names the right one. */
  ghost predicate RecordsInv(s: Store) {
    && (forall id :: id in s.meta && Subreddit in s.meta[id] ==> Bound(s, s.meta[id][Subreddit], id))
    && (forall id :: id in s.meta && Id in s.meta[id] ==> s.meta[id][Id] == id)
  }

  ghost predicate ClientInv(s: Store, c: Client) {
    match c
    case CreateBackfill(sub, existing) => Bound(s, sub, existing)
    case CreateIdentify(sub, _, _) => sub in s.claim ==> sub in s.identity
    case CreateRecall(sub, _, _) => sub in s.identity
    case CreateClaim(sub, _, _, id) => sub in s.identity && s.identity[sub] == id
    case CreateWrite(sub, _, _, id) => sub in s.identity && s.identity[sub] == id
    case CreateTrack(sub, _, id) => Bound(s, sub, id)
    case CreateIndex(sub, _, id) => Bound(s, sub, id)
    case Created(sub, id) => Bound(s, sub, id)
    case DeleteRun(id, sub, _, _, _) => Bound(s, sub, id)
    case _ => true
  }

  ghost predicate Inv(y: System) {
    && StoreInv(y.store, y.usedIds)
    && forall k :: k in y.clients ==> ClientInv(y.store, y.clients[k])
  }

  /** Any registry an earlier version may have left behind, with no client at work. */
  ghost predicate Initial(y: System) {
    StoreInv(y.store, y.usedIds) && y.clients == map[] && Stamped(y)
  }

  /** Every record carries a stamp of some past write. */
  ghost predicate Stamped(y: System) {
    && "" !in y.usedStamps
    && forall id :: id in y.store.meta ==> UpdatedAt in y.store.meta[id] && y.store.meta[id][UpdatedAt] in y.usedStamps
  }

  /** Bindings are only ever added: a new id for the subreddit that is just being identified. */
  ghost predicate Binds(s: Store, s': Store, c: Client, candidate: string) {
    && (forall sub, id :: Bound(s, sub, id) ==> Bound(s', sub, id))
    && (forall sub, id :: Bound(s', sub, id) ==>
          Bound(s, sub, id) || (c.CreateIdentify? && sub == c.subreddit && id == candidate))
  }

  lemma ActBinds(s: Store, c: Client, candidate: string, created: string, stamp: string, usedIds: set<string>)
    requires StoreInv(s, usedIds) && ClientInv(s, c) && candidate !in usedIds && candidate != ""
    ensures Binds(s, Act(s, c, candidate, created, stamp).0, c, candidate)
  {
  }

  /** A command leaves each record it leaves at all as it was, or writes it in full. */
  lemma ActWritesFullRecords(s: Store, c: Client, candidate: string, created: string, stamp: string, id: string)
    requires id in Act(s, c, candidate, created, stamp).0.meta
    ensures var r := Act(s, c, candidate, created, stamp).0.meta[id];
      || (id in s.meta && r == s.meta[id])
      || (c.CreateWrite? && id == c.id && r[Id] == id && r[Subreddit] == c.subreddit)
  {
  }

  lemma ActKeepsRecords(s: Store, c: Client, candidate: string, created: string, stamp: string, usedIds: set<string>)
    requires StoreInv(s, usedIds) && ClientInv(s, c) && candidate !in usedIds && candidate != ""
    ensures RecordsInv(Act(s, c, candidate, created, stamp).0)
  {
    ActBinds(s, c, candidate, created, stamp, usedIds);
    var s' := Act(s, c, candidate, created, stamp).0;
    forall id | id in s'.meta
      ensures Subreddit in s'.meta[id] ==> Bound(s', s'.meta[id][Subreddit], id)
      ensures Id in s'.meta[id] ==> s'.meta[id][Id] == id
    {
      ActWritesFullRecords(s, c, candidate, created, stamp, id);
    }
  }

  lemma ActKeepsInjectivity(s: Store, s': Store, c: Client, candidate: string, usedIds: set<string>)
    requires StoreInv(s, usedIds) && Binds(s, s', c, candidate) && candidate !in usedIds
    ensures forall sub1, sub2, id :: Bound(s', sub1, id) && Bound(s', sub2, id) ==> sub1 == sub2
  {
  }

  lemma ActKeepsStoreInv(s: Store, c: Client, candidate: string, created: string, stamp: string, usedIds: set<string>)
    requires StoreInv(s, usedIds) && ClientInv(s, c) && candidate !in usedIds && candidate != ""
    ensures StoreInv(Act(s, c, candidate, created, stamp).0, usedIds + {candidate})
  {
    var s' := Act(s, c, candidate, created, stamp).0;
    ActBinds(s, c, candidate, created, stamp, usedIds);
    ActKeepsRecords(s, c, candidate, created, stamp, usedIds);
    ActKeepsInjectivity(s, s', c, candidate, usedIds);
    forall sub | sub in s'.claim
      ensures Bound(s', sub, s'.claim[sub])
    {
      assert sub in s.claim ==> Bound(s, sub, s.claim[sub]);
    }
  }

  /** What a client relies on survives everybody's commands. */
  lemma ActKeepsClientInv(
      s: Store, c: Client, candidate: string, created: string, stamp: string, usedIds: set<string>, other: Client)
    requires StoreInv(s, usedIds) && ClientInv(s, c) && candidate !in usedIds && candidate != ""
    requires ClientInv(s, other)
    ensures var (s', c') := Act(s, c, candidate, created, stamp); ClientInv(s', c') && ClientInv(s', other)
  {
    ActBinds(s, c, candidate, created, stamp, usedIds);
  }

  /** Single commands never write a record's id or subreddit. */
  lemma PerformKeepsNames(s: Store, c: Command, stamp: string, id: string, f: Field)
    requires f == Id || f == Subreddit
    ensures HGet(Perform(s, c, stamp), id, f) == HGet(s, id, f)
  {
  }

  lemma PerformBinds(s: Store, c: Command, stamp: string, usedIds: set<string>)
    requires StoreInv(s, usedIds)
    ensures var s' := Perform(s, c, stamp);
      s'.identity == s.identity && s'.claim == s.claim && StoreInv(s', usedIds)
  {
    var s' := Perform(s, c, stamp);
    assert s'.identity == s.identity && s'.claim == s.claim;
    assert forall sub, id :: Bound(s', sub, id) <==> Bound(s, sub, id);
    forall id | id in s'.meta
      ensures HGet(s', id, Id) == HGet(s, id, Id) && HGet(s', id, Subreddit) == HGet(s, id, Subreddit)
    {
      PerformKeepsNames(s, c, stamp, id, Id);
      PerformKeepsNames(s, c, stamp, id, Subreddit);
    }
  }

  lemma StepKeepsInv(y: System, step: Step)
    requires Inv(y) && Enabled(y, step)
    ensures var y' := Apply(y, step);
      Inv(y') && forall sub, id :: Bound(y.store, sub, id) ==> Bound(y'.store, sub, id)
  {
    var y' := Apply(y, step);
    match step
    case Spawn(k, c) =>
    case Advance(k, candidate, created, stamp) =>
      ActBinds(y.store, y.clients[k], candidate, created, stamp, y.usedIds);
      ActKeepsStoreInv(y.store, y.clients[k], candidate, created, stamp, y.usedIds);
      forall l | l in y'.clients
        ensures ClientInv(y'.store, y'.clients[l])
      {
        ActKeepsClientInv(y.store, y.clients[k], candidate, created, stamp, y.usedIds, y.clients[l]);
      }
    case Issue(command, stamp) =>
      PerformBinds(y.store, command, stamp, y.usedIds);
      assert forall sub, id :: Bound(y'.store, sub, id) <==> Bound(y.store, sub, id);
  }

  lemma {:induction false} Invariant(tr: seq<System>, steps: seq<Step>, i: nat)
    requires Behaviour(tr, steps) && i < |tr|
    ensures Inv(tr[i])
  {
    if i > 0 {
      Invariant(tr, steps, i - 1);
      StepKeepsInv(tr[i - 1], steps[i - 1]);
    }
  }

  lemma {:induction false} BindingsStay(tr: seq<System>, steps: seq<Step>, i: nat, j: nat, sub: string, id: string)
    requires Behaviour(tr, steps) && i <= j < |tr| && Bound(tr[i].store, sub, id)
    ensures Bound(tr[j].store, sub, id)
    decreases j
  {
    if i < j {
      BindingsStay(tr, steps, i, j - 1, sub, id);
      Invariant(tr, steps, j - 1);
      StepKeepsInv(tr[j - 1], steps[j - 1]);
    }
  }

  /**
   Under any interleaving, across deletions and re-creations: the id a subreddit was once bound to,
   and any id a create returned for it, is the id every later create returns for it, and no other
   subreddit is ever given that id.
   */
  lemma StableIdentity(tr: seq<System>, steps: seq<Step>, i: nat, j: nat, k: nat, id: string, sub: string)
    requires Behaviour(tr, steps) && i <= j < |tr|
    requires Bound(tr[i].store, sub, id) || (exists l :: l in tr[i].clients && tr[i].clients[l] == Created(sub, id))
    requires k in tr[j].clients && tr[j].clients[k].Created?
    ensures tr[j].clients[k].subreddit == sub <==> tr[j].clients[k].id == id
  {
    Invariant(tr, steps, i);
    Invariant(tr, steps, j);
    BindingsStay(tr, steps, i, j, sub, id);
    assert ClientInv(tr[j].store, tr[j].clients[k]);
  }

  /** An identity key, once set, is never changed and never removed. */
  lemma ActKeepsIdentityKeys(s: Store, c: Client, candidate: string, created: string, stamp: string, usedIds: set<string>, sub: string)
    requires StoreInv(s, usedIds) && ClientInv(s, c) && sub in s.identity
    ensures var s' := Act(s, c, candidate, created, stamp).0;
      sub in s'.identity && s'.identity[sub] == s.identity[sub]
  {
  }

  lemma StepKeepsIdentityKeys(y: System, step: Step, sub: string)
    requires Inv(y) && Enabled(y, step) && sub in y.store.identity
    ensures var s' := Apply(y, step).store; sub in s'.identity && s'.identity[sub] == y.store.identity[sub]
  {
    if step.Advance? {
      assert ClientInv(y.store, y.clients[step.k]);
      ActKeepsIdentityKeys(y.store, y.clients[step.k], step.candidate, step.created, step.stamp, y.usedIds, sub);
    } else if step.Issue? {
      PerformBinds(y.store, step.command, step.stamp, y.usedIds);
    }
  }

  lemma {:induction false} IdentityKeyIsFinal(tr: seq<System>, steps: seq<Step>, i: nat, j: nat, sub: string)
    requires Behaviour(tr, steps) && i <= j < |tr| && sub in tr[i].store.identity
    ensures sub in tr[j].store.identity && tr[j].store.identity[sub] == tr[i].store.identity[sub]
    decreases j
  {
    if i < j {
      IdentityKeyIsFinal(tr, steps, i, j - 1, sub);
      Invariant(tr, steps, j - 1);
      StepKeepsIdentityKeys(tr[j - 1], steps[j - 1], sub);
    }
  }

  predicate WritesCheckpoint(step: Step, id: string) {
    step.Issue? && step.command.SetCheckpoint? && step.command.id == id
  }

  lemma ActKeepsCheckpoints(s: Store, c: Client, candidate: string, created: string, stamp: string)
    ensures Act(s, c, candidate, created, stamp).0.checkpoints == s.checkpoints
  {
  }

  lemma PerformKeepsCheckpoints(s: Store, c: Command, stamp: string)
    ensures Perform(s, c, stamp).checkpoints == if c.SetCheckpoint? then s.checkpoints[c.id := c.value] else s.checkpoints
  {
  }

  /** The only step that changes checkpoints is a checkpoint write. */
  lemma StepKeepsCheckpoints(y: System, step: Step)
    requires Enabled(y, step)
    ensures Apply(y, step).store.checkpoints ==
      if step.Issue? && step.command.SetCheckpoint? then y.store.checkpoints[step.command.id := step.command.value]
      else y.store.checkpoints
  {
    match step
    case Spawn(_, _) =>
    case Advance(k, candidate, created, stamp) =>
      ActKeepsCheckpoints(y.store, y.clients[k], candidate, created, stamp);
    case Issue(command, stamp) =>
      PerformKeepsCheckpoints(y.store, command, stamp);
  }

  lemma CheckpointsAfterStep(tr: seq<System>, steps: seq<Step>, n: nat, id: string)
    requires Behaviour(tr, steps) && n < |steps| && id in tr[n].store.checkpoints
    ensures id in tr[n + 1].store.checkpoints
    ensures WritesCheckpoint(steps[n], id) || tr[n + 1].store.checkpoints[id] == tr[n].store.checkpoints[id]
  {
    StepKeepsCheckpoints(tr[n], steps[n]);
  }

  lemma CheckpointKeysAfterStep(tr: seq<System>, steps: seq<Step>, n: nat, id: string)
    requires Behaviour(tr, steps) && n < |steps| && id in tr[n].store.checkpoints
    ensures id in tr[n + 1].store.checkpoints
  {
    CheckpointsAfterStep(tr, steps, n, id);
  }

  /** No step removes a checkpoint. */
  lemma {:induction false} CheckpointsAreKept(tr: seq<System>, steps: seq<Step>, i: nat, j: nat, id: string)
    requires Behaviour(tr, steps) && i <= j < |tr| && id in tr[i].store.checkpoints
    ensures id in tr[j].store.checkpoints
    decreases j
  {
    if i < j {
      CheckpointsAreKept(tr, steps, i, j - 1, id);
      CheckpointKeysAfterStep(tr, steps, j - 1, id);
    }
  }

  /**
   Stops, cleanups and restarts leave checkpoints alone: only a checkpoint write of that stream
   changes its checkpoint.
   */
  lemma {:induction false} CheckpointsSurvive(tr: seq<System>, steps: seq<Step>, i: nat, j: nat, id: string)
    requires Behaviour(tr, steps) && i <= j < |tr| && id in tr[i].store.checkpoints
    requires forall n :: i <= n < j ==> !WritesCheckpoint(steps[n], id)
    ensures id in tr[j].store.checkpoints && tr[j].store.checkpoints[id] == tr[i].store.checkpoints[id]
    decreases j
  {
    if i < j {
      CheckpointsSurvive(tr, steps, i, j - 1, id);
      CheckpointsAfterStep(tr, steps, j - 1, id);
    }
  }

  // ---------------------------------------------------------------------------------------------
  // One winner per generation

  /** In step i a creator claims the subreddit. */
  ghost predicate Wins(tr: seq<System>, steps: seq<Step>, i: nat, sub: string)
    requires Behaviour(tr, steps) && i < |steps|
  {
    && steps[i].Advance?
    && tr[i].clients[steps[i].k].CreateClaim? && tr[i].clients[steps[i].k].subreddit == sub
    && tr[i + 1].clients[steps[i].k].CreateWrite?
  }

  /** In step i the delete script removes the subreddit's claim, for the record it was made for. */
  ghost predicate Removes(tr: seq<System>, steps: seq<Step>, i: nat, sub: string)
    requires Behaviour(tr, steps) && i < |steps|
  {
    && sub in tr[i].store.claim && sub !in tr[i + 1].store.claim
    && steps[i].Advance? && tr[i].clients[steps[i].k].DeleteRun?
    && tr[i].clients[steps[i].k].id == tr[i].store.claim[sub]
  }

  lemma ActKeepsClaims(s: Store, c: Client, candidate: string, created: string, stamp: string, sub: string)
    requires sub in s.claim
    ensures var s' := Act(s, c, candidate, created, stamp).0;
      if sub in s'.claim then s'.claim[sub] == s.claim[sub] else c.DeleteRun? && c.id == s.claim[sub]
  {
  }

  lemma PerformKeepsClaims(s: Store, c: Command, stamp: string)
    ensures Perform(s, c, stamp).claim == s.claim
  {
  }

  lemma StepKeepsClaims(y: System, step: Step, sub: string)
    requires Enabled(y, step) && sub in y.store.claim
    ensures var claim := Apply(y, step).store.claim;
      if sub in claim then claim[sub] == y.store.claim[sub]
      else step.Advance? && y.clients[step.k].DeleteRun? && y.clients[step.k].id == y.store.claim[sub]
  {
    match step
    case Spawn(_, _) =>
    case Advance(k, candidate, created, stamp) =>
      ActKeepsClaims(y.store, y.clients[k], candidate, created, stamp, sub);
    case Issue(command, stamp) =>
      PerformKeepsClaims(y.store, command, stamp);
  }

  lemma ClaimAfterStep(tr: seq<System>, steps: seq<Step>, n: nat, sub: string)
    requires Behaviour(tr, steps) && n < |steps| && sub in tr[n].store.claim && !Removes(tr, steps, n, sub)
    ensures sub in tr[n + 1].store.claim && tr[n + 1].store.claim[sub] == tr[n].store.claim[sub]
  {
    StepKeepsClaims(tr[n], steps[n], sub);
  }

  /** A claim stays, with its id, until a delete script removes it. */
  lemma {:induction false} ClaimStays(tr: seq<System>, steps: seq<Step>, i: nat, j: nat, sub: string)
    requires Behaviour(tr, steps) && i <= j < |tr| && sub in tr[i].store.claim
    requires forall n: nat :: i <= n < j ==> !Removes(tr, steps, n, sub)
    ensures sub in tr[j].store.claim && tr[j].store.claim[sub] == tr[i].store.claim[sub]
    decreases j
  {
    if i < j {
      ClaimStays(tr, steps, i, j - 1, sub);
      ClaimAfterStep(tr, steps, j - 1, sub);
    }
  }

  /** Between two successful claims of a subreddit lies a deletion of the first one's generation. */
  lemma OneWinnerPerGeneration(tr: seq<System>, steps: seq<Step>, i: nat, j: nat, sub: string)
    requires Behaviour(tr, steps) && i < j < |steps|
    requires Wins(tr, steps, i, sub) && Wins(tr, steps, j, sub)
    ensures exists n: nat :: i < n < j && Removes(tr, steps, n, sub)
  {
    if forall n: nat :: i < n < j ==> !Removes(tr, steps, n, sub) {
      ClaimStays(tr, steps, i + 1, j, sub);
      assert false;
    }
  }

  predicate HasNotWon(c: Client) {
    c.CreateLook? || c.CreateBackfill? || c.CreateIdentify? || c.CreateRecall? || c.CreateClaim? || c.CreateFailed?
  }

  /** Clients of a run change only by their own commands. */
  lemma {:induction false} ClientsWait(tr: seq<System>, steps: seq<Step>, i: nat, j: nat, k: nat)
    requires Behaviour(tr, steps) && i <= j < |tr| && k in tr[i].clients
    requires forall n :: i <= n < j ==> !Moves(steps[n], k)
    ensures k in tr[j].clients && tr[j].clients[k] == tr[i].clients[k]
    decreases j
  {
    if i < j {
      ClientsWait(tr, steps, i, j - 1, k);
      assert tr[j] == Apply(tr[j - 1], steps[j - 1]);
    }
  }

  predicate Moves(step: Step, k: nat) {
    step.Advance? && step.k == k
  }

  /** The one trace a creator without the claim leaves: an identity for a subreddit that had none. */
  ghost predicate OnlyIdentifies(s: Store, s': Store, sub: string) {
    && s' == s.(identity := s'.identity)
    && (s'.identity == s.identity || (sub !in s.identity && s'.identity.Keys == s.identity.Keys + {sub}
                                      && forall x :: x in s.identity ==> s'.identity[x] == s.identity[x]))
  }

  lemma LosersCommand(s: Store, c: Client, candidate: string, created: string, stamp: string)
    requires HasNotWon(c)
    ensures var (s', c') := Act(s, c, candidate, created, stamp);
      if c.CreateClaim? && c.subreddit !in s.claim then c'.CreateWrite?
      else HasNotWon(c') && c'.subreddit == c.subreddit && OnlyIdentifies(s, s', c.subreddit)
  {
  }

  /** Who once holds the claim, or deletes, does not end as a failed create. */
  lemma {:induction false} WinnersDoNotFail(tr: seq<System>, steps: seq<Step>, i: nat, j: nat, k: nat)
    requires Behaviour(tr, steps) && i <= j < |tr| && k in tr[i].clients && !HasNotWon(tr[i].clients[k])
    ensures k in tr[j].clients && !HasNotWon(tr[j].clients[k])
    decreases j
  {
    if i < j {
      WinnersDoNotFail(tr, steps, i, j - 1, k);
      assert tr[j] == Apply(tr[j - 1], steps[j - 1]);
    }
  }

  /**
   Of a creator that in the end fails, no command in the whole run writes metadata, a claim, a stop
   key, a listing, an index or a checkpoint; at most it gives its subreddit a first identity.
   */
  lemma LosersWriteNothing(tr: seq<System>, steps: seq<Step>, n: nat, j: nat, k: nat)
    requires Behaviour(tr, steps) && n < j < |tr| && Moves(steps[n], k)
    requires k in tr[j].clients && tr[j].clients[k].CreateFailed?
    ensures HasNotWon(tr[n].clients[k]) && OnlyIdentifies(tr[n].store, tr[n + 1].store, tr[n].clients[k].subreddit)
  {
    if !HasNotWon(tr[n + 1].clients[k]) {
      WinnersDoNotFail(tr, steps, n + 1, j, k);
      assert false;
    }
    if !HasNotWon(tr[n].clients[k]) {
      WinnersDoNotFail(tr, steps, n, j, k);
      assert false;
    }
    LosersCommand(tr[n].store, tr[n].clients[k], steps[n].candidate, steps[n].created, steps[n].stamp);
  }

  // ---------------------------------------------------------------------------------------------
  // updated_at as a version

  /** Every change of a record removes it or gives it a stamp it never had before. */
  ghost predicate Versioned(before: map<string, Hash>, after: map<string, Hash>, stamp: string) {
    forall id :: id in after ==>
      || (id in before && after[id] == before[id])
      || (UpdatedAt in after[id] && after[id][UpdatedAt] == stamp)
  }

  lemma ActIsVersioned(s: Store, c: Client, candidate: string, created: string, stamp: string)
    ensures Versioned(s.meta, Act(s, c, candidate, created, stamp).0.meta, stamp)
  {
  }

  lemma PerformIsVersioned(s: Store, c: Command, stamp: string)
    ensures Versioned(s.meta, Perform(s, c, stamp).meta, stamp)
  {
  }

  function StampOf(step: Step): string {
    if step.Spawn? then "" else step.stamp
  }

  lemma StepIsVersioned(y: System, step: Step)
    requires Enabled(y, step)
    ensures Versioned(y.store.meta, Apply(y, step).store.meta, StampOf(step))
    ensures Apply(y, step).usedStamps == if step.Spawn? then y.usedStamps else y.usedStamps + {step.stamp}
    ensures step.Spawn? ==> Apply(y, step).store == y.store
    ensures !step.Spawn? ==> StampOf(step) !in y.usedStamps
  {
    if step.Advance? {
      ActIsVersioned(y.store, y.clients[step.k], step.candidate, step.created, step.stamp);
    } else if step.Issue? {
      PerformIsVersioned(y.store, step.command, step.stamp);
    }
  }

  /** The record is as it was, or gone, or has a stamp that was not in use then. */
  ghost predicate SameOrNewer(meta: map<string, Hash>, id: string, was: Hash, used: set<string>) {
    id in meta ==> meta[id] == was || (UpdatedAt in meta[id] && meta[id][UpdatedAt] !in used)
  }

  lemma {:induction false} SinceTheScan(tr: seq<System>, steps: seq<Step>, i: nat, j: nat, id: string)
    requires Behaviour(tr, steps) && i <= j < |tr| && id in tr[i].store.meta
    ensures tr[i].usedStamps <= tr[j].usedStamps
    ensures SameOrNewer(tr[j].store.meta, id, tr[i].store.meta[id], tr[i].usedStamps)
    decreases j
  {
    if i < j {
      SinceTheScan(tr, steps, i, j - 1, id);
      StepSinceTheScan(tr[j - 1], steps[j - 1], id, tr[i].store.meta[id], tr[i].usedStamps);
    }
  }

  lemma StepSinceTheScan(y: System, step: Step, id: string, was: Hash, used: set<string>)
    requires Enabled(y, step) && used <= y.usedStamps && SameOrNewer(y.store.meta, id, was, used)
    ensures used <= Apply(y, step).usedStamps && SameOrNewer(Apply(y, step).store.meta, id, was, used)
  {
    StepIsVersioned(y, step);
  }

  lemma {:induction false} AllStamped(tr: seq<System>, steps: seq<Step>, i: nat)
    requires Behaviour(tr, steps) && i < |tr|
    ensures Stamped(tr[i])
  {
    if i > 0 {
      AllStamped(tr, steps, i - 1);
      StepIsVersioned(tr[i - 1], steps[i - 1]);
    }
  }

  /**
   A conditional delete or finalization that was given the stamp a scan saw succeeds only on a
   record that equals the scanned one field for field, whatever happened in between.
   */
  lemma UpdatedAtIsAVersion(
      tr: seq<System>, steps: seq<Step>, i: nat, j: nat, id: string, expectedStatus: string, lockExists: bool)
    requires Behaviour(tr, steps) && i <= j < |tr| && id in tr[i].store.meta
    ensures UpdatedAt in tr[i].store.meta[id] && tr[i].store.meta[id][UpdatedAt] != ""
    ensures var seen := tr[i].store.meta[id][UpdatedAt];
      (Unchanged(tr[j].store, id, expectedStatus, seen) || CanFinalize(tr[j].store, id, lockExists, seen)) ==>
        id in tr[j].store.meta && tr[j].store.meta[id] == tr[i].store.meta[id]
  {
    AllStamped(tr, steps, i);
    SinceTheScan(tr, steps, i, j, id);
  }

  /** One run of one of the four guarded scripts, with any arguments. */
  datatype Guarded =
    | BeatIf(id: string, instance: string, stamp: string)
    | UpdateIf(id: string, instance: string, status: string, stamp: string)
    | FinalizeIf(id: string, lockExists: bool, expectedUpdatedAt: string, stamp: string)
    | DeleteIf(id: string, subreddit: string, expectedStatus: string, expectedUpdatedAt: string)

  function RunScripts(s: Store, scripts: seq<Guarded>): Store {
    if scripts == [] then s
    else
      var s := RunScripts(s, scripts[..|scripts| - 1]);
      match scripts[|scripts| - 1]
      case BeatIf(id, instance, stamp) => HeartbeatIfActive(s, id, instance, stamp)
      case UpdateIf(id, instance, status, stamp) => UpdateStatusIfOwner(s, id, instance, status, stamp)
      case FinalizeIf(id, lockExists, updated, stamp) => FinalizeStopIfUnowned(s, id, lockExists, updated, stamp)
      case DeleteIf(id, sub, status, updated) => DeleteIfUnchanged(s, id, sub, status, updated, false)
  }

  /** No sequence of guarded scripts brings back a record that is not there. */
  lemma {:induction false} GuardedScriptsNeverRecreate(s: Store, scripts: seq<Guarded>, id: string)
    requires id !in s.meta
    ensures id !in RunScripts(s, scripts).meta
  {
    if scripts != [] {
      GuardedScriptsNeverRecreate(s, scripts[..|scripts| - 1], id);
    }
  }

  /**
   The unguarded status write does: after a deletion it leaves a record that names no subreddit,
   which `delete_stream` then refuses to delete.
   */
  lemma UnguardedWriteRecreates(s: Store, id: string, status: string, owner: Option<string>, stamp: string, look: Client)
    requires id !in s.meta && look.DeleteLook? && look.id == id
    ensures var s' := WriteStatus(s, id, status, owner, stamp);
      && id in s'.meta && Subreddit !in s'.meta[id]
      && Act(s', look, "", "", "") == (s', Deleted(false))
  {
  }

  lemma ActCreatesRecord(s: Store, c: Client, candidate: string, created: string, stamp: string, id: string)
    requires id !in s.meta
    ensures id in Act(s, c, candidate, created, stamp).0.meta <==> c.CreateWrite? && c.id == id
  {
  }

  lemma PerformCreatesRecord(s: Store, c: Command, stamp: string, id: string)
    requires id !in s.meta
    ensures id in Perform(s, c, stamp).meta <==> c.WriteStatusCommand? && c.id == id
  {
  }

  /**
   In any run, a step brings a record that is not there into being if and only if it is an
   unguarded status write for it or the metadata write of a creator that holds the claim.
   */
  lemma RecreatedExactlyBy(tr: seq<System>, steps: seq<Step>, n: nat, id: string)
    requires Behaviour(tr, steps) && n < |steps| && id !in tr[n].store.meta
    ensures id in tr[n + 1].store.meta <==>
      || (steps[n].Issue? && steps[n].command.WriteStatusCommand? && steps[n].command.id == id)
      || (steps[n].Advance? && tr[n].clients[steps[n].k].CreateWrite? && tr[n].clients[steps[n].k].id == id)
  {
    var y := tr[n];
    match steps[n]
    case Spawn(_, _) =>
    case Advance(k, candidate, created, stamp) =>
      ActCreatesRecord(y.store, y.clients[k], candidate, created, stamp, id);
    case Issue(command, stamp) =>
      PerformCreatesRecord(y.store, command, stamp, id);
  }

  // ---------------------------------------------------------------------------------------------
  // Who changes what

  predicate BeatAccepted(s: Store, c: Command, id: string) {
    && c.Heartbeat? && c.id == id
    && FieldIs(s.meta, id, InstanceId, c.instance) && FieldIs(s.meta, id, Status, "active")
  }

  predicate UpdateAccepted(s: Store, c: Command, id: string) {
    c.UpdateIfOwner? && c.id == id && FieldIs(s.meta, id, InstanceId, c.instance)
  }

  predicate FinalizeAccepted(s: Store, c: Command, id: string) {
    && c.Finalize? && c.id == id && !c.lockExists
    && FieldIs(s.meta, id, Status, "stopping") && FieldIs(s.meta, id, UpdatedAt, c.expectedUpdatedAt)
  }

  predicate WritesStatus(c: Command, id: string) {
    c.WriteStatusCommand? && c.id == id
  }

  /** The client's delete script finds the record as expected. */
  predicate Deletes(s: Store, c: Client, id: string) {
    c.DeleteRun? && c.id == id && Has(s.meta, id, c.expectedStatus, c.expectedUpdatedAt)
  }

  lemma ActOnField(s: Store, c: Client, candidate: string, created: string, stamp: string, id: string, f: Field)
    requires id in s.meta && id in Act(s, c, candidate, created, stamp).0.meta
    ensures HGet(Act(s, c, candidate, created, stamp).0, id, f) ==
      if !(c.CreateWrite? && c.id == id) then HGet(s, id, f)
      else Some(match f
                case Id => id
                case Subreddit => c.subreddit
                case Status => "starting"
                case InstanceId => c.instance
                case Config => c.config
                case CreatedAt => created
                case UpdatedAt => stamp)
  {
  }

  lemma WriteOnField(s: Store, status: string, owner: Option<string>, stamp: string, x: string, id: string, f: Field)
    requires id in s.meta
    ensures HGet(WriteStatus(s, x, status, owner, stamp), id, f) ==
      if x == id && f == Status then Some(status)
      else if x == id && f == UpdatedAt then Some(stamp)
      else if x == id && f == InstanceId && owner.Some? then owner
      else HGet(s, id, f)
  {
    HGetAfterHSet(s, x, if owner.None? then map[Status := status, UpdatedAt := stamp]
                        else map[Status := status, UpdatedAt := stamp, InstanceId := owner.value], id, f);
  }

  lemma OthersOnRecords(s: Store, c: Command, stamp: string)
    requires !c.WriteStatusCommand? && !c.Heartbeat? && !c.UpdateIfOwner? && !c.Finalize?
    ensures Perform(s, c, stamp).meta == s.meta
  {
  }

  lemma ScriptOnField(s: Store, c: Command, stamp: string, id: string, f: Field)
    requires id in s.meta && (c.Heartbeat? || c.UpdateIfOwner? || c.Finalize?)
    ensures HGet(Perform(s, c, stamp), id, f) ==
      if f == Status && UpdateAccepted(s, c, id) then Some(c.status)
      else if f == Status && FinalizeAccepted(s, c, id) then Some("stopped")
      else if f == UpdatedAt && (BeatAccepted(s, c, id) || UpdateAccepted(s, c, id) || FinalizeAccepted(s, c, id))
           then Some(stamp)
      else HGet(s, id, f)
  {
    match c
    case Heartbeat(x, _) => HGetAfterHSet(s, x, map[UpdatedAt := stamp], id, f);
    case UpdateIfOwner(x, _, status) => HGetAfterHSet(s, x, map[Status := status, UpdatedAt := stamp], id, f);
    case Finalize(x, _, _) => HGetAfterHSet(s, x, map[Status := "stopped", UpdatedAt := stamp], id, f);
  }

  lemma PerformOnField(s: Store, c: Command, stamp: string, id: string, f: Field)
    requires id in s.meta
    ensures HGet(Perform(s, c, stamp), id, f) ==
      if f == Status && (UpdateAccepted(s, c, id) || WritesStatus(c, id)) then Some(c.status)
      else if f == Status && FinalizeAccepted(s, c, id) then Some("stopped")
      else if f == InstanceId && WritesStatus(c, id) && c.owner.Some? then c.owner
      else if f == UpdatedAt && (BeatAccepted(s, c, id) || UpdateAccepted(s, c, id) || FinalizeAccepted(s, c, id) || WritesStatus(c, id))
           then Some(stamp)
      else HGet(s, id, f)
  {
    if c.WriteStatusCommand? {
      WriteOnField(s, c.status, c.owner, stamp, c.id, id, f);
    } else if c.Heartbeat? || c.UpdateIfOwner? || c.Finalize? {
      ScriptOnField(s, c, stamp, id, f);
    } else {
      OthersOnRecords(s, c, stamp);
    }
  }

  /**
   What a step of a run does to a record's field: an accepted owner update or a status write sets the
   status, an accepted finalization stops it, these and an accepted heartbeat give it the step's
   stamp, only a status write that names an instance gives it an owner, the metadata write of a
   creator writes all of it, and nothing else touches it.
   */
  lemma FieldAfterStep(tr: seq<System>, steps: seq<Step>, n: nat, id: string, f: Field)
    requires Behaviour(tr, steps) && n < |steps| && id in tr[n].store.meta && id in tr[n + 1].store.meta
    ensures var s, s', step := tr[n].store, tr[n + 1].store, steps[n];
      HGet(s', id, f) ==
        if step.Issue? && f == Status && (UpdateAccepted(s, step.command, id) || WritesStatus(step.command, id))
          then Some(step.command.status)
        else if step.Issue? && f == Status && FinalizeAccepted(s, step.command, id) then Some("stopped")
        else if step.Issue? && f == InstanceId && WritesStatus(step.command, id) && step.command.owner.Some?
          then step.command.owner
        else if step.Issue? && f == UpdatedAt
                && (BeatAccepted(s, step.command, id) || UpdateAccepted(s, step.command, id)
                    || FinalizeAccepted(s, step.command, id) || WritesStatus(step.command, id))
          then Some(step.stamp)
        else if step.Advance? && tr[n].clients[step.k].CreateWrite? && tr[n].clients[step.k].id == id then HGet(s', id, f)
        else HGet(s, id, f)
  {
    var y := tr[n];
    match steps[n]
    case Spawn(_, _) =>
    case Advance(k, candidate, created, stamp) => ActOnField(y.store, y.clients[k], candidate, created, stamp, id, f);
    case Issue(command, stamp) => PerformOnField(y.store, command, stamp, id, f);
  }

  lemma ActOnSets(s: Store, c: Client, candidate: string, created: string, stamp: string, id: string)
    ensures var s' := Act(s, c, candidate, created, stamp).0;
      && (id in s.meta ==> (id !in s'.meta <==> Deletes(s, c, id)))
      && (id in s'.stops <==> id in s.stops && !Deletes(s, c, id))
      && (id in s'.all <==> (c.CreateTrack? && c.id == id) || (id in s.all && !Deletes(s, c, id)))
  {
  }

  lemma ActOnIndex(s: Store, c: Client, candidate: string, created: string, stamp: string, instance: string, id: string)
    ensures id in IndexOf(Act(s, c, candidate, created, stamp).0, instance) <==>
      || (c.CreateIndex? && c.id == id && c.instance == instance)
      || (id in IndexOf(s, instance) && c != DeleteUnindex(id, instance))
  {
  }

  lemma PerformOnSets(s: Store, c: Command, stamp: string, id: string)
    ensures var s' := Perform(s, c, stamp);
      && (id in s.meta ==> id in s'.meta)
      && (id in s'.stops <==> c == StoreStop(id) || id in s.stops)
      && (id in s'.all <==> id in s.all && c != PruneListing(id))
  {
  }

  lemma PerformOnIndex(s: Store, c: Command, stamp: string, instance: string, id: string)
    ensures id in IndexOf(Perform(s, c, stamp), instance) <==>
      || (BeatAccepted(s, c, id) && c.instance == instance) || c == TrackCommand(instance, id)
      || (id in IndexOf(s, instance) && c != UntrackCommand(instance, id))
  {
  }

  /**
   A record goes if and only if its delete script finds it as expected, and with it its stop key and
   its listing; a stop request stores the key, the creator that wrote the record lists it, and
   pruning removes a listing.
   */
  lemma SetsAfterStep(tr: seq<System>, steps: seq<Step>, n: nat, id: string)
    requires Behaviour(tr, steps) && n < |steps|
    ensures var s, s', step := tr[n].store, tr[n + 1].store, steps[n];
      var deletes := step.Advance? && Deletes(s, tr[n].clients[step.k], id);
      && (id in s.meta ==> (id !in s'.meta <==> deletes))
      && (id in s'.stops <==> (step.Issue? && step.command == StoreStop(id)) || (id in s.stops && !deletes))
      && (id in s'.all <==>
            || (step.Advance? && tr[n].clients[step.k].CreateTrack? && tr[n].clients[step.k].id == id)
            || (id in s.all && !deletes && !(step.Issue? && step.command == PruneListing(id))))
  {
    var y := tr[n];
    match steps[n]
    case Spawn(_, _) =>
    case Advance(k, candidate, created, stamp) => ActOnSets(y.store, y.clients[k], candidate, created, stamp, id);
    case Issue(command, stamp) => PerformOnSets(y.store, command, stamp, id);
  }

  /** An index gains what is created on, beats from or is tracked for its instance. */
  lemma IndexAfterStep(tr: seq<System>, steps: seq<Step>, n: nat, instance: string, id: string)
    requires Behaviour(tr, steps) && n < |steps|
    ensures var s, s', step := tr[n].store, tr[n + 1].store, steps[n];
      id in IndexOf(s', instance) <==>
        || (step.Advance? && tr[n].clients[step.k].CreateIndex?
            && tr[n].clients[step.k].id == id && tr[n].clients[step.k].instance == instance)
        || (step.Issue? && ((BeatAccepted(s, step.command, id) && step.command.instance == instance)
                            || step.command == TrackCommand(instance, id)))
        || (id in IndexOf(s, instance) && !(step.Issue? && step.command == UntrackCommand(instance, id))
            && !(step.Advance? && tr[n].clients[step.k] == DeleteUnindex(id, instance)))
  {
    var y := tr[n];
    match steps[n]
    case Spawn(_, _) =>
    case Advance(k, candidate, created, stamp) => ActOnIndex(y.store, y.clients[k], candidate, created, stamp, instance, id);
    case Issue(command, stamp) => PerformOnIndex(y.store, command, stamp, instance, id);
  }

  // ---------------------------------------------------------------------------------------------
  // Clients that nobody disturbs

  /** A client sends its next `n` commands with nobody in between. */
  function Undisturbed(s: Store, c: Client, n: nat, candidate: string, created: string, stamp: string): (Store, Client)
    decreases n
  {
    if n == 0 then (s, c)
    else
      var (s, c) := Act(s, c, candidate, created, stamp);
      Undisturbed(s, c, n - 1, candidate, created, stamp)
  }

  /** A client that is spawned is there, and each of its turns sends its next command and nobody else's. */
  lemma ClientsTakeTheirTurns(y: System, k: nat, c: Client, candidate: string, created: string, stamp: string)
    requires Enabled(y, Spawn(k, c)) && candidate !in y.usedIds + {""} && stamp !in y.usedStamps + {""}
    ensures var there := Apply(y, Spawn(k, c));
      && there == y.(clients := y.clients[k := c]) && Enabled(there, Advance(k, candidate, created, stamp))
      && var gone := Apply(there, Advance(k, candidate, created, stamp));
         && (gone.store, gone.clients[k]) == Undisturbed(y.store, c, 1, candidate, created, stamp)
         && forall l :: l in y.clients ==> l in gone.clients && gone.clients[l] == y.clients[l]
  {
  }

  lemma WinnerFinishes(
      s: Store, sub: string, instance: string, config: string, id: string, candidate: string, created: string, stamp: string)
    ensures var written := HSet(s, id, FullRecord(id, sub, instance, config, created, stamp));
      var listed := written.(all := s.all + {id});
      Undisturbed(s, CreateWrite(sub, instance, config, id), if instance != "" then 3 else 2, candidate, created, stamp)
        == (if instance != "" then Track(listed, instance, id) else listed, Created(sub, id))
  {
    var (s1, c1) := Act(s, CreateWrite(sub, instance, config, id), candidate, created, stamp);
    var (s2, c2) := Act(s1, c1, candidate, created, stamp);
    assert c1 == CreateTrack(sub, instance, id);
    assert Undisturbed(s2, c2, if instance != "" then 1 else 0, candidate, created, stamp)
        == if instance != "" then Act(s2, c2, candidate, created, stamp) else (s2, c2);
  }

  lemma ClaimantFinishes(
      s: Store, sub: string, instance: string, config: string, id: string, candidate: string, created: string, stamp: string)
    requires sub !in s.claim
    ensures var claimed := s.(claim := s.claim[sub := id]);
      var listed := HSet(claimed, id, FullRecord(id, sub, instance, config, created, stamp)).(all := s.all + {id});
      Undisturbed(s, CreateClaim(sub, instance, config, id), if instance != "" then 4 else 3, candidate, created, stamp)
        == (if instance != "" then Track(listed, instance, id) else listed, Created(sub, id))
  {
    var claimed := s.(claim := s.claim[sub := id]);
    WinnerFinishes(claimed, sub, instance, config, id, candidate, created, stamp);
    assert Act(s, CreateClaim(sub, instance, config, id), candidate, created, stamp)
        == (claimed, CreateWrite(sub, instance, config, id));
  }

  /** The commands of a create up to its claim: two, or three where the identity is known. */
  lemma CreatorIdentifies(
      s: Store, sub: string, instance: string, config: string, n: nat, candidate: string, created: string, stamp: string)
    requires sub !in s.claim && (sub in s.identity ==> s.identity[sub] != "")
    ensures var id := if sub in s.identity then s.identity[sub] else candidate;
      Undisturbed(s, CreateLook(sub, instance, config), n + (if sub in s.identity then 3 else 2), candidate, created, stamp)
        == Undisturbed(s.(identity := s.identity[sub := id]), CreateClaim(sub, instance, config, id), n, candidate, created, stamp)
  {
    var look, identify := CreateLook(sub, instance, config), CreateIdentify(sub, instance, config);
    assert Act(s, look, candidate, created, stamp) == (s, identify);
    if sub in s.identity {
      var recall := CreateRecall(sub, instance, config);
      assert s.identity[sub := s.identity[sub]] == s.identity;
      assert Act(s, identify, candidate, created, stamp) == (s, recall);
      assert Undisturbed(s, identify, n + 2, candidate, created, stamp) == Undisturbed(s, recall, n + 1, candidate, created, stamp);
    }
  }

  /** `create_stream` as a method is this client running undisturbed: five to seven commands. */
  lemma UndisturbedCreate(
      s: Store, sub: string, instance: string, config: string, candidate: string, created: string, stamp: string)
    requires candidate != "" && sub !in s.claim && (sub in s.identity ==> s.identity[sub] != "")
    ensures var (s', r) := CreateAlone(s, sub, instance, config, candidate, created, stamp);
      var n := (if instance != "" then 4 else 3) + (if sub in s.identity then 3 else 2);
      && r == CreatedAs(if sub in s.identity then s.identity[sub] else candidate)
      && Undisturbed(s, CreateLook(sub, instance, config), n, candidate, created, stamp) == (s', Created(sub, r.id))
  {
    var id := if sub in s.identity then s.identity[sub] else candidate;
    CreatorIdentifies(s, sub, instance, config, if instance != "" then 4 else 3, candidate, created, stamp);
    ClaimantFinishes(s.(identity := s.identity[sub := id]), sub, instance, config, id, candidate, created, stamp);
  }

  /** A create that finds the subreddit claimed gives up, and leaves the claimed id as its identity. */
  lemma RefusedCreate(
      s: Store, sub: string, instance: string, config: string, candidate: string, created: string, stamp: string)
    requires sub in s.claim && s.claim[sub] != ""
    ensures Undisturbed(s, CreateLook(sub, instance, config), 2, candidate, created, stamp)
         == (if sub in s.identity then s else s.(identity := s.identity[sub := s.claim[sub]]), CreateFailed(sub))
  {
    var (s1, c1) := Act(s, CreateLook(sub, instance, config), candidate, created, stamp);
    assert Undisturbed(s, CreateLook(sub, instance, config), 2, candidate, created, stamp)
        == Undisturbed(s1, c1, 1, candidate, created, stamp) == Act(s1, c1, candidate, created, stamp);
  }

  /** The script and the index maintenance of a delete whose script finds the record as expected. */
  lemma DeleterFinishes(
      s: Store, id: string, sub: string, instance: string, status: string, updated: string,
      candidate: string, created: string, stamp: string)
    requires Has(s.meta, id, status, updated)
    ensures var deleted := DeleteIfUnchanged(s, id, sub, status, updated, false);
      Undisturbed(s, DeleteRun(id, sub, instance, status, updated), if instance != "" then 2 else 1, candidate, created, stamp)
        == (if instance != "" then Untrack(deleted, instance, id) else deleted, Deleted(true))
  {
    var (s1, c1) := Act(s, DeleteRun(id, sub, instance, status, updated), candidate, created, stamp);
    assert Undisturbed(s1, c1, if instance != "" then 1 else 0, candidate, created, stamp)
        == if instance != "" then Act(s1, c1, candidate, created, stamp) else (s1, c1);
  }

  /** An undisturbed delete of a record that names its subreddit removes it, its claim and its index entry. */
  lemma UndisturbedDelete(s: Store, id: string, status: string, updated: string, candidate: string, created: string, stamp: string)
    requires Has(s.meta, id, status, updated) && Subreddit in s.meta[id] && s.meta[id][Subreddit] != ""
    ensures var sub, instance := s.meta[id][Subreddit], HGet(s, id, InstanceId);
      var indexed := instance.Some? && instance.value != "";
      var (s', c') := Undisturbed(s, DeleteLook(id, status, updated), if indexed then 3 else 2, candidate, created, stamp);
      && c' == Deleted(true) && id !in s'.meta && id !in s'.all && id !in s'.stops && s'.checkpoints == s.checkpoints
      && sub in s'.identity && s'.identity[sub] == id && (sub in s'.claim ==> s'.claim[sub] != id)
      && (indexed ==> id !in IndexOf(s', instance.value))
  {
    var sub, instance := s.meta[id][Subreddit], if InstanceId in s.meta[id] then s.meta[id][InstanceId] else "";
    var n := if instance != "" then 2 else 1;
    var look, run := DeleteLook(id, status, updated), DeleteRun(id, sub, instance, status, updated);
    assert Act(s, look, candidate, created, stamp) == (s, run);
    assert Undisturbed(s, look, n + 1, candidate, created, stamp) == Undisturbed(s, run, n, candidate, created, stamp);
    DeleterFinishes(s, id, sub, instance, status, updated, candidate, created, stamp);
    DeleteRemoves(s, id, sub, status, updated);
    IndexEntries(DeleteIfUnchanged(s, id, sub, status, updated, false), instance, id);
  }
}
