/**
 The cleanup of terminal streams (dead_stream_cleanup.py): scan the registry, then delete each
 dead stream on condition that it still is what the scan saw.

 `Cleanup` is the sweep as a client: which deletes it asks for and how it counts their answers. A
 delete it asks for is a `RegistryRuns` client of its own; what it does to the registry, with other
 clients at work between the scan, the delete's look and its script, is proved over runs.
 */
module DeadStreamCleanup {
  import opened Common
  import opened Registry
  import opened RegistryRuns

  const DEAD_STATUSES: set<string> := {"stopped", "error", "inactive"}

  predicate IsDeadStream(r: Hash) {
    Status in r && r[Status] in DEAD_STATUSES
  }

  function FieldOr(r: Hash, f: Field): string {
    if f in r then r[f] else ""
  }

  predicate IsSwept(r: Hash) {
    IsDeadStream(r) && FieldOr(r, Id) != ""
  }

  /** The conditional delete of a scanned record. */
  function DeletionOf(r: Hash): Client {
    DeleteLook(FieldOr(r, Id), FieldOr(r, Status), FieldOr(r, UpdatedAt))
  }

  /** The deletes of the swept records, in the order of the scan. */
  function Deletions(scan: seq<Hash>): seq<Client> {
    if scan == [] then []
    else
      var last := scan[|scan| - 1];
      Deletions(scan[..|scan| - 1]) + if IsSwept(last) then [DeletionOf(last)] else []
  }

  /** How many of the deletes asked for were answered as done; `delete` answers the k-th or raises. */
  function CountDeleted(asked: seq<Client>, delete: (nat, Client) -> Reply<bool>): nat {
    if asked == [] then 0
    else
      var k := |asked| - 1;
      CountDeleted(asked[..k], delete) + if delete(k, asked[k]) == Reply(true) then 1 else 0
  }

  function Done(asked: seq<Client>, delete: (nat, Client) -> Reply<bool>): set<nat> {
    set k: nat | k < |asked| && delete(k, asked[k]) == Reply(true)
  }

  /** The count is that of the deletes that were answered as done. */
  lemma {:induction false} CountsTheDone(asked: seq<Client>, delete: (nat, Client) -> Reply<bool>)
    ensures CountDeleted(asked, delete) == |Done(asked, delete)|
  {
    if asked != [] {
      var n := |asked| - 1;
      CountsTheDone(asked[..n], delete);
      assert Done(asked, delete) == Done(asked[..n], delete) + if delete(n, asked[n]) == Reply(true) then {n} else {};
    }
  }

  /** Deletes of terminal records with an id, and of every such record scanned. */
  ghost predicate AsksForTerminalRecords(scan: seq<Hash>, asked: seq<Client>) {
    && (forall c :: c in asked ==>
          c.DeleteLook? && c.id != "" && c.expectedStatus in {"stopped", "error", "inactive"})
    && (forall r :: r in scan && Status in r && r[Status] in {"stopped", "error", "inactive"} && Id in r && r[Id] != "" ==>
          DeleteLook(r[Id], r[Status], if UpdatedAt in r then r[UpdatedAt] else "") in asked)
  }

  lemma {:induction false} DeletionsExactly(scan: seq<Hash>)
    ensures AsksForTerminalRecords(scan, Deletions(scan)) && |Deletions(scan)| <= |scan|
  {
    if scan != [] {
      var init, last := scan[..|scan| - 1], scan[|scan| - 1];
      DeletionsExactly(init);
      assert scan == init + [last];
    }
  }

  /**
   One sweep. Exactly the dead scanned records are deleted, each once, in order and on condition of
   the status and stamp the scan saw; a delete that raises is skipped; and what counts is what was
   answered as deleted.
   */
  method Cleanup(scan: seq<Hash>, delete: (nat, Client) -> Reply<bool>) returns (deadCount: nat, asked: seq<Client>)
    ensures asked == Deletions(scan) && AsksForTerminalRecords(scan, asked)
    ensures deadCount == |Done(asked, delete)|
  {
    deadCount, asked := 0, [];
    for i := 0 to |scan|
      invariant asked == Deletions(scan[..i]) && deadCount == CountDeleted(asked, delete)
    {
      assert scan[..i + 1][..i] == scan[..i];
      var stream := scan[i];
      if !IsDeadStream(stream) || FieldOr(stream, Id) == "" {
        continue;
      }
      var deletion := DeleteLook(stream[Id], stream[Status], FieldOr(stream, UpdatedAt));
      var answer := delete(|asked|, deletion);
      assert (asked + [deletion])[..|asked|] == asked;
      asked := asked + [deletion];
      if answer == Reply(true) {
        deadCount := deadCount + 1;
      }
    }
    assert scan[..|scan|] == scan;
    DeletionsExactly(scan);
    CountsTheDone(asked, delete);
  }

  /** A stream whose abandoned stop has been finalized is swept, under the condition that it stays so. */
  lemma FinalizedIsSwept(s: Store, id: string, expectedUpdatedAt: string, stamp: string)
    requires id != "" && FieldIs(s.meta, id, Id, id) && FinalizeStopIfUnowned(s, id, false, expectedUpdatedAt, stamp) != s
    ensures var s' := FinalizeStopIfUnowned(s, id, false, expectedUpdatedAt, stamp);
      && id in s'.meta && IsSwept(s'.meta[id]) && DeletionOf(s'.meta[id]) == DeleteLook(id, "stopped", stamp)
      && Has(s'.meta, id, "stopped", stamp)
  {
  }

  /** A stream that is just created, that beats, or whose stop is still to be finalized is not swept. */
  lemma LiveIsNotSwept(s: Store, id: string, instance: string, updated: string, stamp: string, sub: string, config: string)
    ensures !IsSwept(FullRecord(id, sub, instance, config, updated, stamp))
    ensures id in s.meta && HeartbeatIfActive(s, id, instance, stamp) != s ==> !IsSwept(s.meta[id])
    ensures id in s.meta && FinalizeStopIfUnowned(s, id, false, updated, stamp) != s ==> !IsSwept(s.meta[id])
  {
  }

  /**
   The deletion of a record `r` that was scanned in state i: client k looks in step h and sends
   its next command in step j.
   */
  ghost predicate Deletes(tr: seq<System>, steps: seq<Step>, i: nat, h: nat, j: nat, k: nat, id: string)
    requires Behaviour(tr, steps)
  {
    && i <= h < j < |steps| && Moves(steps[h], k) && Moves(steps[j], k)
    && (forall n :: h < n < j ==> !Moves(steps[n], k))
    && id in tr[i].store.meta && IsSwept(tr[i].store.meta[id])
    && tr[h].clients[k] == DeletionOf(tr[i].store.meta[id])
  }

  /** The script is run in step j, and finds the record as the guards demand it. */
  ghost predicate Succeeds(tr: seq<System>, steps: seq<Step>, j: nat, k: nat)
    requires Behaviour(tr, steps) && j < |steps| && Moves(steps[j], k)
  {
    var c := tr[j].clients[k];
    c.DeleteRun? && Unchanged(tr[j].store, c.id, c.expectedStatus, c.expectedUpdatedAt)
  }

  /** Between its look and its script the client holds what the look saw. */
  lemma ScriptSentAsLooked(tr: seq<System>, steps: seq<Step>, i: nat, h: nat, j: nat, k: nat, id: string)
    requires Behaviour(tr, steps) && Deletes(tr, steps, i, h, j, k, id)
    ensures var r := tr[i].store.meta[id];
      var sub, instance := HGet(tr[h].store, id, Subreddit), HGet(tr[h].store, id, InstanceId);
      r[Id] == id &&
      tr[j].clients[k] ==
        if sub.None? || sub.value == "" then Deleted(false)
        else DeleteRun(id, sub.value, if instance.Some? then instance.value else "", r[Status], FieldOr(r, UpdatedAt))
  {
    Invariant(tr, steps, i);
    assert tr[h + 1] == Apply(tr[h], steps[h]);
    ClientsWait(tr, steps, h + 1, j, k);
  }

  /** If the delete's look names a subreddit and its script succeeds, scan, look and script saw one record. */
  lemma LookAndScriptAgree(tr: seq<System>, steps: seq<Step>, i: nat, h: nat, j: nat, k: nat, id: string)
    requires Behaviour(tr, steps) && Deletes(tr, steps, i, h, j, k, id) && Succeeds(tr, steps, j, k)
    ensures var r := tr[i].store.meta[id];
      && id in tr[h].store.meta && tr[h].store.meta[id] == r
      && id in tr[j].store.meta && tr[j].store.meta[id] == r
      && Subreddit in r && Bound(tr[j].store, r[Subreddit], id)
      && tr[j].clients[k] == DeleteRun(id, r[Subreddit], FieldOr(r, InstanceId), r[Status], FieldOr(r, UpdatedAt))
  {
    var r := tr[i].store.meta[id];
    ScriptSentAsLooked(tr, steps, i, h, j, k, id);
    Invariant(tr, steps, j);
    AllStamped(tr, steps, i);
    UpdatedAtIsAVersion(tr, steps, i, j, id, r[Status], false);
    SinceTheScan(tr, steps, i, h, id);
    SinceTheScan(tr, steps, h, j, id);
  }

  /** What a successful delete leaves of a registry: everything but this stream. */
  ghost predicate OnlyDeletes(s: Store, s': Store, id: string, sub: string) {
    && s'.meta == s.meta - {id} && s'.stops == s.stops - {id} && s'.all == s.all - {id}
    && s'.checkpoints == s.checkpoints && s'.index == s.index
    && s'.identity == s.identity[sub := id] && (sub in s.identity ==> s'.identity == s.identity)
    && (sub in s'.claim ==> s'.claim[sub] != id)
    && forall x :: x in s.claim && s.claim[x] != id ==> x in s'.claim && s'.claim[x] == s.claim[x]
  }

  lemma DeleteOnlyDeletes(s: Store, id: string, sub: string, status: string, updated: string)
    requires Unchanged(s, id, status, updated) && Bound(s, sub, id)
    ensures OnlyDeletes(s, DeleteIfUnchanged(s, id, sub, status, updated, false), id, sub)
  {
    assert sub in s.identity ==> s.identity[sub := id] == s.identity;
  }

  /** What the deleting client's next command does to the registry. */
  lemma ScriptStep(tr: seq<System>, steps: seq<Step>, j: nat, k: nat)
    requires Behaviour(tr, steps) && j < |steps| && Moves(steps[j], k)
    requires tr[j].clients[k].DeleteRun? || tr[j].clients[k] == Deleted(false)
    ensures var c, s, s' := tr[j].clients[k], tr[j].store, tr[j + 1].store;
      if Succeeds(tr, steps, j, k) then
        s' == DeleteIfUnchanged(s, c.id, c.subreddit, c.expectedStatus, c.expectedUpdatedAt, false)
      else s' == s && tr[j + 1].clients[k] == Deleted(false)
  {
    assert tr[j + 1] == Apply(tr[j], steps[j]);
  }

  /**
   In every run of the registry, with any clients acting between the scan, the look and the script:
   when the delete of a scanned stream succeeds, the record it removes equals the scanned one field
   for field and is dead; it frees the claim of that stream only, keeps the identity and every
   checkpoint, and touches no other record. When it does not succeed, it changes nothing.
   */
  lemma SweepsOnlyWhatItSaw(tr: seq<System>, steps: seq<Step>, i: nat, h: nat, j: nat, k: nat, id: string)
    requires Behaviour(tr, steps) && Deletes(tr, steps, i, h, j, k, id)
    ensures var r, s, s' := tr[i].store.meta[id], tr[j].store, tr[j + 1].store;
      if !Succeeds(tr, steps, j, k) then s' == s && tr[j + 1].clients[k] == Deleted(false)
      else id in s.meta && s.meta[id] == r && IsDeadStream(r) && Subreddit in r && OnlyDeletes(s, s', id, r[Subreddit])
  {
    ScriptSentAsLooked(tr, steps, i, h, j, k, id);
    ScriptStep(tr, steps, j, k);
    if Succeeds(tr, steps, j, k) {
      var r := tr[i].store.meta[id];
      LookAndScriptAgree(tr, steps, i, h, j, k, id);
      DeleteOnlyDeletes(tr[j].store, id, r[Subreddit], r[Status], FieldOr(r, UpdatedAt));
    }
  }
}
