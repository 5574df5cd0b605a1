/**
 The stream registry in Redis (stream_registry.py): the keys, the four atomic scripts, and the
 registry's methods as a single client runs them. `Store` is the value of the keys and the
 functions on it say what each script does; class `Redis` holds the keys and changes them in place.
 */
module Registry {
  import opened Common

  datatype Field = Id | Subreddit | Status | InstanceId | Config | CreatedAt | UpdatedAt

  /** A Redis hash; a key with no fields does not exist. */
  type Hash = map<Field, string>

  datatype Store = Store(
    identity: map<string, string>,      // stream:identity:{subreddit}
    claim: map<string, string>,         // stream:subreddit:{subreddit}
    meta: map<string, Hash>,            // stream:meta:{id}
    stops: set<string>,                 // stream:stop-request:{id}
    all: set<string>,                   // streams:all
    index: map<string, set<string>>,    // streams:instance:{instance}
    checkpoints: map<string, string>)   // stream:checkpoint:{id}, its contents taken as one value

  function HGet(s: Store, id: string, f: Field): Option<string> {
    if id in s.meta && f in s.meta[id] then Some(s.meta[id][f]) else None
  }

  function HSet(s: Store, id: string, fields: Hash): Store {
    s.(meta := s.meta[id := (if id in s.meta then s.meta[id] else map[]) + fields])
  }

  function IndexOf(s: Store, instance: string): set<string> {
    if instance in s.index then s.index[instance] else {}
  }

  function Track(s: Store, instance: string, id: string): Store {
    s.(index := s.index[instance := IndexOf(s, instance) + {id}])
  }

  function Untrack(s: Store, instance: string, id: string): Store {
    s.(index := s.index[instance := IndexOf(s, instance) - {id}])
  }

  // The four scripts

  predicate Unchanged(s: Store, id: string, expectedStatus: string, expectedUpdatedAt: string) {
    && id in s.meta
    && (expectedStatus != "" ==> HGet(s, id, Status) == Some(expectedStatus))
    && (expectedUpdatedAt != "" ==> HGet(s, id, UpdatedAt) == Some(expectedUpdatedAt))
  }

  function DeleteIfUnchanged(
      s: Store, id: string, subreddit: string, expectedStatus: string, expectedUpdatedAt: string, purge: bool): Store
  {
    if !Unchanged(s, id, expectedStatus, expectedUpdatedAt) then s
    else
      s.(claim := if subreddit in s.claim && s.claim[subreddit] == id then s.claim - {subreddit} else s.claim,
         identity := if purge then s.identity - {subreddit} else s.identity[subreddit := id],
         meta := s.meta - {id},
         stops := s.stops - {id},
         all := s.all - {id},
         checkpoints := if purge then s.checkpoints - {id} else s.checkpoints)
  }

  predicate IsActiveOn(s: Store, id: string, instance: string) {
    HGet(s, id, InstanceId) == Some(instance) && HGet(s, id, Status) == Some("active")
  }

  function HeartbeatIfActive(s: Store, id: string, instance: string, stamp: string): Store {
    if IsActiveOn(s, id, instance) then Track(HSet(s, id, map[UpdatedAt := stamp]), instance, id) else s
  }

  predicate IsOwner(s: Store, id: string, instance: string) {
    HGet(s, id, InstanceId) == Some(instance)
  }

  function UpdateStatusIfOwner(s: Store, id: string, instance: string, status: string, stamp: string): Store {
    if IsOwner(s, id, instance) then HSet(s, id, map[Status := status, UpdatedAt := stamp]) else s
  }

  predicate CanFinalize(s: Store, id: string, lockExists: bool, expectedUpdatedAt: string) {
    && HGet(s, id, Status) == Some("stopping")
    && HGet(s, id, UpdatedAt) == Some(expectedUpdatedAt)
    && !lockExists
  }

  function FinalizeStopIfUnowned(s: Store, id: string, lockExists: bool, expectedUpdatedAt: string, stamp: string): Store {
    if CanFinalize(s, id, lockExists, expectedUpdatedAt) then HSet(s, id, map[Status := "stopped", UpdatedAt := stamp]) else s
  }

  /** The unguarded HSET of `update_status`. */
  function WriteStatus(s: Store, id: string, status: string, instance: Option<string>, stamp: string): Store {
    HSet(s, id, if instance.None? then map[Status := status, UpdatedAt := stamp]
                else map[Status := status, UpdatedAt := stamp, InstanceId := instance.value])
  }

  function FullRecord(id: string, subreddit: string, instance: string, config: string, created: string, stamp: string): Hash {
    map[Id := id, Subreddit := subreddit, Status := "starting", InstanceId := instance, Config := config,
        CreatedAt := created, UpdatedAt := stamp]
  }

  predicate FieldIs(meta: map<string, Hash>, id: string, f: Field, value: string) {
    id in meta && f in meta[id] && meta[id][f] == value
  }

  /** There is a record, and what is expected of it, if anything, is so. */
  predicate Has(meta: map<string, Hash>, id: string, expectedStatus: string, expectedUpdatedAt: string) {
    && id in meta
    && (expectedStatus == "" || FieldIs(meta, id, Status, expectedStatus))
    && (expectedUpdatedAt == "" || FieldIs(meta, id, UpdatedAt, expectedUpdatedAt))
  }

  /** What HSET does: the given fields are overwritten, other fields and other keys stay. */
  predicate Rewrites(before: map<string, Hash>, after: map<string, Hash>, id: string, fields: Hash) {
    && after.Keys == before.Keys + {id} && (forall x :: x in before && x != id ==> after[x] == before[x])
    && (forall f :: f in fields ==> f in after[id] && after[id][f] == fields[f])
    && (forall f :: f !in fields ==> (f in after[id] <==> id in before && f in before[id]))
    && (forall f :: f !in fields && f in after[id] ==> after[id][f] == before[id][f])
  }

  lemma HSetMerges(s: Store, id: string, fields: Hash)
    ensures var s' := HSet(s, id, fields); s' == s.(meta := s'.meta) && Rewrites(s.meta, s'.meta, id, fields)
  {
  }

  /** What HGET answers after it. */
  lemma HGetAfterHSet(s: Store, id: string, fields: Hash, x: string, f: Field)
    ensures HGet(HSet(s, id, fields), x, f) == if x == id && f in fields then Some(fields[f]) else HGet(s, x, f)
  {
  }

  /** An index entry is there after it was added and not after it was removed; other indexes stay. */
  lemma IndexEntries(s: Store, instance: string, id: string)
    ensures IndexOf(Track(s, instance, id), instance) == IndexOf(s, instance) + {id}
    ensures IndexOf(Untrack(s, instance, id), instance) == IndexOf(s, instance) - {id}
    ensures forall other :: other != instance ==>
      && IndexOf(Track(s, instance, id), other) == IndexOf(s, other)
      && IndexOf(Untrack(s, instance, id), other) == IndexOf(s, other)
  {
  }

  /**
   A stop request that was written can be finalized with its stamp, once there is no lock; the
   result is final: neither a finalization nor a heartbeat is accepted afterwards. While a heartbeat
   is accepted, no finalization is.
   */
  lemma StoppingIsFinalized(s: Store, id: string, owner: Option<string>, stamp: string, later: string, instance: string, other: string)
    ensures var stopping := WriteStatus(s, id, "stopping", owner, stamp);
      var stopped := FinalizeStopIfUnowned(stopping, id, false, stamp, later);
      && FieldIs(stopped.meta, id, Status, "stopped") && FieldIs(stopped.meta, id, UpdatedAt, later)
      && FinalizeStopIfUnowned(stopping, id, true, stamp, later) == stopping
      && (other != stamp ==> FinalizeStopIfUnowned(stopping, id, false, other, later) == stopping)
      && FinalizeStopIfUnowned(stopped, id, false, later, stamp) == stopped
      && HeartbeatIfActive(stopping, id, instance, later) == stopping
      && HeartbeatIfActive(stopped, id, instance, stamp) == stopped
    ensures HeartbeatIfActive(s, id, instance, stamp) != s ==> FinalizeStopIfUnowned(s, id, false, later, other) == s
  {
  }

  /** What the delete script leaves of a stream it finds as expected: its identity and its checkpoint. */
  lemma DeleteRemoves(s: Store, id: string, sub: string, status: string, updated: string)
    requires Has(s.meta, id, status, updated)
    ensures var s' := DeleteIfUnchanged(s, id, sub, status, updated, false);
      && id !in s'.meta && id !in s'.all && id !in s'.stops && s'.checkpoints == s.checkpoints && s'.index == s.index
      && sub in s'.identity && s'.identity[sub] == id && (sub in s'.claim ==> s'.claim[sub] != id)
  {
  }

  /** An activated record is kept fresh by its instance and nobody else. */
  lemma ActivatedIsKeptFresh(s: Store, id: string, instance: string, stamp: string, later: string, other: string)
    ensures var active := WriteStatus(s, id, "active", Some(instance), stamp);
      var kept := HeartbeatIfActive(active, id, instance, later);
      && HGet(kept, id, UpdatedAt) == Some(later) && HGet(kept, id, Status) == Some("active")
      && id in IndexOf(kept, instance)
      && (other != instance ==> HeartbeatIfActive(active, id, other, later) == active)
  {
    var fields := map[Status := "active", UpdatedAt := stamp, InstanceId := instance];
    HGetAfterHSet(s, id, fields, id, Status);
    HGetAfterHSet(s, id, fields, id, InstanceId);
    var active := HSet(s, id, fields);
    assert active == WriteStatus(s, id, "active", Some(instance), stamp);
    HGetAfterHSet(active, id, map[UpdatedAt := later], id, UpdatedAt);
    HGetAfterHSet(active, id, map[UpdatedAt := later], id, Status);
  }

  /** Only the recorded owner may write a status, and the record stays its own. */
  lemma OwnersWrite(s: Store, id: string, instance: string, status: string, stamp: string)
    ensures var s' := UpdateStatusIfOwner(s, id, instance, status, stamp);
      if FieldIs(s.meta, id, InstanceId, instance) then
        FieldIs(s'.meta, id, Status, status) && FieldIs(s'.meta, id, UpdatedAt, stamp) && FieldIs(s'.meta, id, InstanceId, instance)
      else s' == s
  {
  }

  datatype CreateResult = CreatedAs(id: string) | StreamExists | NoIdentity

  function StableId(s: Store, subreddit: string, candidate: string): string {
    if subreddit in s.identity then s.identity[subreddit] else candidate
  }

  /** A whole `create_stream` in one piece. */
  function CreateAlone(
      s: Store, subreddit: string, instance: string, config: string, candidate: string, created: string, stamp: string)
    : (Store, CreateResult)
  {
    if subreddit in s.claim && s.claim[subreddit] != "" then
      (s.(identity := s.identity[subreddit := StableId(s, subreddit, s.claim[subreddit])]), StreamExists)
    else
      var id := StableId(s, subreddit, candidate);
      var s := s.(identity := s.identity[subreddit := id]);
      if id == "" then (s, NoIdentity)
      else if subreddit in s.claim then (s, StreamExists)
      else
        var s := HSet(s.(claim := s.claim[subreddit := id]), id, FullRecord(id, subreddit, instance, config, created, stamp));
        var s := s.(all := s.all + {id});
        (if instance != "" then Track(s, instance, id) else s, CreatedAs(id))
  }

  class Redis {
    var identity: map<string, string>
    var claim: map<string, string>
    var meta: map<string, Hash>
    var stops: set<string>
    var all: set<string>
    var index: map<string, set<string>>
    var checkpoints: map<string, string>

    function Value(): Store
      reads this
    {
      Store(identity, claim, meta, stops, all, index, checkpoints)
    }

    method HashSet(id: string, fields: Hash)
      modifies `meta
      ensures Value() == HSet(old(Value()), id, fields)
      ensures Rewrites(old(meta), meta, id, fields)
    {
      meta := meta[id := (if id in meta then meta[id] else map[]) + fields];
    }

    method SetAdd(instance: string, id: string)
      modifies `index
      ensures Value() == Track(old(Value()), instance, id)
    {
      index := index[instance := (if instance in index then index[instance] else {}) + {id}];
    }

    method SetRemove(instance: string, id: string)
      modifies `index
      ensures Value() == Untrack(old(Value()), instance, id)
    {
      index := index[instance := (if instance in index then index[instance] else {}) - {id}];
    }

    method DeleteScript(id: string, subreddit: string, expectedStatus: string, expectedUpdatedAt: string, purge: bool)
      returns (deleted: bool)
      modifies this
      ensures Value() == DeleteIfUnchanged(old(Value()), id, subreddit, expectedStatus, expectedUpdatedAt, purge)
      // It deletes exactly a record that has what was expected of it, and only this stream's claim.
      ensures deleted <==> Has(old(meta), id, expectedStatus, expectedUpdatedAt)
      ensures !deleted ==> Value() == old(Value())
      ensures deleted ==>
        && meta == old(meta) - {id} && stops == old(stops) - {id} && all == old(all) - {id} && index == old(index)
        && checkpoints == (if purge then old(checkpoints) - {id} else old(checkpoints))
        && identity == (if purge then old(identity) - {subreddit} else old(identity)[subreddit := id])
        && (subreddit in claim ==> claim[subreddit] != id)
        && forall x :: x in old(claim) && !(x == subreddit && old(claim)[x] == id) ==> x in claim && claim[x] == old(claim)[x]
    {
      deleted := Matches(id, expectedStatus, expectedUpdatedAt);
      if !deleted {
        return;
      }
      if subreddit in claim && claim[subreddit] == id {
        claim := claim - {subreddit};
      }
      identity := identity[subreddit := id];
      meta, stops, all := meta - {id}, stops - {id}, all - {id};
      if purge {
        checkpoints, identity := checkpoints - {id}, identity - {subreddit};
        assert identity == old(identity) - {subreddit};
      }
    }

    /** The three guards of the delete script. */
    method Matches(id: string, expectedStatus: string, expectedUpdatedAt: string) returns (matches: bool)
      ensures matches <==> Unchanged(Value(), id, expectedStatus, expectedUpdatedAt)
      ensures matches <==> Has(meta, id, expectedStatus, expectedUpdatedAt)
    {
      if id !in meta {
        return false;
      }
      if expectedStatus != "" && (Status !in meta[id] || meta[id][Status] != expectedStatus) {
        return false;
      }
      matches := expectedUpdatedAt == "" || (UpdatedAt in meta[id] && meta[id][UpdatedAt] == expectedUpdatedAt);
    }

    method Heartbeat(id: string, instance: string, stamp: string) returns (refreshed: bool)
      modifies `meta, `index
      ensures Value() == HeartbeatIfActive(old(Value()), id, instance, stamp)
      // It is accepted exactly from the instance of an active record, and restamps that record alone.
      ensures refreshed <==> FieldIs(old(meta), id, InstanceId, instance) && FieldIs(old(meta), id, Status, "active")
      ensures !refreshed ==> meta == old(meta) && index == old(index)
      ensures refreshed ==> Rewrites(old(meta), meta, id, map[UpdatedAt := stamp])
      ensures refreshed ==> instance in index && id in index[instance]
    {
      if id !in meta || InstanceId !in meta[id] || meta[id][InstanceId] != instance {
        return false;
      }
      if Status !in meta[id] || meta[id][Status] != "active" {
        return false;
      }
      HashSet(id, map[UpdatedAt := stamp]);
      SetAdd(instance, id);
      refreshed := true;
    }

    method UpdateIfOwner(id: string, status: string, instance: string, stamp: string) returns (updated: bool)
      modifies `meta
      ensures Value() == UpdateStatusIfOwner(old(Value()), id, instance, status, stamp)
      // It is accepted exactly from the record's instance, and writes status and stamp alone.
      ensures updated <==> FieldIs(old(meta), id, InstanceId, instance)
      ensures if updated then Rewrites(old(meta), meta, id, map[Status := status, UpdatedAt := stamp]) else meta == old(meta)
    {
      if id !in meta || InstanceId !in meta[id] || meta[id][InstanceId] != instance {
        return false;
      }
      HashSet(id, map[Status := status, UpdatedAt := stamp]);
      updated := true;
    }

    method FinalizeStop(id: string, lockExists: bool, expectedUpdatedAt: string, stamp: string) returns (updated: bool)
      modifies `meta
      ensures Value() == FinalizeStopIfUnowned(old(Value()), id, lockExists, expectedUpdatedAt, stamp)
      // It finalizes exactly a record that is stopping since the expected stamp and has no lock.
      ensures updated <==>
        FieldIs(old(meta), id, Status, "stopping") && FieldIs(old(meta), id, UpdatedAt, expectedUpdatedAt) && !lockExists
      ensures if updated then Rewrites(old(meta), meta, id, map[Status := "stopped", UpdatedAt := stamp]) else meta == old(meta)
    {
      if id !in meta || Status !in meta[id] || meta[id][Status] != "stopping" {
        return false;
      }
      if UpdatedAt !in meta[id] || meta[id][UpdatedAt] != expectedUpdatedAt || lockExists {
        return false;
      }
      HashSet(id, map[Status := "stopped", UpdatedAt := stamp]);
      updated := true;
    }

    /** `update_status`: ownership moves from the previous instance's index to the new one's. */
    method UpdateStatus(id: string, status: string, instance: Option<string>, stamp: string)
      modifies `meta, `index
      ensures var s := WriteStatus(old(Value()), id, status, instance, stamp);
        if instance.None? then Value() == s
        else
          var previous := HGet(old(Value()), id, InstanceId);
          var tracked := Track(s, instance.value, id);
          Value() == if previous.Some? && previous.value != "" && previous != instance
                     then Untrack(tracked, previous.value, id) else tracked
      // Nothing guards it: status, stamp and owner are written, onto no record if need be.
      ensures Rewrites(old(meta), meta, id,
        if instance.None? then map[Status := status, UpdatedAt := stamp]
        else map[Status := status, UpdatedAt := stamp, InstanceId := instance.value])
      ensures instance.Some? ==> instance.value in index && id in index[instance.value]
      ensures instance.Some? && id in old(meta) && InstanceId in old(meta)[id] && old(meta)[id][InstanceId] !in {"", instance.value} ==>
        id !in IndexOf(Value(), old(meta)[id][InstanceId])
    {
      var previous: Option<string> := None;
      if instance.Some? {
        previous := HGet(Value(), id, InstanceId);
      }
      HashSet(id, if instance.None? then map[Status := status, UpdatedAt := stamp]
                  else map[Status := status, UpdatedAt := stamp, InstanceId := instance.value]);
      if instance.Some? {
        SetAdd(instance.value, id);
        if previous.Some? && previous.value != "" && previous.value != instance.value {
          SetRemove(previous.value, id);
        }
      }
    }

    /** `delete_stream`: without a record that names its subreddit nothing is deleted. */
    method DeleteStream(id: string, expectedStatus: string, expectedUpdatedAt: string, purge: bool) returns (deleted: bool)
      modifies this
      ensures deleted <==> Has(old(meta), id, expectedStatus, expectedUpdatedAt)
                           && Subreddit in old(meta)[id] && old(meta)[id][Subreddit] != ""
      ensures !deleted ==> Value() == old(Value())
      ensures deleted ==>
        var s := old(Value());
        var s' := DeleteIfUnchanged(s, id, s.meta[id][Subreddit], expectedStatus, expectedUpdatedAt, purge);
        Value() == if InstanceId in s.meta[id] && s.meta[id][InstanceId] != ""
                   then Untrack(s', s.meta[id][InstanceId], id) else s'
    {
      if id !in meta {
        return false;
      }
      var record := meta[id];
      if Subreddit !in record || record[Subreddit] == "" {
        return false;
      }
      deleted := DeleteScript(id, record[Subreddit], expectedStatus, expectedUpdatedAt, purge);
      if deleted && InstanceId in record && record[InstanceId] != "" {
        SetRemove(record[InstanceId], id);
      }
    }

    /**
     `create_stream` when no other client gets in between. It succeeds exactly on an unclaimed
     subreddit with a usable identity, and then returns that identity.
     */
    method CreateStream(subreddit: string, instance: string, config: string, candidate: string, created: string, stamp: string)
      returns (r: CreateResult)
      modifies this
      ensures (Value(), r) == CreateAlone(old(Value()), subreddit, instance, config, candidate, created, stamp)
      ensures r.CreatedAs? <==>
        subreddit !in old(claim) && (if subreddit in old(identity) then old(identity)[subreddit] else candidate) != ""
      ensures r.NoIdentity? <==>
        && (subreddit in old(claim) ==> old(claim)[subreddit] == "")
        && (if subreddit in old(identity) then old(identity)[subreddit] else candidate) == ""
      ensures r.CreatedAs? ==>
        && r.id == (if subreddit in old(identity) then old(identity)[subreddit] else candidate)
        && claim == old(claim)[subreddit := r.id] && identity == old(identity)[subreddit := r.id]
        && Rewrites(old(meta), meta, r.id,
             map[Id := r.id, Subreddit := subreddit, Status := "starting", InstanceId := instance, Config := config,
                 CreatedAt := created, UpdatedAt := stamp])
        && all == old(all) + {r.id} && checkpoints == old(checkpoints) && stops == old(stops)
        && (instance != "" ==> instance in index && r.id in index[instance])
      ensures !r.CreatedAs? ==> Value() == old(Value()).(identity := identity)
      ensures old(subreddit in identity) ==> identity == old(identity)
      ensures old(subreddit in claim && claim[subreddit] != "" && subreddit !in identity) ==>
        identity == old(identity)[subreddit := old(claim)[subreddit]]
    {
      if subreddit in claim && claim[subreddit] != "" {
        if subreddit !in identity {
          identity := identity[subreddit := claim[subreddit]];
        }
        assert identity == old(identity)[subreddit := StableId(old(Value()), subreddit, claim[subreddit])];
        return StreamExists;
      }
      var id := candidate;
      if subreddit in identity {
        id := identity[subreddit];
      } else {
        identity := identity[subreddit := candidate];
      }
      assert identity == old(identity)[subreddit := id];
      if id == "" {
        return NoIdentity;
      }
      if subreddit in claim {
        return StreamExists;
      }
      claim := claim[subreddit := id];
      HashSet(id, FullRecord(id, subreddit, instance, config, created, stamp));
      all := all + {id};
      if instance != "" {
        SetAdd(instance, id);
      }
      r := CreatedAs(id);
    }
  }
}
