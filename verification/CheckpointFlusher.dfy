/**
 The checkpoint flusher (checkpoint_flusher.py): one pass copies the checkpoints of the streams
 this instance owns from Redis to Postgres and prunes its index of streams it no longer owns.
 */
module CheckpointFlusher {
  import opened Common

  /** A naive UTC timestamp as Python's datetime holds it. */
  type Moment = int

  /** `fromisoformat`: the wall-clock part and, if the text has one, the UTC offset. */
  type IsoParser = string -> Option<(Moment, Option<int>)>

  /** The two hashes read per stream; a missing key reads as an empty hash. */
  datatype Meta = Meta(present: bool, instanceId: Option<string>)
  datatype CheckpointHash = CheckpointHash(present: bool, lastCommentId: Option<string>, lastProcessedAt: Option<string>)

  datatype Reply = MetaReply(meta: Meta) | CheckpointReply(checkpoint: CheckpointHash)

  datatype Row = Row(lastCommentId: Option<string>, lastProcessedAt: Option<Moment>, updatedAt: nat)

  datatype Parsed = Parsed(lastCommentId: Option<string>, lastProcessedAt: Option<Moment>)

  function StripZ(s: string): string {
    if s != "" && s[|s| - 1] == 'Z' then StripZ(s[..|s| - 1]) else s
  }

  /** `t` is the text without its trailing Zs. */
  predicate IsTrimmed(text: string, t: string) {
    && t <= text && (forall i :: |t| <= i < |text| ==> text[i] == 'Z')
    && (t != "" ==> t[|t| - 1] != 'Z')
  }

  lemma {:induction false} StripZTrims(text: string)
    ensures IsTrimmed(text, StripZ(text))
  {
    if text != "" && text[|text| - 1] == 'Z' {
      StripZTrims(text[..|text| - 1]);
    }
  }

  lemma TrimmedOnce(text: string, t: string, u: string)
    requires IsTrimmed(text, t) && IsTrimmed(text, u)
    ensures t == u
  {
    assert t != "" ==> t[|t| - 1] == text[|t| - 1];
    assert u != "" ==> u[|u| - 1] == text[|u| - 1];
  }

  /** `_parse_checkpoint_data`; the offset is dropped, not converted. */
  function Parse(parser: IsoParser, c: CheckpointHash): Option<Parsed> {
    if c.lastProcessedAt.None? || c.lastProcessedAt.value == "" then Some(Parsed(c.lastCommentId, None))
    else
      match parser(StripZ(c.lastProcessedAt.value))
      case None => None
      case Some((moment, _)) => Some(Parsed(c.lastCommentId, Some(moment)))
  }

  /** What Redis holds about the streams when the pass reads it in one transaction. */
  datatype Snapshot = Snapshot(meta: map<string, Meta>, checkpoints: map<string, CheckpointHash>)

  function MetaOf(r: Snapshot, id: string): Meta {
    if id in r.meta then r.meta[id] else Meta(false, None)
  }

  function CheckpointOf(r: Snapshot, id: string): CheckpointHash {
    if id in r.checkpoints then r.checkpoints[id] else CheckpointHash(false, None, None)
  }

  predicate Owned(r: Snapshot, instance: string, id: string) {
    MetaOf(r, id).present && MetaOf(r, id).instanceId == Some(instance)
  }

  /** The checkpoint this pass is to copy for a stream, if any. */
  function Due(r: Snapshot, parser: IsoParser, instance: string, id: string): Option<Parsed> {
    if Owned(r, instance, id) && CheckpointOf(r, id).present then Parse(parser, CheckpointOf(r, id)) else None
  }

  predicate RowIs(rows: map<string, Row>, id: string, p: Parsed, now: nat) {
    id in rows && rows[id] == Row(p.lastCommentId, p.lastProcessedAt, now)
  }

  /** The reference: every due checkpoint of the listed streams is copied, every other row stays. */
  function Copied(
      rows: map<string, Row>, listed: set<string>, r: Snapshot, parser: IsoParser, instance: string, now: nat)
    : map<string, Row>
  {
    map id | id in rows.Keys + (set x | x in listed && Due(r, parser, instance, x).Some?) ::
      if id in listed && Due(r, parser, instance, id).Some? then
        var p := Due(r, parser, instance, id).value;
        Row(p.lastCommentId, p.lastProcessedAt, now)
      else rows[id]
  }

  /** What is left of an index after pruning the listed streams this instance does not own. */
  function Pruned(index: set<string>, listed: set<string>, r: Snapshot, instance: string): set<string> {
    set id | id in index && (id in listed ==> Owned(r, instance, id))
  }

  predicate HasText(c: CheckpointHash) {
    c.lastProcessedAt.Some? && c.lastProcessedAt.value != ""
  }

  /**
   What a pass leaves in the rows, read off Redis' hashes: the row of a listed stream whose record
   names this instance and whose checkpoint is there holds the checkpoint's comment id, and as its
   processed time what the parser reads in the text without its trailing Zs, or none if there is no
   text. Such a stream is skipped only if the parser refuses that text; every other row stays.
   */
  lemma RowsHoldTheCheckpoints(
      rows: map<string, Row>, listed: set<string>, r: Snapshot, parser: IsoParser, instance: string, now: nat,
      id: string, trimmed: string)
    requires id in r.checkpoints && HasText(r.checkpoints[id]) ==> IsTrimmed(r.checkpoints[id].lastProcessedAt.value, trimmed)
    ensures var after := Copied(rows, listed, r, parser, instance, now);
      if id in listed && id in r.meta && r.meta[id].present && r.meta[id].instanceId == Some(instance)
         && id in r.checkpoints && r.checkpoints[id].present
         && (HasText(r.checkpoints[id]) ==> parser(trimmed).Some?)
      then
        && id in after && after[id].lastCommentId == r.checkpoints[id].lastCommentId && after[id].updatedAt == now
        && after[id].lastProcessedAt == if HasText(r.checkpoints[id]) then Some(parser(trimmed).value.0) else None
      else (id in after <==> id in rows) && (id in after ==> after[id] == rows[id])
  {
    if id in r.checkpoints && HasText(r.checkpoints[id]) {
      var text := r.checkpoints[id].lastProcessedAt.value;
      StripZTrims(text);
      TrimmedOnce(text, trimmed, StripZ(text));
    }
  }

  /** What a pass leaves in the index: everything but the listed streams whose record does not name this instance. */
  lemma IndexKeepsTheOwned(index: set<string>, listed: set<string>, r: Snapshot, instance: string, id: string)
    ensures id in Pruned(index, listed, r, instance) <==>
      id in index && (id !in listed || (id in r.meta && r.meta[id].present && r.meta[id].instanceId == Some(instance)))
  {
  }

  /**
   On a Redis that stands still, a second pass over what the first one left changes no comment id
   and no processed time, adds no row and prunes nothing more.
   */
  lemma SecondFlushChangesNothing(
      rows: map<string, Row>, index: set<string>, r: Snapshot, parser: IsoParser, instance: string, now: nat, later: nat)
    ensures var once := Copied(rows, index, r, parser, instance, now);
      var kept := Pruned(index, index, r, instance);
      var twice := Copied(once, kept, r, parser, instance, later);
      && Pruned(kept, kept, r, instance) == kept
      && twice.Keys == once.Keys
      && forall id :: id in once ==>
           twice[id].lastCommentId == once[id].lastCommentId && twice[id].lastProcessedAt == once[id].lastProcessedAt
  {
    var once := Copied(rows, index, r, parser, instance, now);
    var kept := Pruned(index, index, r, instance);
    var twice := Copied(once, kept, r, parser, instance, later);
    assert forall id :: id in kept && Due(r, parser, instance, id).Some? ==> id in index && id in once;
    assert twice.Keys == once.Keys;
  }

  class Flusher {
    const instanceId: string
    const parser: IsoParser
    var index: set<string>            // streams:instance:{instance_id}
    var rows: map<string, Row>        // stream_checkpoints, keyed by its unique stream_id

    constructor (instanceId: string, parser: IsoParser)
      ensures this.instanceId == instanceId && this.parser == parser
      ensures index == {} && rows == map[]
    {
      this.instanceId, this.parser := instanceId, parser;
      index, rows := {}, map[];
    }

    /** The pipeline queues two reads per stream, in the order of the listing. */
    method Pipeline(ids: seq<string>, r: Snapshot) returns (replies: seq<Reply>)
      ensures |replies| == 2 * |ids|
      ensures forall i :: 0 <= i < |ids| ==>
        replies[2 * i] == MetaReply(MetaOf(r, ids[i])) && replies[2 * i + 1] == CheckpointReply(CheckpointOf(r, ids[i]))
    {
      replies := [];
      for i := 0 to |ids|
        invariant |replies| == 2 * i
        invariant forall k :: 0 <= k < i ==>
          replies[2 * k] == MetaReply(MetaOf(r, ids[k])) && replies[2 * k + 1] == CheckpointReply(CheckpointOf(r, ids[k]))
      {
        replies := replies + [MetaReply(MetaOf(r, ids[i])), CheckpointReply(CheckpointOf(r, ids[i]))];
      }
    }

    /**
     The batch upsert, in one transaction: a failing statement, the `failing`-th, rolls back the lot.
     */
    method Upsert(batch: seq<(string, Parsed)>, now: nat, failing: Option<nat>) returns (ok: bool)
      requires forall i, j :: 0 <= i < j < |batch| ==> batch[i].0 != batch[j].0
      modifies `rows
      ensures ok <==> failing.None? || failing.value > |batch|
      ensures !ok ==> rows == old(rows)
      ensures ok ==> forall i :: 0 <= i < |batch| ==> RowIs(rows, batch[i].0, batch[i].1, now)
      ensures forall id :: (forall i :: 0 <= i < |batch| ==> batch[i].0 != id) ==>
        (id in rows <==> id in old(rows)) && (id in rows ==> rows[id] == old(rows)[id])
    {
      var before := rows;
      for i := 0 to |batch|
        invariant failing.None? || i <= failing.value
        invariant forall k :: 0 <= k < i ==> RowIs(rows, batch[k].0, batch[k].1, now)
        invariant forall id :: (forall k :: 0 <= k < i ==> batch[k].0 != id) ==>
          (id in rows <==> id in before) && (id in rows ==> rows[id] == before[id])
      {
        if failing == Some(i) {
          rows := before;
          return false;
        }
        rows := rows[batch[i].0 := Row(batch[i].1.lastCommentId, batch[i].1.lastProcessedAt, now)];
      }
      if failing == Some(|batch|) {
        // The commit itself fails.
        rows := before;
        return false;
      }
      ok := true;
    }

    /** The positional loop: entry i of the listing goes with replies 2i and 2i + 1. */
    method Collect(ids: seq<string>, results: seq<Reply>, ghost r: Snapshot)
      returns (upserts: seq<(string, Parsed)>, stale: seq<string>)
      requires forall i, j :: 0 <= i < j < |ids| ==> ids[i] != ids[j]
      requires |results| == 2 * |ids|
      requires forall i :: 0 <= i < |ids| ==>
        results[2 * i] == MetaReply(MetaOf(r, ids[i])) && results[2 * i + 1] == CheckpointReply(CheckpointOf(r, ids[i]))
      ensures forall id :: id in stale <==> id in ids && !Owned(r, instanceId, id)
      ensures IsBatch(upserts, ids, r)
    {
      upserts, stale := [], [];
      for i := 0 to |ids|
        invariant forall id :: id in stale <==> id in ids[..i] && !Owned(r, instanceId, id)
        invariant IsBatch(upserts, ids[..i], r)
      {
        var id := ids[i];
        assert ids[..i + 1] == ids[..i] + [id];
        var meta, checkpoint := results[2 * i].meta, results[2 * i + 1].checkpoint;
        if !meta.present || meta.instanceId != Some(instanceId) {
          stale := stale + [id];
          continue;
        }
        if !checkpoint.present {
          continue;
        }
        var parsed := Parse(parser, checkpoint);
        if parsed.None? {
          continue;
        }
        BatchGrows(upserts, ids[..i], r, id, parsed.value);
        upserts := upserts + [(id, parsed.value)];
      }
      assert ids[..|ids|] == ids;
    }

    /** The batch holds each due checkpoint of the listed streams once, and nothing else. */
    ghost predicate IsBatch(batch: seq<(string, Parsed)>, ids: seq<string>, r: Snapshot) {
      && (forall k :: 0 <= k < |batch| ==> batch[k].0 in ids && Due(r, parser, instanceId, batch[k].0) == Some(batch[k].1))
      && (forall id :: id in ids && Due(r, parser, instanceId, id).Some? ==> exists k :: 0 <= k < |batch| && batch[k].0 == id)
      && (forall k, l :: 0 <= k < l < |batch| ==> batch[k].0 != batch[l].0)
    }

    lemma BatchGrows(batch: seq<(string, Parsed)>, ids: seq<string>, r: Snapshot, id: string, p: Parsed)
      requires IsBatch(batch, ids, r) && id !in ids && Due(r, parser, instanceId, id) == Some(p)
      ensures IsBatch(batch + [(id, p)], ids + [id], r)
    {
      var longer := batch + [(id, p)];
      assert longer[|batch|].0 == id;
      forall x | x in ids + [id] && Due(r, parser, instanceId, x).Some?
        ensures exists k :: 0 <= k < |longer| && longer[k].0 == x
      {
        if x != id {
          var k :| 0 <= k < |batch| && batch[k].0 == x;
          assert longer[k].0 == x;
        }
      }
    }

    /**
     One pass. The index is listed first, the hashes are read in one transaction later, and by then
     (and at the pruning) others may have changed the index. It prunes exactly the listed entries
     not owned; it upserts exactly the listed, owned, non-empty, parseable checkpoints and leaves
     every other row alone; a pruning that raises stops it before the upsert; and if the database
     refuses, no row changes.
     */
    method Flush(ids: seq<string>, r: Snapshot, now: nat, pruning: Wire, failing: Option<nat>) returns (ok: bool)
      // SMEMBERS lists the index in some order.
      requires forall i, j :: 0 <= i < j < |ids| ==> ids[i] != ids[j]
      modifies `index, `rows
      ensures var listed := set id | id in ids;
        && index == (if pruning.RequestLost? then old(index) else Pruned(old(index), listed, r, instanceId))
        && rows == (if ok then Copied(old(rows), listed, r, parser, instanceId, now) else old(rows))
      ensures failing.None? ==> (ok <==> pruning.Answered? || forall id :: id in ids ==> Owned(r, instanceId, id))
    {
      ghost var listed := set id | id in ids;
      ok := true;
      if ids == [] {
        assert rows == Copied(rows, listed, r, parser, instanceId, now);
        return;
      }
      var results := Pipeline(ids, r);
      var upserts, stale := Collect(ids, results, r);
      if stale != [] {
        assert stale[0] in ids && !Owned(r, instanceId, stale[0]);
        ok := Prune(stale, pruning);
        if !ok {
          return;
        }
      } else {
        assert forall id :: id in ids ==> Owned(r, instanceId, id);
      }
      if upserts != [] {
        ok := Upsert(upserts, now, failing);
      }
      if ok {
        CopiesAll(upserts, ids, r, old(rows), now);
      }
    }

    method Prune(stale: seq<string>, pruning: Wire) returns (ok: bool)
      modifies `index
      ensures ok <==> pruning.Answered?
      ensures index == if pruning.RequestLost? then old(index) else (set id | id in old(index) && id !in stale)
    {
      if pruning != RequestLost {
        index := set id | id in index && id !in stale;
      }
      ok := pruning == Answered;
    }

    /** Rows into which the batch was written are the reference's rows. */
    lemma CopiesAll(batch: seq<(string, Parsed)>, ids: seq<string>, r: Snapshot, before: map<string, Row>, now: nat)
      requires IsBatch(batch, ids, r)
      requires forall i :: 0 <= i < |batch| ==> RowIs(rows, batch[i].0, batch[i].1, now)
      requires forall id :: (forall i :: 0 <= i < |batch| ==> batch[i].0 != id) ==>
        (id in rows <==> id in before) && (id in rows ==> rows[id] == before[id])
      ensures rows == Copied(before, (set id | id in ids), r, parser, instanceId, now)
    {
      var listed := set id | id in ids;
      forall id | id in listed && Due(r, parser, instanceId, id).Some?
        ensures RowIs(rows, id, Due(r, parser, instanceId, id).value, now)
      {
        var k :| 0 <= k < |batch| && batch[k].0 == id;
        assert RowIs(rows, batch[k].0, batch[k].1, now);
      }
      assert rows.Keys == Copied(before, listed, r, parser, instanceId, now).Keys;
    }
  }
}
