/**
 The migration runner (migrations.py): apply pending SQL files in one transaction, record each
 with the checksum of its bytes, refuse edited files, and retry the whole while the database is
 not reachable.
 */
module Migrations {
  import opened Common

  /** A migration file: its name is the version; bytes that are not UTF-8 raise when read. */
  datatype File = File(name: string, content: string, decodes: bool)

  datatype Executed = Executed(version: string, content: string)

  /** The committed database: the recorded checksums and the scripts that were run, in order. */
  datatype Database = Database(versions: map<string, string>, scripts: seq<Executed>)

  datatype Failure = Undecodable(version: string) | Edited(version: string)
                   | ScriptFailed(version: string) | AlreadyRecorded(version: string)

  datatype Outcome = Committed(db: Database) | RolledBack(reason: Failure)

  /** sha256, and whether the server rejects a script in the state it is in. */
  type Hash = string -> string
  type Verdicts = (Executed, Database) -> bool

  /** The characters `str.strip()` removes. */
  predicate IsSpace(c: char) {
    var n := c as int;
    || 0x09 <= n <= 0x0D || 0x1C <= n <= 0x20 || n == 0x85 || n == 0xA0 || n == 0x1680
    || 0x2000 <= n <= 0x200A || n == 0x2028 || n == 0x2029 || n == 0x202F || n == 0x205F || n == 0x3000
  }

  /** Nothing is left of the script once it is stripped. */
  predicate Blank(s: string) {
    forall i :: 0 <= i < |s| ==> IsSpace(s[i])
  }

  /** The loop over the files from the k-th on; `applied` is the table as read before the loop. */
  function ApplyFrom(files: seq<File>, k: nat, applied: map<string, string>, db: Database, sha: Hash, rejects: Verdicts): Outcome
    requires k <= |files|
    decreases |files| - k
  {
    if k == |files| then Committed(db)
    else
      var f := files[k];
      if !f.decodes then RolledBack(Undecodable(f.name))
      else if f.name in applied then
        if applied[f.name] != sha(f.content) then RolledBack(Edited(f.name))
        else ApplyFrom(files, k + 1, applied, db, sha, rejects)
      else
        var script := Executed(f.name, f.content);
        if !Blank(f.content) && rejects(script, db) then RolledBack(ScriptFailed(f.name))
        else if f.name in db.versions then RolledBack(AlreadyRecorded(f.name))
        else
          ApplyFrom(files, k + 1, applied, Record(db, f, sha), sha, rejects)
  }

  function Record(db: Database, f: File, sha: Hash): Database {
    Database(db.versions[f.name := sha(f.content)], db.scripts + [Executed(f.name, f.content)])
  }

  function RunOnce(files: seq<File>, db: Database, sha: Hash, rejects: Verdicts): Outcome {
    ApplyFrom(files, 0, db.versions, db, sha, rejects)
  }

  function Settle(o: Outcome, before: Database): Database {
    if o.Committed? then o.db else before
  }

  /** The connection: what a transaction has done so far is visible to it alone. */
  class Connection {
    var committed: Database
    var current: Database

    constructor ()
      ensures committed == current == Database(map[], [])
    {
      committed, current := Database(map[], []), Database(map[], []);
    }

    /** The body of the transaction; an exception leaves the transaction's work in `current`. */
    method ApplyMigrationFiles(files: seq<File>, sha: Hash, rejects: Verdicts) returns (failure: Option<Failure>)
      modifies `current
      ensures var o := RunOnce(files, old(current), sha, rejects);
        if o.Committed? then failure.None? && current == o.db else failure == Some(o.reason)
    {
      var applied := current.versions;
      ghost var goal := RunOnce(files, current, sha, rejects);
      for k := 0 to |files|
        invariant goal == ApplyFrom(files, k, applied, current, sha, rejects)
      {
        var f := files[k];
        if !f.decodes {
          return Some(Undecodable(f.name));
        }
        if f.name in applied {
          if applied[f.name] != sha(f.content) {
            return Some(Edited(f.name));
          }
          continue;
        }
        var script := Executed(f.name, f.content);
        if !Blank(f.content) && rejects(script, current) {
          return Some(ScriptFailed(f.name));
        }
        if f.name in current.versions {
          return Some(AlreadyRecorded(f.name));   // the primary key refuses the row
        }
        current := Record(current, f, sha);
      }
      failure := None;
    }

    /** `engine.begin()`: commit on a normal exit, roll back on an exception. */
    method ExecuteMigrations(files: seq<File>, sha: Hash, rejects: Verdicts) returns (failure: Option<Failure>)
      requires committed == current
      modifies this
      ensures committed == current == Settle(RunOnce(files, old(committed), sha, rejects), old(committed))
      // Committed as a whole with everything the run did, or as if it had not been.
      ensures match RunOnce(files, old(committed), sha, rejects)
              case Committed(db) => failure.None? && committed == db
              case RolledBack(reason) => failure == Some(reason) && committed == old(committed)
    {
      failure := ApplyMigrationFiles(files, sha, rejects);
      if failure.None? {
        committed := current;
      } else {
        current := committed;
      }
    }
  }

  // ---------------------------------------------------------------------------------------------

  ghost predicate ExecutedOnce(db: Database) {
    forall i, j :: 0 <= i < j < |db.scripts| ==> db.scripts[i].version != db.scripts[j].version
  }

  ghost predicate ExecutedAreRecorded(db: Database, sha: Hash) {
    forall i :: 0 <= i < |db.scripts| ==>
      db.scripts[i].version in db.versions && db.versions[db.scripts[i].version] == sha(db.scripts[i].content)
  }

  ghost predicate WasExecuted(db: Database, v: string) {
    exists i :: 0 <= i < |db.scripts| && db.scripts[i].version == v
  }

  ghost predicate RecordedWereExecuted(db: Database) {
    forall v :: v in db.versions ==> WasExecuted(db, v)
  }

  /** Every version was executed once, and is recorded with the checksum of what was executed. */
  ghost predicate Consistent(db: Database, sha: Hash) {
    ExecutedOnce(db) && ExecutedAreRecorded(db, sha) && RecordedWereExecuted(db)
  }

  /** The database only grows: recorded checksums and the order of executed scripts stay. */
  ghost predicate Extends(before: Database, after: Database) {
    && (forall v :: v in before.versions ==> v in after.versions && after.versions[v] == before.versions[v])
    && before.scripts <= after.scripts
  }

  lemma RecordingExecutesOnce(db: Database, f: File, sha: Hash)
    requires ExecutedOnce(db) && ExecutedAreRecorded(db, sha) && f.name !in db.versions
    ensures ExecutedOnce(Record(db, f, sha)) && ExecutedAreRecorded(Record(db, f, sha), sha)
  {
    var db' := Record(db, f, sha);
    forall i | 0 <= i < |db'.scripts|
      ensures db'.scripts[i] == if i < |db.scripts| then db.scripts[i] else Executed(f.name, f.content)
    {
    }
  }

  lemma RecordingRecordsExecuted(db: Database, f: File, sha: Hash)
    requires RecordedWereExecuted(db)
    ensures RecordedWereExecuted(Record(db, f, sha))
  {
    var db' := Record(db, f, sha);
    forall v | v in db'.versions
      ensures WasExecuted(db', v)
    {
      if v == f.name {
        assert db'.scripts[|db.scripts|].version == v;
      } else {
        assert WasExecuted(db, v);
        var i :| 0 <= i < |db.scripts| && db.scripts[i].version == v;
        assert db'.scripts[i].version == v;
      }
    }
  }

  lemma RecordingIsConsistent(db: Database, f: File, sha: Hash)
    requires Consistent(db, sha) && f.name !in db.versions
    ensures Consistent(Record(db, f, sha), sha) && Extends(db, Record(db, f, sha))
  {
    RecordingExecutesOnce(db, f, sha);
    RecordingRecordsExecuted(db, f, sha);
  }

  lemma {:induction false} CommittedRunsAreConsistent(
      files: seq<File>, k: nat, applied: map<string, string>, db: Database, sha: Hash, rejects: Verdicts)
    requires k <= |files| && Consistent(db, sha)
    ensures var o := ApplyFrom(files, k, applied, db, sha, rejects);
      o.Committed? ==> Consistent(o.db, sha) && Extends(db, o.db)
    decreases |files| - k
  {
    if k < |files| && files[k].decodes {
      var f := files[k];
      if f.name in applied {
        CommittedRunsAreConsistent(files, k + 1, applied, db, sha, rejects);
      } else if f.name !in db.versions {
        RecordingIsConsistent(db, f, sha);
        CommittedRunsAreConsistent(files, k + 1, applied, Record(db, f, sha), sha, rejects);
      }
    }
  }

  /** One run of a history: any files (edited, added, removed), any scripts the server rejects. */
  datatype Run = Run(files: seq<File>, rejects: Verdicts)

  function After(runs: seq<Run>, sha: Hash): Database {
    if runs == [] then Database(map[], [])
    else
      var before := After(runs[..|runs| - 1], sha);
      Settle(RunOnce(runs[|runs| - 1].files, before, sha, runs[|runs| - 1].rejects), before)
  }

  /**
   Over any history of runs, each version is committed at most once and stays recorded with the
   checksum of the bytes that were executed, however the files are edited later.
   */
  lemma {:induction false} HistoriesAreConsistent(runs: seq<Run>, earlier: nat, sha: Hash)
    requires earlier <= |runs|
    ensures Consistent(After(runs, sha), sha)
    ensures Extends(After(runs[..earlier], sha), After(runs, sha))
  {
    if runs == [] {
    } else {
      var init, last := runs[..|runs| - 1], runs[|runs| - 1];
      if earlier == |runs| {
        assert runs[..earlier] == runs;
        HistoriesAreConsistent(init, |init|, sha);
      } else {
        assert init[..earlier] == runs[..earlier];
        HistoriesAreConsistent(init, earlier, sha);
      }
      CommittedRunsAreConsistent(last.files, 0, After(init, sha).versions, After(init, sha), sha, last.rejects);
    }
  }

  /** A committed run is there afterwards, a failed one leaves no trace. */
  lemma RunsTakeEffect(runs: seq<Run>, run: Run, sha: Hash)
    ensures var o := RunOnce(run.files, After(runs, sha), sha, run.rejects);
      After(runs + [run], sha) == match o case Committed(db) => db case RolledBack(_) => After(runs, sha)
  {
    assert (runs + [run])[..|runs|] == runs;
  }

  predicate Recorded(f: File, db: Database, sha: Hash) {
    f.decodes && f.name in db.versions && db.versions[f.name] == sha(f.content)
  }

  ghost predicate UpToDate(files: seq<File>, db: Database, sha: Hash) {
    forall i :: 0 <= i < |files| ==> Recorded(files[i], db, sha)
  }

  /** A run that commits gets past each file: it was applied unchanged, or is recorded now. */
  lemma CommitPasses(files: seq<File>, k: nat, applied: map<string, string>, db: Database, sha: Hash, rejects: Verdicts)
    requires k < |files| && ApplyFrom(files, k, applied, db, sha, rejects).Committed?
    ensures var f := files[k];
      var next := if f.name in applied then db else Record(db, f, sha);
      && f.decodes && (if f.name in applied then applied[f.name] == sha(f.content) else f.name !in db.versions)
      && ApplyFrom(files, k, applied, db, sha, rejects) == ApplyFrom(files, k + 1, applied, next, sha, rejects)
  {
  }

  /** After a committed run, every file is recorded with its present checksum. */
  lemma {:induction false} CommitRecordsEveryFile(
      files: seq<File>, k: nat, applied: map<string, string>, db: Database, sha: Hash, rejects: Verdicts, i: nat)
    requires k <= i < |files| && Consistent(db, sha)
    requires forall v :: v in applied ==> v in db.versions && db.versions[v] == applied[v]
    requires ApplyFrom(files, k, applied, db, sha, rejects).Committed?
    ensures Recorded(files[i], ApplyFrom(files, k, applied, db, sha, rejects).db, sha)
    decreases |files| - k
  {
    var f := files[k];
    var next := if f.name in applied then db else Record(db, f, sha);
    CommitPasses(files, k, applied, db, sha, rejects);
    if f.name !in applied {
      RecordingIsConsistent(db, f, sha);
    }
    if k < i {
      CommitRecordsEveryFile(files, k + 1, applied, next, sha, rejects, i);
    } else {
      assert Recorded(f, next, sha);
      CommittedRunsAreConsistent(files, k + 1, applied, next, sha, rejects);
    }
  }

  lemma {:induction false} UpToDateIsNoOp(files: seq<File>, k: nat, db: Database, sha: Hash, rejects: Verdicts)
    requires k <= |files| && UpToDate(files, db, sha)
    ensures ApplyFrom(files, k, db.versions, db, sha, rejects) == Committed(db)
    decreases |files| - k
  {
    if k < |files| {
      UpToDateIsNoOp(files, k + 1, db, sha, rejects);
    }
  }

  /** A run on unchanged files executes nothing, even if the server would now reject every script. */
  lemma RerunIsNoOp(files: seq<File>, db: Database, sha: Hash, rejects: Verdicts, rejectsNow: Verdicts)
    requires Consistent(db, sha) && RunOnce(files, db, sha, rejects).Committed?
    ensures var after := RunOnce(files, db, sha, rejects).db;
      RunOnce(files, after, sha, rejectsNow) == Committed(after)
  {
    forall i: nat | i < |files|
      ensures Recorded(files[i], RunOnce(files, db, sha, rejects).db, sha)
    {
      CommitRecordsEveryFile(files, 0, db.versions, db, sha, rejects, i);
    }
    UpToDateIsNoOp(files, 0, RunOnce(files, db, sha, rejects).db, sha, rejectsNow);
  }

  ghost predicate Unedited(files: seq<File>, applied: map<string, string>, sha: Hash) {
    forall i :: 0 <= i < |files| && files[i].name in applied ==> applied[files[i].name] == sha(files[i].content)
  }

  ghost predicate PendingAreDistinct(files: seq<File>, k: nat, applied: map<string, string>, recorded: set<string>) {
    && (forall i :: k <= i < |files| && files[i].name !in applied ==> files[i].name !in recorded)
    && (forall i, j :: k <= i < j < |files| && files[i].name !in applied ==> files[i].name != files[j].name)
  }

  /** The scripts a commit adds: the pending files', in the order of the files. */
  function Pending(files: seq<File>, k: nat, applied: map<string, string>): seq<Executed>
    requires k <= |files|
    decreases |files| - k
  {
    if k == |files| then []
    else if files[k].name in applied then Pending(files, k + 1, applied)
    else [Executed(files[k].name, files[k].content)] + Pending(files, k + 1, applied)
  }

  /** The state the i-th file meets: the pending files before it have been executed. */
  function StateAt(files: seq<File>, k: nat, i: nat, applied: map<string, string>, db: Database, sha: Hash): Database
    requires k <= i <= |files|
    decreases i - k
  {
    if k == i then db
    else StateAt(files, k + 1, i, applied, if files[k].name in applied then db else Record(db, files[k], sha), sha)
  }

  /** The server rejects no pending script in the state it would run in. */
  ghost predicate NoneRejected(
      files: seq<File>, k: nat, applied: map<string, string>, db: Database, sha: Hash, rejects: Verdicts)
  {
    forall i :: k <= i < |files| && files[i].name !in applied && !Blank(files[i].content) ==>
      !rejects(Executed(files[i].name, files[i].content), StateAt(files, k, i, applied, db, sha))
  }

  lemma NoneRejectedFromHere(
      files: seq<File>, k: nat, applied: map<string, string>, db: Database, sha: Hash, rejects: Verdicts)
    requires k < |files|
    ensures var f := files[k];
      var next := if f.name in applied then db else Record(db, f, sha);
      NoneRejected(files, k, applied, db, sha, rejects) <==>
        && NoneRejected(files, k + 1, applied, next, sha, rejects)
        && (f.name in applied || Blank(f.content) || !rejects(Executed(f.name, f.content), db))
  {
    var next := if files[k].name in applied then db else Record(db, files[k], sha);
    assert forall i :: k + 1 <= i < |files| ==>
      StateAt(files, k, i, applied, db, sha) == StateAt(files, k + 1, i, applied, next, sha);
    assert StateAt(files, k, k, applied, db, sha) == db;
  }

  lemma {:induction false} CommitsFromHere(
      files: seq<File>, k: nat, applied: map<string, string>, db: Database, sha: Hash, rejects: Verdicts)
    requires k <= |files|
    ensures ApplyFrom(files, k, applied, db, sha, rejects).Committed? <==>
      && (forall i :: k <= i < |files| ==> files[i].decodes)
      && (forall i :: k <= i < |files| && files[i].name in applied ==> applied[files[i].name] == sha(files[i].content))
      && PendingAreDistinct(files, k, applied, db.versions.Keys)
      && NoneRejected(files, k, applied, db, sha, rejects)
    decreases |files| - k
  {
    if k < |files| {
      var f := files[k];
      NoneRejectedFromHere(files, k, applied, db, sha, rejects);
      if f.name in applied {
        CommitsFromHere(files, k + 1, applied, db, sha, rejects);
      } else {
        CommitsFromHere(files, k + 1, applied, Record(db, f, sha), sha, rejects);
        assert Record(db, f, sha).versions.Keys == db.versions.Keys + {f.name};
      }
    }
  }

  /**
   A run commits if and only if all files decode, no applied file was edited, no pending name occurs
   twice, and the server rejects no pending script in the state it runs in; one edited file blocks
   the pending ones too.
   */
  lemma CommitsExactlyWhen(files: seq<File>, db: Database, sha: Hash, rejects: Verdicts)
    ensures RunOnce(files, db, sha, rejects).Committed? <==>
      && (forall i :: 0 <= i < |files| ==> files[i].decodes)
      && Unedited(files, db.versions, sha)
      && PendingAreDistinct(files, 0, db.versions, {})
      && NoneRejected(files, 0, db.versions, db, sha, rejects)
  {
    CommitsFromHere(files, 0, db.versions, db, sha, rejects);
  }

  /** What is wrong with the i-th file, if anything, in the state it meets. */
  function Trouble(
      files: seq<File>, k: nat, i: nat, applied: map<string, string>, db: Database, sha: Hash, rejects: Verdicts): Option<Failure>
    requires k <= i < |files|
  {
    var f, met := files[i], StateAt(files, k, i, applied, db, sha);
    if !f.decodes then Some(Undecodable(f.name))
    else if f.name in applied then (if applied[f.name] == sha(f.content) then None else Some(Edited(f.name)))
    else if !Blank(f.content) && rejects(Executed(f.name, f.content), met) then Some(ScriptFailed(f.name))
    else if f.name in met.versions then Some(AlreadyRecorded(f.name))
    else None
  }

  /** A run that fails fails at the first file something is wrong with, and says what. */
  lemma {:induction false} FailsAtTheFirstTrouble(
      files: seq<File>, k: nat, applied: map<string, string>, db: Database, sha: Hash, rejects: Verdicts) returns (i: nat)
    requires k <= |files| && ApplyFrom(files, k, applied, db, sha, rejects).RolledBack?
    ensures k <= i < |files|
    ensures Trouble(files, k, i, applied, db, sha, rejects) == Some(ApplyFrom(files, k, applied, db, sha, rejects).reason)
    ensures forall j :: k <= j < i ==> Trouble(files, k, j, applied, db, sha, rejects).None?
    decreases |files| - k
  {
    i := k;
    if Trouble(files, k, k, applied, db, sha, rejects).None? {
      var next := if files[k].name in applied then db else Record(db, files[k], sha);
      i := FailsAtTheFirstTrouble(files, k + 1, applied, next, sha, rejects);
      forall j | k < j <= i
        ensures Trouble(files, k, j, applied, db, sha, rejects) == Trouble(files, k + 1, j, applied, next, sha, rejects)
      {
        assert StateAt(files, k, j, applied, db, sha) == StateAt(files, k + 1, j, applied, next, sha);
      }
    }
  }

  /** Among the ASCII characters the blank ones are tab to carriage return, the separators and space. */
  lemma AsciiBlanks(c: char)
    requires (c as int) < 0x80
    ensures Blank([c]) <==> c in {'\U{09}', '\U{0A}', '\U{0B}', '\U{0C}', '\U{0D}', '\U{1C}', '\U{1D}', '\U{1E}', '\U{1F}', ' '}
  {
    assert Blank([c]) <==> IsSpace([c][0]);
  }

  /** A commit runs exactly the pending scripts, in order, whatever the server rejected before. */
  lemma {:induction false} CommitRunsPendingInOrder(
      files: seq<File>, k: nat, applied: map<string, string>, db: Database, sha: Hash, rejects: Verdicts)
    requires k <= |files|
    ensures var o := ApplyFrom(files, k, applied, db, sha, rejects);
      o.Committed? ==> o.db.scripts == db.scripts + Pending(files, k, applied)
    decreases |files| - k
  {
    if k < |files| {
      var f := files[k];
      if f.name in applied {
        CommitRunsPendingInOrder(files, k + 1, applied, db, sha, rejects);
      } else {
        CommitRunsPendingInOrder(files, k + 1, applied, Record(db, f, sha), sha, rejects);
        var script, rest := [Executed(f.name, f.content)], Pending(files, k + 1, applied);
        assert (db.scripts + script) + rest == db.scripts + (script + rest);
      }
    }
  }

  // ---------------------------------------------------------------------------------------------
  // Retrying

  const MAX_WAIT: real := 600.0
  const RETRY_DELAY: real := 10.0

  datatype Attempt = Succeeds | Fails(retryable: bool)

  /** How the n-th attempt goes, how long it takes, and by how much the sleep after it overruns. */
  datatype Fate = Fate(attempt: nat -> Attempt, takes: nat -> real, oversleeps: nat -> real)

  datatype Verdict = Done | Propagated | GaveUp

  /** The time the first n attempts and the overruns of the n sleeps after them take. */
  function Slept(fate: Fate, n: nat): real {
    if n == 0 then 0.0 else Slept(fate, n - 1) + fate.takes(n - 1) + fate.oversleeps(n - 1)
  }

  /** The same up to the end of the n-th attempt. */
  function Busy(fate: Fate, n: nat): real
    requires n >= 1
  {
    Slept(fate, n - 1) + fate.takes(n - 1)
  }

  /**
   The retry loop. If sleeping never ends early and time never runs backwards it makes at most 61
   attempts, and it gives up only once ten minutes have passed since it started.
   */
  method RunWithRetry(fate: Fate, start: real) returns (v: Verdict, attempts: nat, clock: real)
    requires forall n :: fate.takes(n) >= 0.0 && fate.oversleeps(n) >= 0.0
    ensures 1 <= attempts <= 61
    ensures forall n: nat :: n < attempts - 1 ==> fate.attempt(n) == Fails(true)
    ensures match v
            case Done => fate.attempt(attempts - 1) == Succeeds
            case Propagated => fate.attempt(attempts - 1) == Fails(false)
            case GaveUp => fate.attempt(attempts - 1) == Fails(true) && clock >= start + 600.0
    // Between two attempts it sleeps ten seconds at most.
    ensures clock <= start + Busy(fate, attempts) + 10.0 * (attempts - 1) as real
  {
    var deadline := start + MAX_WAIT;
    clock, attempts := start, 0;
    while true
      invariant attempts <= 60
      invariant clock >= start + RETRY_DELAY * attempts as real || clock >= deadline
      invariant clock <= start + Slept(fate, attempts) + 10.0 * attempts as real
      invariant forall n: nat :: n < attempts ==> fate.attempt(n) == Fails(true)
      decreases 61 - attempts
    {
      clock := clock + fate.takes(attempts);
      var a := fate.attempt(attempts);
      attempts := attempts + 1;
      if a.Succeeds? {
        return Done, attempts, clock;
      }
      if !a.retryable {
        return Propagated, attempts, clock;
      }
      var remaining := deadline - clock;
      if remaining <= 0.0 {
        return GaveUp, attempts, clock;
      }
      clock := clock + MinReal(RETRY_DELAY, remaining) + fate.oversleeps(attempts - 1);
    }
  }
}
