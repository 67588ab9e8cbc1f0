/**
  The migration runner (`MigrationManager`): an ordered registry of named
  migrations, a run that executes the pending ones in order and records each
  success, and a listing of which are executed and which pending.

  The `migrations` collection is the sequence of recorded names, oldest first.
  A migration's `run` function is an oracle: `succeeds(m)` says whether its
  body completes or throws. Connecting and disconnecting are left out.
*/
module Migrations {
  import opened Wrappers

  /** A registered migration; `body` stands for its `run` function. */
  datatype Migration = Migration(name: string, body: nat)

  datatype MigrationStatus = Executed | Pending

  /** The error a run rethrows: the first migration whose body failed. */
  datatype MigrationError = MigrationFailed(name: string)

  /** What a run does to the collection: the names it records, in order, and the migration that failed, if one did. */
  datatype RunOutcome = RunOutcome(recorded: seq<string>, failed: Option<string>)

  /** The set of executed names, computed once before the loop. */
  function NamesOf(records: seq<string>): (r: set<string>)
    ensures forall n :: n in r <==> n in records
  {
    set n | n in records
  }

  /** The run, migration by migration in registration order. */
  function RunSpec(migs: seq<Migration>, executed: set<string>, succeeds: Migration -> bool): RunOutcome
    decreases |migs|
  {
    if migs == [] then RunOutcome([], None)
    else if migs[0].name in executed then RunSpec(migs[1..], executed, succeeds)
    else if !succeeds(migs[0]) then RunOutcome([], Some(migs[0].name))
    else
      var rest := RunSpec(migs[1..], executed, succeeds);
      RunOutcome([migs[0].name] + rest.recorded, rest.failed)
  }

  /** The names of the registered migrations not yet executed, in registration order. */
  function PendingNames(migs: seq<Migration>, executed: set<string>): (r: seq<string>)
    ensures forall n :: n in r ==> n !in executed
    ensures forall k :: 0 <= k < |migs| && migs[k].name !in executed ==> migs[k].name in r
    decreases |migs|
  {
    if migs == [] then []
    else (if migs[0].name in executed then [] else [migs[0].name]) + PendingNames(migs[1..], executed)
  }

  /**
    A successful run executes exactly the pending migrations, in registration
    order; a failed one stops at the first pending migration whose body fails,
    after recording exactly the pending ones before it, all of which succeeded.
    Names already executed are never recorded again.
  */
  lemma {:induction false} RunSpecPending(migs: seq<Migration>, executed: set<string>, succeeds: Migration -> bool)
    ensures var r := RunSpec(migs, executed, succeeds);
      && (forall n :: n in r.recorded ==> n !in executed)
      && (r.failed.None? ==>
            && r.recorded == PendingNames(migs, executed)
            && forall k :: 0 <= k < |migs| && migs[k].name !in executed ==> succeeds(migs[k]))
      && (r.failed.Some? ==>
            exists k :: 0 <= k < |migs| && FirstFailure(migs, executed, succeeds, k)
                     && migs[k].name == r.failed.value
                     && r.recorded == PendingNames(migs[..k], executed))
    decreases |migs|
  {
    if migs != [] {
      RunSpecPending(migs[1..], executed, succeeds);
      var r := RunSpec(migs, executed, succeeds);
      var rest := RunSpec(migs[1..], executed, succeeds);
      if migs[0].name !in executed && !succeeds(migs[0]) {
        assert FirstFailure(migs, executed, succeeds, 0);
        assert migs[..0] == [];
      } else {
        if rest.failed.None? {
          forall k | 0 <= k < |migs| && migs[k].name !in executed ensures succeeds(migs[k]) {
            if k > 0 {
              assert migs[1..][k - 1] == migs[k];
            }
          }
        } else {
          var j :| 0 <= j < |migs[1..]| && FirstFailure(migs[1..], executed, succeeds, j)
                   && migs[1..][j].name == rest.failed.value
                   && rest.recorded == PendingNames(migs[1..][..j], executed);
          assert FirstFailure(migs, executed, succeeds, j + 1) by {
            forall i | 0 <= i < j + 1 && migs[i].name !in executed ensures succeeds(migs[i]) {
              if i > 0 {
                assert migs[1..][i - 1] == migs[i];
              }
            }
          }
          assert migs[..j + 1][1..] == migs[1..][..j];
          assert migs[..j + 1][0] == migs[0];
        }
      }
    }
  }

  /** Entry `k` is pending and fails, and every pending entry before it succeeds. */
  ghost predicate FirstFailure(migs: seq<Migration>, executed: set<string>, succeeds: Migration -> bool, k: nat)
    requires k < |migs|
  {
    && migs[k].name !in executed && !succeeds(migs[k])
    && forall i :: 0 <= i < k && migs[i].name !in executed ==> succeeds(migs[i])
  }

  /** After a successful run, running again executes nothing: each migration runs at most once. */
  lemma {:induction false} RerunDoesNothing(migs: seq<Migration>, executed: set<string>, succeeds: Migration -> bool)
    requires RunSpec(migs, executed, succeeds).failed.None?
    ensures RunSpec(migs, executed + NamesOf(RunSpec(migs, executed, succeeds).recorded), succeeds)
            == RunOutcome([], None)
    decreases |migs|
  {
    if migs != [] {
      var r := RunSpec(migs, executed, succeeds);
      var rest := RunSpec(migs[1..], executed, succeeds);
      RerunDoesNothing(migs[1..], executed, succeeds);
      var e2 := executed + NamesOf(r.recorded);
      assert NamesOf(rest.recorded) <= NamesOf(r.recorded);
      assert migs[0].name in e2;
      RerunSubset(migs[1..], executed + NamesOf(rest.recorded), e2, succeeds);
    }
  }

  /** A run that executes nothing still executes nothing once more names count as executed. */
  lemma {:induction false} RerunSubset(migs: seq<Migration>, e1: set<string>, e2: set<string>, succeeds: Migration -> bool)
    requires e1 <= e2 && RunSpec(migs, e1, succeeds) == RunOutcome([], None)
    ensures RunSpec(migs, e2, succeeds) == RunOutcome([], None)
    decreases |migs|
  {
    if migs != [] {
      RerunSubset(migs[1..], e1, e2, succeeds);
    }
  }

  /** The registry and the runner. */
  class MigrationManager {
    var migrations: seq<Migration>
    const migrationCollection: string

    constructor ()
      ensures migrations == [] && migrationCollection == "migrations"
    {
      migrations := [];
      migrationCollection := "migrations";
    }

    /** `registerMigration`: appends to the registry. */
    method RegisterMigration(name: string, body: nat)
      modifies this`migrations
      ensures migrations == old(migrations) + [Migration(name, body)]
    {
      migrations := migrations + [Migration(name, body)];
    }

    /** The module's `migrationFiles.forEach(registerMigration)`: the registry keeps the files' order. */
    method RegisterAll(files: seq<Migration>)
      modifies this`migrations
      ensures migrations == old(migrations) + files
    {
      for i := 0 to |files|
        invariant migrations == old(migrations) + files[..i]
      {
        RegisterMigration(files[i].name, files[i].body);
        assert files[..i + 1] == files[..i] + [files[i]];
      }
    }

    /**
      `runMigrations`: with the executed names read once, runs each registered
      migration not among them in order, recording each success and counting
      it; the first failure is rethrown, keeping the records made before it.
    */
    method RunMigrations(records: seq<string>, succeeds: Migration -> bool)
      returns (records': seq<string>, r: Result<nat, MigrationError>)
      ensures var spec := RunSpec(migrations, NamesOf(records), succeeds);
        && records' == records + spec.recorded
        && (spec.failed.None? ==> r == Success(|spec.recorded|))
        && (spec.failed.Some? ==> r == Failure(MigrationFailed(spec.failed.value)))
      ensures r.Success? ==> r.value == |records'| - |records|
    {
      var executedNames := NamesOf(records);
      var executedCount := 0;
      records' := records;
      ghost var spec := RunSpec(migrations, executedNames, succeeds);
      for i := 0 to |migrations|
        invariant |records'| == |records| + executedCount
        invariant records'[..|records|] == records
        invariant var rest := RunSpec(migrations[i..], executedNames, succeeds);
          spec == RunOutcome(records'[|records|..] + rest.recorded, rest.failed)
      {
        var migration := migrations[i];
        assert migrations[i..][0] == migration && migrations[i..][1..] == migrations[i + 1..];
        if migration.name !in executedNames {
          if !succeeds(migration) {
            return records', Failure(MigrationFailed(migration.name));
          }
          records' := records' + [migration.name];
          executedCount := executedCount + 1;
        }
      }
      assert migrations[|migrations|..] == [];
      r := Success(executedCount);
    }

    /** `listMigrations`: each registered migration in order, executed exactly when a record of its name exists. */
    method ListMigrations(records: seq<string>) returns (statuses: seq<(string, MigrationStatus)>)
      ensures |statuses| == |migrations|
      ensures forall i :: 0 <= i < |migrations| ==>
        statuses[i].0 == migrations[i].name &&
        (statuses[i].1 == Executed <==> migrations[i].name in records)
    {
      statuses := [];
      for i := 0 to |migrations|
        invariant |statuses| == i
        invariant forall k :: 0 <= k < i ==>
          statuses[k].0 == migrations[k].name &&
          (statuses[k].1 == Executed <==> migrations[k].name in records)
      {
        var status := if migrations[i].name in records then Executed else Pending;
        statuses := statuses + [(migrations[i].name, status)];
      }
    }
  }
}
