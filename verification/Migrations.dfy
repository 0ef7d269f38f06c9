/** The schema migration runner: ordered, one transaction per file, resumable.

    Files come sorted by name.  A script either succeeds on a schema or fails on it; on
    top of that, any file may fail for outside reasons (`faults`), which rolls its
    transaction back and ends the start. */
module Migrations {
  import opened Common

  /** A directory entry: skipped, without a numeric prefix, or a migration script. */
  datatype Entry<S> = Skipped | Unnumbered | Script(version: int, sql: S)

  /** `versions` is the schema_migrations table, in the order of commits. */
  datatype Database<D> = Database(schema: D, versions: seq<int>)

  datatype Result<D> = Result(db: Database<D>, ok: bool)

  /** One start from entry i on. */
  function StartFrom<S, D>(db: Database<D>, es: seq<Entry<S>>, exec: (S, D) -> Option<D>, faults: nat -> bool,
                           i: nat): Result<D>
    requires i <= |es|
    decreases |es| - i
  {
    if i == |es| then Result(db, true)
    else
      match es[i]
      case Skipped => StartFrom(db, es, exec, faults, i + 1)
      case Unnumbered => Result(db, false)
      case Script(v, sql) =>
        if faults(i) then Result(db, false)
        else if v in db.versions then StartFrom(db, es, exec, faults, i + 1)
        else if exec(sql, db.schema).None? then Result(db, false)
        else StartFrom(Database(exec(sql, db.schema).value, db.versions + [v]), es, exec, faults, i + 1)
  }

  function Start<S, D>(db: Database<D>, es: seq<Entry<S>>, exec: (S, D) -> Option<D>, faults: nat -> bool): Result<D> {
    StartFrom(db, es, exec, faults, 0)
  }

  const NO_FAULTS: nat -> bool := _ => false

  // ---------- resuming ----------

  lemma {:induction false} VersionsGrow<S, D>(
      db: Database<D>, es: seq<Entry<S>>, exec: (S, D) -> Option<D>, faults: nat -> bool, i: nat)
    requires i <= |es|
    ensures db.versions <= StartFrom(db, es, exec, faults, i).db.versions
    decreases |es| - i
  {
    if i < |es| && !es[i].Unnumbered? {
      VersionsGrow(db, es, exec, faults, i + 1);
      if es[i].Script? && exec(es[i].sql, db.schema).Some? {
        var next := Database(exec(es[i].sql, db.schema).value, db.versions + [es[i].version]);
        VersionsGrow(next, es, exec, faults, i + 1);
      }
    }
  }

  /** A clean start after a start that failed anywhere ends where a clean start would
      have ended in the first place. */
  lemma {:induction false} ResumeFrom<S, D>(
      db: Database<D>, es: seq<Entry<S>>, exec: (S, D) -> Option<D>, faults: nat -> bool, i: nat)
    requires i <= |es|
    ensures StartFrom(StartFrom(db, es, exec, faults, i).db, es, exec, NO_FAULTS, i) ==
            StartFrom(db, es, exec, NO_FAULTS, i)
    decreases |es| - i
  {
    if i < |es| {
      match es[i]
      case Skipped => ResumeFrom(db, es, exec, faults, i + 1);
      case Unnumbered =>
      case Script(v, sql) =>
        if faults(i) {
        } else if v in db.versions {
          ResumeFrom(db, es, exec, faults, i + 1);
          VersionsGrow(db, es, exec, faults, i + 1);
          assert v in StartFrom(db, es, exec, faults, i + 1).db.versions;
        } else if exec(sql, db.schema).Some? {
          var next := Database(exec(sql, db.schema).value, db.versions + [v]);
          ResumeFrom(next, es, exec, faults, i + 1);
          VersionsGrow(next, es, exec, faults, i + 1);
          assert v in next.versions;
          assert v in StartFrom(next, es, exec, faults, i + 1).db.versions;
        }
    }
  }

  /** The database after a series of starts, each with its own faults. */
  function Starts<S, D>(db: Database<D>, es: seq<Entry<S>>, exec: (S, D) -> Option<D>,
                        runs: seq<nat -> bool>): Database<D>
    decreases |runs|
  {
    if runs == [] then db else Starts(Start(db, es, exec, runs[0]).db, es, exec, runs[1..])
  }

  /** Any number of starts that fail at arbitrary files, then a clean one, leave the schema
      and the versions of one clean start. */
  lemma {:induction false} StartsResume<S, D>(
      db: Database<D>, es: seq<Entry<S>>, exec: (S, D) -> Option<D>, runs: seq<nat -> bool>)
    ensures Start(Starts(db, es, exec, runs), es, exec, NO_FAULTS) == Start(db, es, exec, NO_FAULTS)
    decreases |runs|
  {
    if runs != [] {
      StartsResume(Start(db, es, exec, runs[0]).db, es, exec, runs[1..]);
      ResumeFrom(db, es, exec, runs[0], 0);
    }
  }

  // ---------- each version once ----------

  predicate Distinct(vs: seq<int>) {
    forall i, j :: 0 <= i < j < |vs| ==> vs[i] != vs[j]
  }

  lemma {:induction false} CommittedOnceFrom<S, D>(
      db: Database<D>, es: seq<Entry<S>>, exec: (S, D) -> Option<D>, faults: nat -> bool, i: nat)
    requires i <= |es| && Distinct(db.versions)
    ensures Distinct(StartFrom(db, es, exec, faults, i).db.versions)
    decreases |es| - i
  {
    if i < |es| && !es[i].Unnumbered? {
      CommittedOnceFrom(db, es, exec, faults, i + 1);
      if es[i].Script? && es[i].version !in db.versions && exec(es[i].sql, db.schema).Some? {
        var next := Database(exec(es[i].sql, db.schema).value, db.versions + [es[i].version]);
        assert Distinct(next.versions);
        CommittedOnceFrom(next, es, exec, faults, i + 1);
      }
    }
  }

  /** However often the process starts, no version is committed twice. */
  lemma {:induction false} CommittedOnce<S, D>(
      db: Database<D>, es: seq<Entry<S>>, exec: (S, D) -> Option<D>, runs: seq<nat -> bool>)
    requires Distinct(db.versions)
    ensures Distinct(Starts(db, es, exec, runs).versions)
    decreases |runs|
  {
    if runs != [] {
      CommittedOnceFrom(db, es, exec, runs[0], 0);
      CommittedOnce(Start(db, es, exec, runs[0]).db, es, exec, runs[1..]);
    }
  }

  // ---------- a start applies an initial segment ----------

  /** The versions among the first n entries that are not in the table yet, each once. */
  function PendingUpTo<S>(es: seq<Entry<S>>, done: seq<int>, n: nat): seq<int>
    requires n <= |es|
  {
    if n == 0 then []
    else
      var before := PendingUpTo(es, done, n - 1);
      match es[n - 1]
      case Script(v, _) => if v in done || v in before then before else before + [v]
      case _ => before
  }

  /** Entry i is a script whose version is neither in the table nor among the entries before it. */
  predicate IsPending<S>(es: seq<Entry<S>>, done: seq<int>, i: nat)
    requires i < |es|
  {
    es[i].Script? && es[i].version !in done && es[i].version !in PendingUpTo(es, done, i)
  }

  /** The schema after running the pending scripts among the first n entries, in order. */
  function SchemaUpTo<S, D>(es: seq<Entry<S>>, exec: (S, D) -> Option<D>, db: Database<D>, n: nat): D
    requires n <= |es|
  {
    if n == 0 then db.schema
    else
      var before := SchemaUpTo(es, exec, db, n - 1);
      if IsPending(es, db.versions, n - 1) && exec(es[n - 1].sql, before).Some?
      then exec(es[n - 1].sql, before).value
      else before
  }

  /** Entry i lets the start go on: it is no script, or nothing goes wrong with it and, if it
      is pending, its script succeeds on the schema so far. */
  predicate Passes<S, D>(es: seq<Entry<S>>, exec: (S, D) -> Option<D>, faults: nat -> bool, db: Database<D>, i: nat)
    requires i < |es|
  {
    match es[i]
    case Skipped => true
    case Unnumbered => false
    case Script(_, sql) =>
      !faults(i) && (IsPending(es, db.versions, i) ==> exec(sql, SchemaUpTo(es, exec, db, i)).Some?)
  }

  /** The first entry that does not let the start go on, or the end. */
  ghost predicate IsStop<S, D>(
      es: seq<Entry<S>>, exec: (S, D) -> Option<D>, faults: nat -> bool, db: Database<D>, n: nat)
  {
    n <= |es| && (forall i :: 0 <= i < n ==> Passes(es, exec, faults, db, i)) &&
    (n < |es| ==> !Passes(es, exec, faults, db, n))
  }

  /** The pending scripts before n have been run and recorded, nothing else. */
  function AppliedUpTo<S, D>(es: seq<Entry<S>>, exec: (S, D) -> Option<D>, db: Database<D>, n: nat): Database<D>
    requires n <= |es|
  {
    Database(SchemaUpTo(es, exec, db, n), db.versions + PendingUpTo(es, db.versions, n))
  }

  /** One entry that passes moves the database along. */
  lemma {:induction false} PassingEntry<S, D>(
      es: seq<Entry<S>>, exec: (S, D) -> Option<D>, faults: nat -> bool, db: Database<D>, i: nat)
    requires i < |es| && Passes(es, exec, faults, db, i)
    ensures StartFrom(AppliedUpTo(es, exec, db, i), es, exec, faults, i) ==
            StartFrom(AppliedUpTo(es, exec, db, i + 1), es, exec, faults, i + 1)
  {
    var d, d' := AppliedUpTo(es, exec, db, i), AppliedUpTo(es, exec, db, i + 1);
    if IsPending(es, db.versions, i) {
      var v := es[i].version;
      assert v !in d.versions;
      assert db.versions + (PendingUpTo(es, db.versions, i) + [v]) == d.versions + [v];
    } else {
      assert es[i].Script? ==> es[i].version in d.versions;
      assert d' == d;
    }
  }

  /** A start applies exactly the pending scripts before the first entry that stops it, in
      order, and succeeds exactly when none does. */
  lemma {:induction false} StartAppliesPending<S, D>(
      db: Database<D>, es: seq<Entry<S>>, exec: (S, D) -> Option<D>, faults: nat -> bool, n: nat)
    requires IsStop(es, exec, faults, db, n)
    ensures Start(db, es, exec, faults) == Result(AppliedUpTo(es, exec, db, n), n == |es|)
  {
    RestApplies(db, es, exec, faults, n, 0);
    assert db.versions + [] == db.versions;
    assert AppliedUpTo(es, exec, db, 0) == db;
  }

  lemma {:induction false} RestApplies<S, D>(
      db: Database<D>, es: seq<Entry<S>>, exec: (S, D) -> Option<D>, faults: nat -> bool, n: nat, i: nat)
    requires IsStop(es, exec, faults, db, n) && i <= n
    ensures StartFrom(AppliedUpTo(es, exec, db, i), es, exec, faults, i) ==
            Result(AppliedUpTo(es, exec, db, n), n == |es|)
    decreases n - i
  {
    if i < n {
      PassingEntry(es, exec, faults, db, i);
      RestApplies(db, es, exec, faults, n, i + 1);
    } else if n < |es| && es[n].Script? {
      assert es[n].version in AppliedUpTo(es, exec, db, n).versions <==> !IsPending(es, db.versions, n);
    }
  }

  class Runner<S, D> {
    var db: Database<D>

    constructor (db: Database<D>)
      ensures this.db == db
    {
      this.db := db;
    }

    /** The runner itself.  `stopped` is the entry it failed at, or the end. */
    method Run(es: seq<Entry<S>>, exec: (S, D) -> Option<D>, faults: nat -> bool) returns (ok: bool, stopped: nat)
      modifies this
      ensures IsStop(es, exec, faults, old(db), stopped) && (ok <==> stopped == |es|)
      ensures db == AppliedUpTo(es, exec, old(db), stopped)
      ensures Result(db, ok) == Start(old(db), es, exec, faults)
    {
      ghost var start := db;
      var i := 0;
      assert start.versions + [] == start.versions;
      while i < |es|
        invariant i <= |es| && db == AppliedUpTo(es, exec, start, i)
        invariant forall j :: 0 <= j < i ==> Passes(es, exec, faults, start, j)
      {
        var failed := RunEntry(es, exec, faults, i, start);
        if failed {
          StartAppliesPending(start, es, exec, faults, i);
          return false, i;
        }
        i := i + 1;
      }
      StartAppliesPending(start, es, exec, faults, i);
      return true, i;
    }

    /** One entry: skip it, fail, or run its script and record its version. */
    method RunEntry(es: seq<Entry<S>>, exec: (S, D) -> Option<D>, faults: nat -> bool, i: nat, ghost start: Database<D>)
      returns (failed: bool)
      requires i < |es| && db == AppliedUpTo(es, exec, start, i)
      modifies this
      ensures failed <==> !Passes(es, exec, faults, start, i)
      ensures db == AppliedUpTo(es, exec, start, if failed then i else i + 1)
    {
      match es[i] {
        case Skipped => return false;
        case Unnumbered => return true;
        case Script(v, sql) =>
          if faults(i) {
            return true;
          }
          if v in db.versions {
            return false;
          }
          var schema := exec(sql, db.schema);
          if schema.None? {
            return true;
          }
          assert start.versions + (PendingUpTo(es, start.versions, i) + [v]) == db.versions + [v];
          db := Database(schema.value, db.versions + [v]);
          return false;
      }
    }
  }
}
