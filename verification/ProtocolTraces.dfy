/** Properties of whole executions of the diagnosis protocol. */
module ProtocolTraces {
  import opened Common
  import opened IncidentStore
  import opened Protocol
  import opened ProtocolInvariants

  ghost predicate IsTerminal(s: State, k: Key) {
    k in s.crs && Terminal(s.crs[k].status.phase)
  }

  /** A run of `k` stands between its insert and its final patch. */
  ghost predicate Uncommitted(s: State, k: Key) {
    k in s.runs && AfterInsert(s.runs[k].stage)
  }

  // ---------- ADR-003: the row comes first ----------

  lemma {:induction false} OnlyInsertUncommits(c: Config, s: State, l: Label, k: Key)
    requires Enabled(c, s, l)
    ensures Uncommitted(Step(c, s, l), k) && !Uncommitted(s, k) ==> l == Do(k, Insert(true))
  {
    if !Concerns(l, k) {
      StepFrame(c, s, l, k);
    } else if l.Do? {
      DoStep(c, s, k, l.e);
      ActCommits(c, s.now, s.starts, k, Lookup(s.crs, k), s.runs[k], l.e);
    }
  }

  /** The resource is concluded or its run is about to conclude it. */
  ghost predicate PastInsert(s: State, k: Key) {
    IsConcluded(s, k) || Uncommitted(s, k)
  }

  lemma {:induction false} OnlyInsertGetsPast(c: Config, s: State, l: Label, k: Key)
    requires Inv(s) && Enabled(c, s, l) && !PastInsert(s, k) && PastInsert(Step(c, s, l), k)
    ensures l == Do(k, Insert(true))
  {
    OnlyInsertUncommits(c, s, l, k);
    ConcludedOnlyByFinalPatch(c, s, l, k);
  }

  /** If a resource is past its insert at j and was not at i, then a row for its key was
      inserted in between. */
  lemma {:induction false} InsertPrecedesConclusion(
      c: Config, ss: seq<State>, ls: seq<Label>, i: nat, j: nat, k: Key)
    requires Execution(c, ss, ls) && i <= j < |ss|
    requires !PastInsert(ss[i], k) && PastInsert(ss[j], k)
    ensures exists m :: i <= m < j && ls[m] == Do(k, Insert(true))
  {
    var m := j - 1;
    if PastInsert(ss[m], k) {
      InsertPrecedesConclusion(c, ss, ls, i, m, k);
    } else {
      ReachableInv(c, ss, ls, m);
      assert Enabled(c, ss[m], ls[m]) && ss[m + 1] == Step(c, ss[m], ls[m]);
      OnlyInsertGetsPast(c, ss[m], ls[m], k);
    }
  }

  /** A failed insert leaves its resource unconcluded until a later insert succeeds. */
  lemma {:induction false} FailedInsertNeverConcludes(c: Config, ss: seq<State>, ls: seq<Label>, i: nat, j: nat, k: Key)
    requires Execution(c, ss, ls) && i < j < |ss| && ls[i] == Do(k, Insert(false))
    ensures !IsConcluded(ss[i + 1], k)
    ensures IsConcluded(ss[j], k) ==> exists m :: i < m < j && ls[m] == Do(k, Insert(true))
  {
    ReachableInv(c, ss, ls, i);
    assert KeyInv(ss[i], k);
    if IsConcluded(ss[j], k) {
      InsertPrecedesConclusion(c, ss, ls, i + 1, j, k);
    }
  }

  /** Every concluded resource shows the analysis of a row inserted earlier for its key. */
  lemma {:induction false} ConcludedShowsStoredAnalysis(c: Config, ss: seq<State>, ls: seq<Label>, j: nat, k: Key)
    requires Execution(c, ss, ls) && j < |ss| && IsConcluded(ss[j], k)
    ensures HasRow(ss[j].inserted, k, ss[j].crs[k].status.summary, ss[j].crs[k].status.rootCause)
    ensures exists m :: 0 <= m < j && ls[m] == Do(k, Insert(true))
  {
    ReachableInv(c, ss, ls, j);
    assert KeyInv(ss[j], k);
    InsertPrecedesConclusion(c, ss, ls, 0, j, k);
  }

  // ---------- row accounting ----------

  /** Successful inserts for `k` among labels i..j. */
  ghost function Inserts(ls: seq<Label>, k: Key, i: nat, j: nat): nat
    requires i <= j <= |ls|
  {
    if i == j then 0 else Inserts(ls, k, i, j - 1) + Bit(ls[j - 1] == Do(k, Insert(true)))
  }

  /** Successful final patches of `k`, which are its transitions to Done or Partial. */
  ghost function Conclusions(ls: seq<Label>, k: Key, i: nat, j: nat): nat
    requires i <= j <= |ls|
  {
    if i == j then 0 else Conclusions(ls, k, i, j - 1) + Bit(ls[j - 1] == Do(k, PatchFinal(true)))
  }

  /** The attempt that had inserted its row is lost: its final patch fails, or a crash. */
  ghost predicate CutsOff(s: State, l: Label, k: Key) {
    l == Do(k, PatchFinal(false)) || (l.Crash? && Uncommitted(s, k))
  }

  ghost function Cuts(ss: seq<State>, ls: seq<Label>, k: Key, i: nat, j: nat): nat
    requires i <= j <= |ls| <= |ss|
  {
    if i == j then 0 else Cuts(ss, ls, k, i, j - 1) + Bit(CutsOff(ss[j - 1], ls[j - 1], k))
  }

  ghost function RowsFor(rows: seq<Diagnosis>, k: Key): nat {
    if rows == [] then 0 else RowsFor(rows[..|rows| - 1], k) + Bit(rows[|rows| - 1].key == k)
  }

  lemma {:induction false} StepAccounts(c: Config, s: State, l: Label, k: Key)
    requires Enabled(c, s, l)
    ensures Bit(l == Do(k, Insert(true))) + Bit(Uncommitted(s, k)) ==
            Bit(l == Do(k, PatchFinal(true))) + Bit(CutsOff(s, l, k)) + Bit(Uncommitted(Step(c, s, l), k))
  {
    if !Concerns(l, k) {
      StepFrame(c, s, l, k);
    } else if l.Do? {
      DoStep(c, s, k, l.e);
      ActCommits(c, s.now, s.starts, k, Lookup(s.crs, k), s.runs[k], l.e);
    }
  }

  lemma {:induction false} StepCountsRows(c: Config, s: State, l: Label, k: Key)
    requires Enabled(c, s, l)
    ensures RowsFor(Step(c, s, l).inserted, k) == RowsFor(s.inserted, k) + Bit(l == Do(k, Insert(true)))
  {
    if l.Do? {
      DoStep(c, s, l.k, l.e);
      ActCommits(c, s.now, s.starts, l.k, Lookup(s.crs, l.k), s.runs[l.k], l.e);
      RowsForAppend(s.inserted, DeltaOf(c, s, l.k, l.e).insert, k);
    }
  }

  lemma {:induction false} RowsForAppend(rows: seq<Diagnosis>, more: Option<Diagnosis>, k: Key)
    ensures RowsFor(rows + Listed(more), k) == RowsFor(rows, k) + Bit(more.Some? && more.value.key == k)
  {
    if more.Some? {
      assert (rows + [more.value])[..|rows|] == rows;
    } else {
      assert rows + Listed(more) == rows;
    }
  }

  lemma {:induction false} AttemptAccounting(c: Config, ss: seq<State>, ls: seq<Label>, k: Key, i: nat, j: nat)
    requires Path(c, ss, ls) && i <= j < |ss|
    ensures Inserts(ls, k, i, j) + Bit(Uncommitted(ss[i], k)) ==
            Conclusions(ls, k, i, j) + Cuts(ss, ls, k, i, j) + Bit(Uncommitted(ss[j], k))
  {
    if i < j {
      AttemptAccounting(c, ss, ls, k, i, j - 1);
      StepAccounts(c, ss[j - 1], ls[j - 1], k);
    }
  }

  /** Rows inserted in a stretch of an execution, plus one if an attempt was uncommitted at
      its start, equal conclusions plus cut-off attempts, plus one if uncommitted at its end. */
  lemma {:induction false} RowAccounting(c: Config, ss: seq<State>, ls: seq<Label>, k: Key, i: nat, j: nat)
    requires Path(c, ss, ls) && i <= j < |ss|
    ensures Inserts(ls, k, i, j) + Bit(Uncommitted(ss[i], k)) ==
            Conclusions(ls, k, i, j) + Cuts(ss, ls, k, i, j) + Bit(Uncommitted(ss[j], k))
    ensures RowsFor(ss[j].inserted, k) == RowsFor(ss[i].inserted, k) + Inserts(ls, k, i, j)
  {
    AttemptAccounting(c, ss, ls, k, i, j);
    InsertsAreRows(c, ss, ls, k, i, j);
  }

  lemma {:induction false} LabelCountsRows(c: Config, ss: seq<State>, ls: seq<Label>, k: Key, m: nat)
    requires Path(c, ss, ls) && m < |ls|
    ensures RowsFor(ss[m + 1].inserted, k) == RowsFor(ss[m].inserted, k) + Bit(ls[m] == Do(k, Insert(true)))
  {
    StepCountsRows(c, ss[m], ls[m], k);
  }

  lemma {:induction false} InsertsAreRows(c: Config, ss: seq<State>, ls: seq<Label>, k: Key, i: nat, j: nat)
    requires Path(c, ss, ls) && i <= j < |ss|
    ensures RowsFor(ss[j].inserted, k) == RowsFor(ss[i].inserted, k) + Inserts(ls, k, i, j)
  {
    var rows := seq(|ss|, m requires 0 <= m < |ss| => RowsFor(ss[m].inserted, k));
    forall m | 0 <= m < |ls| ensures rows[m + 1] == rows[m] + Bit(ls[m] == Do(k, Insert(true))) {
      LabelCountsRows(c, ss, ls, k, m);
    }
    SumOfInserts(rows, ls, k, i, j);
  }

  lemma {:induction false} SumOfInserts(rows: seq<nat>, ls: seq<Label>, k: Key, i: nat, j: nat)
    requires |rows| == |ls| + 1 && i <= j < |rows|
    requires forall m :: 0 <= m < |ls| ==> rows[m + 1] == rows[m] + Bit(ls[m] == Do(k, Insert(true)))
    ensures rows[j] == rows[i] + Inserts(ls, k, i, j)
  {
    if i < j {
      SumOfInserts(rows, ls, k, i, j - 1);
      assert rows[j - 1 + 1] == rows[j - 1] + Bit(ls[j - 1] == Do(k, Insert(true)));
    }
  }

  /** The rows ever written for a key in an execution. */
  lemma {:induction false} RowsEverInserted(c: Config, ss: seq<State>, ls: seq<Label>, k: Key, j: nat)
    requires Execution(c, ss, ls) && j < |ss|
    ensures RowsFor(ss[j].inserted, k) ==
            Conclusions(ls, k, 0, j) + Cuts(ss, ls, k, 0, j) + Bit(Uncommitted(ss[j], k))
  {
    RowAccounting(c, ss, ls, k, 0, j);
  }

  /** While the resource lives, it concludes at most once. */
  lemma {:induction false} ConcludesOnce(c: Config, ss: seq<State>, ls: seq<Label>, k: Key, i: nat, j: nat)
    requires Execution(c, ss, ls) && i <= j < |ss|
    requires forall m :: i <= m <= j ==> k in ss[m].crs
    requires !IsConcluded(ss[i], k)
    ensures Conclusions(ls, k, i, j) == Bit(IsConcluded(ss[j], k))
  {
    if i < j {
      ConcludesOnce(c, ss, ls, k, i, j - 1);
      ReachableInv(c, ss, ls, j - 1);
      ConcludedOnlyByFinalPatch(c, ss[j - 1], ls[j - 1], k);
      assert k in ss[j - 1].crs;
      if IsConcluded(ss[j - 1], k) {
        TerminalAbsorbs(c, ss[j - 1], ls[j - 1], k);
      }
    }
  }

  /** In the life of a resource, from its creation on, without a cut-off attempt: exactly
      one row once it is concluded, none before its attempt inserts. */
  lemma {:induction false} OneRowPerLifetime(c: Config, ss: seq<State>, ls: seq<Label>, k: Key, i: nat, j: nat)
    requires Execution(c, ss, ls) && i < j < |ss|
    requires ls[i].Create? && ls[i].k == k && !Uncommitted(ss[i], k)
    requires forall m :: i < m <= j ==> k in ss[m].crs
    requires Cuts(ss, ls, k, i + 1, j) == 0
    ensures Inserts(ls, k, i + 1, j) == Bit(IsConcluded(ss[j], k)) + Bit(Uncommitted(ss[j], k))
    ensures Inserts(ls, k, i + 1, j) <= 1
  {
    assert ss[i + 1] == Step(c, ss[i], ls[i]);
    RowAccounting(c, ss, ls, k, i + 1, j);
    ConcludesOnce(c, ss, ls, k, i + 1, j);
    ReachableInv(c, ss, ls, j);
    assert KeyInv(ss[j], k);
  }
}
