/** Retention sweeps interleaved with reconciles: references between tables, and the
    mirrored rows of finished resources. */
module ProtocolRetention {
  import opened Common
  import opened Timestamps
  import opened IncidentStore
  import opened Protocol
  import opened ProtocolInvariants
  import opened ProtocolTraces
  import opened ProtocolSchedules

  // ---------- referential integrity ----------

  /** The stages between a run's first upsert and its insert. */
  predicate AwaitingInsert(stage: Stage) {
    stage == Patching || stage == Refetching || stage == Running || stage == Inserting
  }

  /** The run is still within the retention period, less the second that text order needs. */
  predicate InTime(c: Config, now: Instant, r: Run) {
    c.retention == 0 || now - r.upsertedAt <= c.retention - SECOND
  }

  /** The row a run upserted is still there, untouched, while the run is in time. */
  ghost predicate RowHeld(c: Config, s: State, k: Key) {
    k in s.runs && AwaitingInsert(s.runs[k].stage) && InTime(c, s.now, s.runs[k]) ==>
      k in s.db.incidents && s.db.incidents[k].updatedAt == s.runs[k].upsertedAt
  }

  ghost predicate RefInv(c: Config, s: State) {
    Referential(s.db) &&
    (forall k :: RowHeld(c, s, k)) &&
    (s.sweep.SweepingRows? ==> 0 < c.retention <= s.now - s.sweep.cutoff)
  }

  /** Every insert happens in time. */
  ghost predicate Timely(c: Config, s: State, l: Label) {
    l.Do? && l.e == Insert(true) && l.k in s.runs ==> InTime(c, s.now, s.runs[l.k])
  }

  lemma {:induction false} OlderNeedsSecond(r: Row, cutoff: Instant)
    requires cutoff + SECOND <= r.updatedAt
    ensures !Older(r, cutoff)
  {
    assert Seconds(cutoff) < Seconds(r.updatedAt);
    OrderAcrossSeconds(cutoff, r.updatedAt);
  }

  lemma {:induction false} SweepHoldsRow(c: Config, s: State, k: Key)
    requires RefInv(c, s) && s.sweep.SweepingRows?
    ensures RowHeld(c, Step(c, s, SweepRows(true)), k)
  {
    assert RowHeld(c, s, k);
    if k in s.runs && AwaitingInsert(s.runs[k].stage) && InTime(c, s.now, s.runs[k]) {
      OlderNeedsSecond(s.db.incidents[k], s.sweep.cutoff);
    }
  }

  /** What an effect does to the window of its own run. */
  lemma {:induction false} ActAwaits(c: Config, now: Instant, starts: seq<int>, k: Key, cr: Option<Resource>, r: Run,
                                     e: Effect)
    requires CanAct(r, cr, e)
    ensures var d := Act(c, now, starts, k, cr, r, e);
            (d.upsert.Some? ==> d.upsert.value.key == k) &&
            (d.run.Some? && AwaitingInsert(d.run.value.stage) ==>
              (e == StartUpsert(true) && d.run.value.upsertedAt == now &&
               d.upsert.Some? && d.upsert.value.updatedAt.None?) ||
              (AwaitingInsert(r.stage) && d.run.value.upsertedAt == r.upsertedAt && d.upsert.None?)) &&
            (d.insert.Some? ==> e == Insert(true) && d.insert.value.key == k)
  {}

  lemma {:induction false} DoHoldsRow(c: Config, s: State, k: Key, e: Effect, k': Key)
    requires RowHeld(c, s, k') && Enabled(c, s, Do(k, e))
    ensures RowHeld(c, Step(c, s, Do(k, e)), k')
  {
    ActAwaits(c, s.now, s.starts, k, Lookup(s.crs, k), s.runs[k], e);
  }

  lemma {:induction false} StepHoldsRow(c: Config, s: State, l: Label, k: Key)
    requires RefInv(c, s) && Enabled(c, s, l)
    ensures RowHeld(c, Step(c, s, l), k)
  {
    assert RowHeld(c, s, k);
    match l
    case Do(k', e) => DoHoldsRow(c, s, k', e, k);
    case SweepRows(ok) => if ok { SweepHoldsRow(c, s, k); }
    case _ =>
  }

  lemma {:induction false} DoKeepsReferences(c: Config, s: State, k: Key, e: Effect)
    requires RefInv(c, s) && Enabled(c, s, Do(k, e)) && Timely(c, s, Do(k, e))
    ensures Referential(Step(c, s, Do(k, e)).db)
  {
    assert RowHeld(c, s, k);
    ActAwaits(c, s.now, s.starts, k, Lookup(s.crs, k), s.runs[k], e);
  }

  lemma {:induction false} StepKeepsReferences(c: Config, s: State, l: Label)
    requires RefInv(c, s) && Enabled(c, s, l) && Timely(c, s, l)
    ensures RefInv(c, Step(c, s, l))
  {
    forall k ensures RowHeld(c, Step(c, s, l), k) {
      StepHoldsRow(c, s, l, k);
    }
    match l
    case Do(k, e) => DoKeepsReferences(c, s, k, e);
    case SweepRows(ok) => if ok { PruneKeepsReferences(s.db, s.sweep.cutoff); }
    case _ =>
  }

  /** If every run goes from its first upsert to its insert in at most the retention period
      minus one second, then in every interleaving with the pruner each diagnosis row has
      its incident row. */
  lemma {:induction false} ReferencesHold(c: Config, ss: seq<State>, ls: seq<Label>, i: nat)
    requires Execution(c, ss, ls) && i < |ss|
    requires forall m :: 0 <= m < i ==> Timely(c, ss[m], ls[m])
    ensures RefInv(c, ss[i])
  {
    if i > 0 {
      ReferencesHold(c, ss, ls, i - 1);
      StepKeepsReferences(c, ss[i - 1], ls[i - 1]);
    }
  }

  // ---------- the exact threshold ----------

  /** Whenever a sweep is under way and its order puts the row of a run before the cutoff,
      the sweep can take the row and the run then insert an orphan. */
  lemma {:induction false} LateRunCanOrphan(c: Config, ss: seq<State>, ls: seq<Label>, k: Key)
    returns (ss': seq<State>, ls': seq<Label>)
    requires Path(c, ss, ls) && NoInserts(ls) && k in ss[|ls|].runs && ss[|ls|].runs[k].stage == Running
    requires ss[|ls|].sweep.SweepingRows? && k in OldKeys(ss[|ls|].db.incidents, ss[|ls|].sweep.cutoff)
    ensures Path(c, ss', ls') && ss'[0] == ss[0] && !Referential(ss'[|ls'|].db)
    ensures GapsWithin(ss', ls', ss[|ls|].now - ss[|ls|].runs[k].upsertedAt)
  {
    SweepDropsRow(c, ss[|ls|], k);
    ss', ls' := Then(c, ss, ls, SweepRows(true));
    ss', ls' := AgentAnswers(c, ss', ls', k);
    ss', ls' := InsertOrphans(c, ss', ls', k);
  }

  lemma {:induction false} SweepDropsRow(c: Config, s: State, k: Key)
    requires s.sweep.SweepingRows? && k in OldKeys(s.db.incidents, s.sweep.cutoff)
    ensures var s' := Step(c, s, SweepRows(true));
            s'.runs == s.runs && s'.now == s.now && k !in s'.db.incidents
  {
    SweptRows(c, s);
    OldKeyGoes(s.db, s.sweep.cutoff, k);
  }

  lemma {:induction false} SweptRows(c: Config, s: State)
    requires s.sweep.SweepingRows?
    ensures Step(c, s, SweepRows(true)) ==
            s.(db := Pruned(s.db, s.sweep.cutoff), sweep := Listing(s.sweep.cutoff))
  {}

  lemma {:induction false} OldKeyGoes(t: Tables, cutoff: Instant, k: Key)
    requires k in OldKeys(t.incidents, cutoff)
    ensures k !in Pruned(t, cutoff).incidents
  {}

  lemma {:induction false} AgentAnswers(c: Config, ss: seq<State>, ls: seq<Label>, k: Key)
    returns (ss': seq<State>, ls': seq<Label>)
    requires Path(c, ss, ls) && NoInserts(ls) && k in ss[|ls|].runs && ss[|ls|].runs[k].stage == Running
    ensures Path(c, ss', ls') && NoInserts(ls') && ss'[0] == ss[0]
    ensures ss'[|ls'|].db.incidents == ss[|ls|].db.incidents && ss'[|ls'|].now == ss[|ls|].now
    ensures k in ss'[|ls'|].runs && ss'[|ls'|].runs[k].stage == Inserting
    ensures ss'[|ls'|].runs[k].upsertedAt == ss[|ls|].runs[k].upsertedAt
  {
    ss', ls' := Then(c, ss, ls, Do(k, RunAgent(TALKATIVE)));
  }

  lemma {:induction false} InsertOrphans(c: Config, ss: seq<State>, ls: seq<Label>, k: Key)
    returns (ss': seq<State>, ls': seq<Label>)
    requires Path(c, ss, ls) && NoInserts(ls) && k in ss[|ls|].runs && ss[|ls|].runs[k].stage == Inserting
    requires k !in ss[|ls|].db.incidents
    ensures Path(c, ss', ls') && ss'[0] == ss[0] && !Referential(ss'[|ls'|].db)
    ensures GapsWithin(ss', ls', ss[|ls|].now - ss[|ls|].runs[k].upsertedAt)
  {
    var s, l := ss[|ls|], Do(k, Insert(true));
    InsertedOrphan(c, s, k);
    OneMoreStep(c, ss, ls, l);
    ss', ls' := ss + [Step(c, s, l)], ls + [l];
  }

  lemma {:induction false} InsertedOrphan(c: Config, s: State, k: Key)
    requires k in s.runs && s.runs[k].stage == Inserting && k !in s.db.incidents
    ensures Enabled(c, s, Do(k, Insert(true))) && !Referential(Step(c, s, Do(k, Insert(true))).db)
  {
    var row := DiagnosisRow(k, s.runs[k], s.now);
    assert row in Step(c, s, Do(k, Insert(true))).db.diagnoses && row.key == k;
  }

  /** Every insert of the path comes at most `gap` after the first upsert of its run. */
  ghost predicate GapsWithin(ss: seq<State>, ls: seq<Label>, gap: int)
    requires |ls| <= |ss|
  {
    forall m :: 0 <= m < |ls| && InsertsRow(ls[m]) && ls[m].k in ss[m].runs ==>
      ss[m].now - ss[m].runs[ls[m].k].upsertedAt <= gap
  }

  /** The shortest gap that text order lets a sweep fall into. */
  function FirstUnsafeGap(retention: nat): nat {
    if retention < SECOND then 0 else retention - SECOND + 1
  }

  /** Any row of the very first second but its first instant sorts before that instant. */
  lemma {:induction false} FirstNanosecondIsOld(incidents: map<Key, Row>, k: Key, at: Instant)
    requires k in incidents && incidents[k].updatedAt == at && 0 < at < SECOND
    ensures k in OldKeys(incidents, 0)
  {
    assert Seconds(0) == Seconds(at) && 0 % SECOND == 0 < at % SECOND;
    ByteOrderCanInvert(0, at);
  }

  /** A nanosecond more than the retention period minus a second is too long: a row written
      in the last nanosecond of a second sorts before the whole second it lies in. */
  lemma {:induction false} OrphanIsReachable(c: Config, k: Key, spec: Spec) returns (ss: seq<State>, ls: seq<Label>)
    requires 0 < c.retention < END_OF_TIME
    ensures Execution(c, ss, ls) && GapsWithin(ss, ls, FirstUnsafeGap(c.retention)) && !Referential(ss[|ls|].db)
  {
    ss, ls := SweepMeetsRun(c, k, spec);
    FirstNanosecondIsOld(ss[|ls|].db.incidents, k, c.retention - FirstUnsafeGap(c.retention));
    ss, ls := LateRunCanOrphan(c, ss, ls, k);
  }

  /** A sweep with the first instant as its cutoff finds a run whose row is younger by less
      than a second. */
  lemma {:induction false} SweepMeetsRun(c: Config, k: Key, spec: Spec) returns (ss: seq<State>, ls: seq<Label>)
    requires 0 < c.retention < END_OF_TIME
    ensures Execution(c, ss, ls) && NoInserts(ls)
    ensures var s, gap := ss[|ls|], FirstUnsafeGap(c.retention);
            s.sweep == SweepingRows(0) && k in s.runs && s.runs[k].stage == Running &&
            s.now - s.runs[k].upsertedAt == gap &&
            k in s.db.incidents && s.db.incidents[k].updatedAt == c.retention - gap
  {
    var gap := FirstUnsafeGap(c.retention);
    var start: Instant := c.retention - gap;
    ss, ls := StartsRunning(c, State(start, map[], Tables(map[], [], []), [], map[], [], Idle), k, spec);
    ss, ls := Then(c, ss, ls, Tick(gap));
    ss, ls := Then(c, ss, ls, SweepBegin);
  }

  /** Executions whose runs take at most `gap` from upsert to insert keep every reference. */
  ghost predicate SafeGap(c: Config, gap: nat) {
    forall ss: seq<State>, ls: seq<Label> ::
      Execution(c, ss, ls) && GapsWithin(ss, ls, gap) ==> Referential(ss[|ls|].db)
  }

  /** The exact threshold: references hold in all executions with gaps of at most `gap` if
      and only if nothing is swept or `gap` is at most the retention period minus a second. */
  lemma {:induction false} ReferencesHoldExactly(c: Config, gap: nat)
    requires c.retention < END_OF_TIME
    ensures SafeGap(c, gap) <==> c.retention == 0 || gap <= c.retention - SECOND
  {
    if c.retention == 0 || gap <= c.retention - SECOND {
      forall ss: seq<State>, ls: seq<Label> | Execution(c, ss, ls) && GapsWithin(ss, ls, gap)
        ensures Referential(ss[|ls|].db)
      {
        forall m | 0 <= m < |ls| ensures Timely(c, ss[m], ls[m]) {
          assert InsertsRow(ls[m]) <==> ls[m].Do? && ls[m].e == Insert(true);
        }
        ReferencesHold(c, ss, ls, |ls|);
      }
    } else {
      var spec := Spec("", "", "", "", "", "", "", "", None);
      var ss, ls := OrphanIsReachable(c, Key("", ""), spec);
      assert GapsWithin(ss, ls, gap);
    }
  }

  // ---------- the resource sweep ----------

  /** Finished, and not after the cutoff. */
  predicate FinishedBy(kd: Resource, cutoff: Instant) {
    (kd.status.phase == Done || kd.status.phase == Partial || kd.status.phase == Failed) &&
    (if kd.status.completedAt.Some? then kd.status.completedAt.value else kd.createdAt) <= cutoff
  }

  /** A listing marks for deletion exactly the resources finished by the cutoff. */
  lemma {:induction false} ListingIsExact(c: Config, s: State, k: Key)
    requires Enabled(c, s, SweepList(true))
    ensures var s' := Step(c, s, SweepList(true));
            s'.sweep.Deleting? && (k in s'.sweep.keys <==> k in s.crs && FinishedBy(s.crs[k], s.sweep.cutoff))
  {}

  /** A sweep prunes rows and lists resources by one cutoff, taken at its beginning. */
  lemma {:induction false} SweepKeepsCutoff(c: Config, ss: seq<State>, ls: seq<Label>, j: nat) returns (i: nat)
    requires Execution(c, ss, ls) && j < |ss| && (ss[j].sweep.SweepingRows? || ss[j].sweep.Listing?)
    ensures i < j && ls[i] == SweepBegin && ss[j].sweep.cutoff == ss[i].now - c.retention
    ensures forall m :: i < m <= j ==> ss[m].sweep.SweepingRows? || ss[m].sweep.Listing?
  {
    var s, l := ss[j - 1], ls[j - 1];
    assert Enabled(c, s, l) && ss[j] == Step(c, s, l);
    CutoffStep(c, s, l);
    if l == SweepBegin {
      i := j - 1;
    } else {
      i := SweepKeepsCutoff(c, ss, ls, j - 1);
    }
  }

  lemma {:induction false} CutoffStep(c: Config, s: State, l: Label)
    requires Enabled(c, s, l)
    ensures var sweep := Step(c, s, l).sweep;
            sweep.SweepingRows? || sweep.Listing? ==>
              if l == SweepBegin then sweep.cutoff == s.now - c.retention
              else (s.sweep.SweepingRows? || s.sweep.Listing?) && sweep.cutoff == s.sweep.cutoff
  {}

  /** Whatever is marked was finished by the cutoff when it was listed. */
  lemma {:induction false} MarkedWasFinished(c: Config, ss: seq<State>, ls: seq<Label>, j: nat, k: Key) returns (i: nat)
    requires Execution(c, ss, ls) && j < |ss| && ss[j].sweep.Deleting? && k in ss[j].sweep.keys
    ensures i < j && ls[i] == SweepList(true) && ss[i].sweep.Listing?
    ensures k in ss[i].crs && FinishedBy(ss[i].crs[k], ss[i].sweep.cutoff)
  {
    var s, l := ss[j - 1], ls[j - 1];
    assert Enabled(c, s, l) && ss[j] == Step(c, s, l);
    if l == SweepList(true) {
      ListingIsExact(c, s, k);
      i := j - 1;
    } else {
      MarkStays(c, s, l);
      i := MarkedWasFinished(c, ss, ls, j - 1, k);
    }
  }

  lemma {:induction false} MarkStays(c: Config, s: State, l: Label)
    requires Enabled(c, s, l) && l != SweepList(true) && Step(c, s, l).sweep.Deleting?
    ensures s.sweep.Deleting? && Step(c, s, l).sweep.keys <= s.sweep.keys
  {}

  /** While nobody deletes or creates it, a listed resource keeps its status to the end of
      the sweep: a sweep deletes an unfinished resource only if it was created anew after
      the listing. */
  lemma {:induction false} ListedStaysFinished(c: Config, ss: seq<State>, ls: seq<Label>, i: nat, j: nat, k: Key)
    requires Execution(c, ss, ls) && i <= j < |ss| && IsTerminal(ss[i], k)
    requires forall m :: i <= m < j ==> !(ls[m].Create? && ls[m].k == k)
    ensures k in ss[j].crs ==> ss[j].crs[k].status == ss[i].crs[k].status
  {
    if i < j {
      var s, l := ss[j - 1], ls[j - 1];
      ListedStaysFinished(c, ss, ls, i, j - 1, k);
      assert Enabled(c, s, l) && ss[j] == Step(c, s, l);
      ReachableInv(c, ss, ls, j - 1);
      if k in s.crs {
        TerminalAbsorbs(c, s, l, k);
      } else {
        StaysAway(c, s, l, k);
      }
    }
  }

  lemma {:induction false} StaysAway(c: Config, s: State, l: Label, k: Key)
    requires Enabled(c, s, l) && k !in s.crs && !(l.Create? && l.k == k)
    ensures k !in Step(c, s, l).crs
  {
    if !Concerns(l, k) {
      StepFrame(c, s, l, k);
    } else if l.Do? {
      DoStep(c, s, k, l.e);
    }
  }

  /** Deletion goes by name, so created anew it is deleted unfinished. */
  lemma {:induction false} SweepTakesNewcomer(c: Config, s: State, k: Key, spec: Spec)
    returns (ss: seq<State>, ls: seq<Label>)
    requires s.sweep.Deleting? && k in s.sweep.keys && k in s.crs
    ensures Path(c, ss, ls) && |ls| == 3 && ss[0] == s
    ensures ls[2] == SweepDelete(k, true) && k in ss[2].crs && ss[2].crs[k].status.phase == Pending && k !in ss[3].crs
  {
    var s1 := Step(c, s, Remove(k));
    var s2 := Step(c, s1, Create(k, spec, true));
    var s3 := Step(c, s2, SweepDelete(k, true));
    ss, ls := [s, s1, s2, s3], [Remove(k), Create(k, spec, true), SweepDelete(k, true)];
  }

  // ---------- finished resources and their rows ----------

  /** The row is what mirroring the finished resource writes. */
  ghost predicate Mirrored(s: State, k: Key) {
    IsTerminal(s, k) && s.crs[k].status.completedAt.Some? && k in s.db.incidents &&
    var row, m := s.db.incidents[k], MirrorOf(k, s.crs[k]);
    row.updatedAt == s.crs[k].status.completedAt.value &&
    row.life == Printed(m.life) && Merge(m.cols, row.cols) == row.cols
  }

  /** Any run of a finished resource only mirrors it. */
  ghost predicate OnlyMirrors(s: State, k: Key) {
    k in s.runs ==> s.runs[k].stage == Mirroring && k in s.crs && s.runs[k].kd == s.crs[k]
  }

  /** The step leaves the resource and its row in place. */
  ghost predicate Spares(s: State, l: Label, s': State, k: Key) {
    !((l.Remove? || l.EditSpec? || l.SweepDelete?) && l.k == k) && k in s'.db.incidents
  }

  /** Mirroring writes the fixed point. */
  lemma {:induction false} MirrorWrites(c: Config, s: State, k: Key)
    requires Inv(s) && Enabled(c, s, Do(k, Mirror(true))) && k in s.crs && s.runs[k].kd == s.crs[k]
    ensures Mirrored(Step(c, s, Do(k, Mirror(true))), k)
  {
    assert KeyInv(s, k);
    var m := MirrorOf(k, s.crs[k]);
    assert Upserted(s.db.incidents, m, s.now).updatedAt == s.crs[k].status.completedAt.value;
  }

  lemma {:induction false} PruneKeepsRow(t: Tables, cutoff: Instant, k: Key)
    requires k in Pruned(t, cutoff).incidents
    ensures k in t.incidents && Pruned(t, cutoff).incidents[k] == t.incidents[k]
  {}

  lemma {:induction false} StepKeepsMirror(c: Config, s: State, l: Label, k: Key)
    requires Inv(s) && Enabled(c, s, l) && Mirrored(s, k) && OnlyMirrors(s, k)
    requires Spares(s, l, Step(c, s, l), k)
    ensures var s' := Step(c, s, l);
            Mirrored(s', k) && OnlyMirrors(s', k) && s'.db.incidents[k] == s.db.incidents[k] && s'.crs[k] == s.crs[k]
  {
    match l
    case Do(k', e) => DoKeepsMirror(c, s, k', e, k);
    case SweepRows(ok) =>
      if ok { PruneKeepsRow(s.db, s.sweep.cutoff, k); }
    case _ =>
  }

  lemma {:induction false} DoKeepsMirror(c: Config, s: State, k': Key, e: Effect, k: Key)
    requires Inv(s) && Enabled(c, s, Do(k', e)) && Mirrored(s, k) && OnlyMirrors(s, k)
    ensures var s' := Step(c, s, Do(k', e));
            Mirrored(s', k) && OnlyMirrors(s', k) && s'.db.incidents[k] == s.db.incidents[k] && s'.crs[k] == s.crs[k]
  {
    if k' == k {
      MirrorAgain(c, s, k, e);
    } else {
      DoSparesOther(c, s, k', e, k);
    }
  }

  lemma {:induction false} DoSparesOther(c: Config, s: State, k': Key, e: Effect, k: Key)
    requires Enabled(c, s, Do(k', e)) && k != k'
    ensures var s' := Step(c, s, Do(k', e));
            Lookup(s'.crs, k) == Lookup(s.crs, k) && Lookup(s'.runs, k) == Lookup(s.runs, k) &&
            Lookup(s'.db.incidents, k) == Lookup(s.db.incidents, k)
  {
    StepFrame(c, s, Do(k', e), k);
    ActAwaits(c, s.now, s.starts, k', Lookup(s.crs, k'), s.runs[k'], e);
  }

  lemma {:induction false} MirrorAgain(c: Config, s: State, k: Key, e: Effect)
    requires Inv(s) && Enabled(c, s, Do(k, e)) && Mirrored(s, k) && OnlyMirrors(s, k)
    ensures var s' := Step(c, s, Do(k, e));
            k !in s'.runs && s'.crs == s.crs && k in s'.db.incidents && s'.db.incidents[k] == s.db.incidents[k]
  {
    assert e.Mirror?;
    DoStep(c, s, k, e);
  }

  /** Resyncs never postpone retention: once mirrored, the row of a finished resource stays
      as it is, dated at completion, through any number of further reconciles. */
  lemma {:induction false} MirrorIsFixedPoint(c: Config, ss: seq<State>, ls: seq<Label>, i: nat, j: nat, k: Key)
    requires Execution(c, ss, ls) && i <= j < |ss| && Mirrored(ss[i], k) && OnlyMirrors(ss[i], k)
    requires forall m :: i <= m < j ==> Spares(ss[m], ls[m], ss[m + 1], k)
    ensures Mirrored(ss[j], k) && OnlyMirrors(ss[j], k) && ss[j].crs[k] == ss[i].crs[k]
    ensures ss[j].db.incidents[k] == ss[i].db.incidents[k]
    ensures ss[j].db.incidents[k].updatedAt == ss[i].crs[k].status.completedAt.value
  {
    if i < j {
      MirrorIsFixedPoint(c, ss, ls, i, j - 1, k);
      ReachableInv(c, ss, ls, j - 1);
      var m := j - 1;
      assert Spares(ss[m], ls[m], ss[m + 1], k);
      StepKeepsMirror(c, ss[j - 1], ls[j - 1], k);
    }
  }
}
