/** What every reachable state satisfies, and what one step does to a finished resource. */
module ProtocolInvariants {
  import opened Common
  import opened Timestamps
  import opened IncidentStore
  import opened Protocol
  import Agent = DiagnosisAgent

  /** Some row for `k` with this analysis was written at some time. */
  ghost predicate HasRow(inserted: seq<Diagnosis>, k: Key, summary: string, rootCause: string) {
    exists d :: d in inserted && d.key == k && d.summary == summary && d.rootCause == rootCause
  }

  /** The status invariant. */
  predicate StatusOk(st: Status, now: Instant) {
    (st.persisted <==> Concluded(st.phase)) &&
    (st.condition == Stored <==> Concluded(st.phase)) &&
    (st.completedAt.Some? <==> Terminal(st.phase)) &&
    (st.startedAt.Some? ==> st.startedAt.value <= TruncateToSecond(now)) &&
    (st.startedAt.Some? && st.completedAt.Some? ==> st.startedAt.value <= st.completedAt.value) &&
    (st.phase == Diagnosing ==> st.startedAt.Some?) &&
    (!Concluded(st.phase) ==> st.summary == "" && st.rootCause == "")
  }

  /** ADR-003: a concluded resource carries an analysis that was stored before. */
  ghost predicate ResourceOk(now: Instant, inserted: seq<Diagnosis>, k: Key, st: Status) {
    StatusOk(st, now) &&
    (Concluded(st.phase) ==> HasRow(inserted, k, st.summary, st.rootCause))
  }

  predicate AfterAgent(stage: Stage) {
    stage == FailMirroring || stage == FailPatching || Storing(stage)
  }

  predicate Storing(stage: Stage) {
    stage == Inserting || stage == ErrorPatching || AfterInsert(stage)
  }

  predicate AfterInsert(stage: Stage) {
    stage == FinalMirroring || stage == FinalPatching
  }

  /** A run knows what it may still do to its resource, which is not finished. */
  ghost predicate RunOk(now: Instant, inserted: seq<Diagnosis>, k: Key, cr: Option<Resource>, r: Run) {
    (r.stage == Mirroring ==> Terminal(r.kd.status.phase) && r.kd.status.completedAt.Some?) &&
    (r.stage != Mirroring && cr.Some? ==> !Terminal(cr.value.status.phase)) &&
    r.startedAt <= now &&
    (AfterAgent(r.stage) ==>
      (r.outcome.phase == Failed <==> !Storing(r.stage)) &&
      (Storing(r.stage) ==> Concluded(r.outcome.phase)) &&
      (cr.Some? && cr.value.status.startedAt.Some? ==>
        cr.value.status.startedAt.value <= TruncateToSecond(r.completedAt))) &&
    (AfterInsert(r.stage) ==> HasRow(inserted, k, SummaryOf(r.outcome), RootCauseOf(r.outcome)))
  }

  ghost predicate ViewOk(now: Instant, inserted: seq<Diagnosis>, k: Key, cr: Option<Resource>, run: Option<Run>) {
    (cr.Some? ==> ResourceOk(now, inserted, k, cr.value.status)) &&
    (run.Some? ==> RunOk(now, inserted, k, cr, run.value))
  }

  ghost predicate KeyInv(s: State, k: Key) {
    ViewOk(s.now, s.inserted, k, Lookup(s.crs, k), Lookup(s.runs, k))
  }

  ghost predicate Inv(s: State) {
    forall k :: KeyInv(s, k)
  }

  // ---------- one effect ----------

  /** The resource after a delta: only its status can have changed. */
  function Rewritten(cr: Option<Resource>, status: Option<Status>): Option<Resource>
    requires status.Some? ==> cr.Some?
  {
    if status.Some? then Some(cr.value.(status := status.value)) else cr
  }

  lemma {:induction false} TruncationMonotone(t: Time, u: Time)
    requires t <= u
    ensures TruncateToSecond(t) <= TruncateToSecond(u)
  {}

  lemma {:induction false} InsertedHasRow(inserted: seq<Diagnosis>, row: Diagnosis)
    ensures HasRow(inserted + [row], row.key, row.summary, row.rootCause)
  {
    assert row in inserted + [row];
  }

  lemma {:induction false} ActKeepsResource(c: Config, now: Instant, starts: seq<int>, inserted: seq<Diagnosis>,
                                            k: Key, cr: Option<Resource>, r: Run, e: Effect)
    requires ViewOk(now, inserted, k, cr, Some(r)) && CanAct(r, cr, e)
    ensures var d := Act(c, now, starts, k, cr, r, e);
            d.status.Some? ==> ResourceOk(now, inserted, k, d.status.value)
  {
    TruncationMonotone(r.startedAt, now);
  }

  lemma {:induction false} ActKeepsRun(c: Config, now: Instant, starts: seq<int>, inserted: seq<Diagnosis>, k: Key,
                                       cr: Option<Resource>, r: Run, e: Effect)
    requires ViewOk(now, inserted, k, cr, Some(r)) && CanAct(r, cr, e)
    requires !e.Insert? && !e.RunAgent? && !e.PatchDiagnosing?
    ensures var d := Act(c, now, starts, k, cr, r, e);
            d.run.Some? ==> RunOk(now, inserted, k, Rewritten(cr, d.status), d.run.value)
  {}

  lemma {:induction false} PatchKeepsRun(c: Config, now: Instant, starts: seq<int>, inserted: seq<Diagnosis>, k: Key,
                                         cr: Option<Resource>, r: Run, ok: bool)
    requires ViewOk(now, inserted, k, cr, Some(r)) && CanAct(r, cr, PatchDiagnosing(ok))
    ensures var d := Act(c, now, starts, k, cr, r, PatchDiagnosing(ok));
            d.run.Some? ==> RunOk(now, inserted, k, Rewritten(cr, d.status), d.run.value)
  {}

  /** The agent's outcome decides which writes may follow. */
  lemma {:induction false} AgentKeepsRun(c: Config, now: Instant, starts: seq<int>, inserted: seq<Diagnosis>, k: Key,
                                         cr: Option<Resource>, r: Run, session: Agent.Session)
    requires ViewOk(now, inserted, k, cr, Some(r)) && CanAct(r, cr, RunAgent(session))
    ensures var d := Act(c, now, starts, k, cr, r, RunAgent(session));
            d.run.Some? && RunOk(now, inserted, k, cr, d.run.value)
  {}

  lemma {:induction false} InsertKeepsRun(c: Config, now: Instant, starts: seq<int>, inserted: seq<Diagnosis>, k: Key,
                                          cr: Option<Resource>, r: Run, ok: bool)
    requires ViewOk(now, inserted, k, cr, Some(r)) && CanAct(r, cr, Insert(ok))
    ensures var d := Act(c, now, starts, k, cr, r, Insert(ok));
            d.run.Some? && RunOk(now, inserted + Listed(d.insert), k, cr, d.run.value)
  {
    if ok {
      InsertedHasRow(inserted, DiagnosisRow(k, r, now));
    }
  }

  /** Every effect of a run keeps its own key in order. */
  lemma {:induction false} ActKeepsView(c: Config, now: Instant, starts: seq<int>, inserted: seq<Diagnosis>, k: Key,
                                        cr: Option<Resource>, r: Run, e: Effect)
    requires ViewOk(now, inserted, k, cr, Some(r)) && CanAct(r, cr, e)
    ensures var d := Act(c, now, starts, k, cr, r, e);
            ViewOk(now, inserted + Listed(d.insert), k, Rewritten(cr, d.status), d.run)
  {
    var d := Act(c, now, starts, k, cr, r, e);
    ActKeepsResource(c, now, starts, inserted, k, cr, r, e);
    if e.Insert? {
      InsertKeepsRun(c, now, starts, inserted, k, cr, r, e.ok);
      ViewMonotone(now, now, inserted, inserted + Listed(d.insert), k, cr, None);
    } else {
      if e.RunAgent? {
        AgentKeepsRun(c, now, starts, inserted, k, cr, r, e.session);
      } else if e.PatchDiagnosing? {
        PatchKeepsRun(c, now, starts, inserted, k, cr, r, e.ok);
      } else {
        ActKeepsRun(c, now, starts, inserted, k, cr, r, e);
      }
      assert inserted + Listed(d.insert) == inserted;
    }
  }

  /** Only the final patch writes a concluding phase. */
  lemma {:induction false} ActConcludes(c: Config, now: Instant, starts: seq<int>, inserted: seq<Diagnosis>, k: Key,
                                        cr: Option<Resource>, r: Run, e: Effect)
    requires ViewOk(now, inserted, k, cr, Some(r)) && CanAct(r, cr, e)
    ensures var d := Act(c, now, starts, k, cr, r, e);
            (d.status.Some? && Concluded(d.status.value.phase) <==> e == PatchFinal(true)) &&
            (e == PatchFinal(true) ==> cr.Some? && !Terminal(cr.value.status.phase))
  {}

  /** How an effect moves a run into and out of the stages after its insert. */
  lemma {:induction false} ActCommits(c: Config, now: Instant, starts: seq<int>, k: Key, cr: Option<Resource>, r: Run,
                                      e: Effect)
    requires CanAct(r, cr, e)
    ensures var d := Act(c, now, starts, k, cr, r, e);
            (d.insert.Some? <==> e == Insert(true)) &&
            (d.insert.Some? ==> d.insert.value.key == k) &&
            (d.run.Some? && AfterInsert(d.run.value.stage) <==>
              e == Insert(true) || (AfterInsert(r.stage) && !e.PatchFinal?)) &&
            (AfterInsert(r.stage) <==> e.FinalUpsert? || e.PatchFinal?)
  {}

  lemma {:induction false} HasRowMonotone(inserted: seq<Diagnosis>, more: seq<Diagnosis>, k: Key, summary: string,
                                          rootCause: string)
    requires inserted <= more && HasRow(inserted, k, summary, rootCause)
    ensures HasRow(more, k, summary, rootCause)
  {
    var d :| d in inserted && d.key == k && d.summary == summary && d.rootCause == rootCause;
    assert d in more;
  }

  /** Time and the log of rows only grow, and neither spoils a key. */
  lemma {:induction false} ViewMonotone(now: Instant, later: Instant, inserted: seq<Diagnosis>, more: seq<Diagnosis>,
                                        k: Key, cr: Option<Resource>, run: Option<Run>)
    requires ViewOk(now, inserted, k, cr, run) && now <= later && inserted <= more
    ensures ViewOk(later, more, k, cr, run)
  {
    TruncationMonotone(now, later);
    if cr.Some? && Concluded(cr.value.status.phase) {
      HasRowMonotone(inserted, more, k, cr.value.status.summary, cr.value.status.rootCause);
    }
    if run.Some? && AfterInsert(run.value.stage) {
      HasRowMonotone(inserted, more, k, SummaryOf(run.value.outcome), RootCauseOf(run.value.outcome));
    }
  }

  // ---------- one step ----------

  /** The keys whose resource or run a label may touch. */
  predicate Concerns(l: Label, k: Key) {
    match l
    case Tick(_) => false
    case Crash => true
    case SweepBegin => false
    case SweepRows(_) => false
    case SweepList(_) => false
    case SweepEnd => false
    case _ => l.k == k
  }

  lemma {:induction false} StepFrame(c: Config, s: State, l: Label, k: Key)
    requires Enabled(c, s, l) && !Concerns(l, k)
    ensures Lookup(Step(c, s, l).crs, k) == Lookup(s.crs, k)
    ensures Lookup(Step(c, s, l).runs, k) == Lookup(s.runs, k)
  {}

  lemma {:induction false} StepGrows(c: Config, s: State, l: Label)
    requires Enabled(c, s, l)
    ensures s.now <= Step(c, s, l).now && s.inserted <= Step(c, s, l).inserted
  {}

  /** An effect changes its own key as its delta says. */
  lemma {:induction false} DoStep(c: Config, s: State, k: Key, e: Effect)
    requires Enabled(c, s, Do(k, e))
    ensures var s', d := Step(c, s, Do(k, e)), DeltaOf(c, s, k, e);
            Lookup(s'.crs, k) == Rewritten(Lookup(s.crs, k), d.status) && Lookup(s'.runs, k) == d.run &&
            s'.inserted == s.inserted + Listed(d.insert) && s'.now == s.now
  {}

  lemma {:induction false} BeginStep(c: Config, s: State, k: Key)
    requires Enabled(c, s, Begin(k)) && KeyInv(s, k)
    ensures KeyInv(Step(c, s, Begin(k)), k)
  {}

  lemma {:induction false} OtherStep(c: Config, s: State, l: Label, k: Key)
    requires Enabled(c, s, l) && KeyInv(s, k) && Concerns(l, k) && !l.Do? && !l.Begin?
    ensures KeyInv(Step(c, s, l), k)
  {}

  lemma {:induction false} StepKeepsKey(c: Config, s: State, l: Label, k: Key)
    requires Enabled(c, s, l) && KeyInv(s, k)
    ensures KeyInv(Step(c, s, l), k)
  {
    if !Concerns(l, k) {
      StepFrame(c, s, l, k);
      StepGrows(c, s, l);
      ViewMonotone(s.now, Step(c, s, l).now, s.inserted, Step(c, s, l).inserted,
                   k, Lookup(s.crs, k), Lookup(s.runs, k));
    } else if l.Do? {
      ActKeepsView(c, s.now, s.starts, s.inserted, k, Lookup(s.crs, k), s.runs[k], l.e);
      DoStep(c, s, k, l.e);
    } else if l.Begin? {
      BeginStep(c, s, k);
    } else {
      OtherStep(c, s, l, k);
    }
  }

  lemma {:induction false} StepKeepsInv(c: Config, s: State, l: Label)
    requires Inv(s) && Enabled(c, s, l)
    ensures Inv(Step(c, s, l))
  {
    forall k ensures KeyInv(Step(c, s, l), k) {
      assert KeyInv(s, k);
      StepKeepsKey(c, s, l, k);
    }
  }

  /** Every state of every execution satisfies the invariant. */
  lemma {:induction false} ReachableInv(c: Config, ss: seq<State>, ls: seq<Label>, i: nat)
    requires Execution(c, ss, ls) && i < |ss|
    ensures Inv(ss[i])
  {
    if i > 0 {
      ReachableInv(c, ss, ls, i - 1);
      StepKeepsInv(c, ss[i - 1], ls[i - 1]);
    }
  }

  // ---------- consequences ----------

  /** Terminal phases are absorbing: until it is deleted, no step changes the status of a
      finished resource. */
  lemma {:induction false} TerminalAbsorbs(c: Config, s: State, l: Label, k: Key)
    requires Inv(s) && Enabled(c, s, l) && k in s.crs && Terminal(s.crs[k].status.phase)
    ensures var s' := Step(c, s, l); k in s'.crs ==> s'.crs[k].status == s.crs[k].status
  {
    assert KeyInv(s, k);
    if !Concerns(l, k) {
      StepFrame(c, s, l, k);
    }
  }

  ghost predicate IsConcluded(s: State, k: Key) {
    k in s.crs && Concluded(s.crs[k].status.phase)
  }

  /** The only way into Done or Partial is the final patch of a run that inserted a row. */
  lemma {:induction false} ConcludedOnlyByFinalPatch(c: Config, s: State, l: Label, k: Key)
    requires Inv(s) && Enabled(c, s, l)
    ensures IsConcluded(Step(c, s, l), k) && !IsConcluded(s, k) <==> l == Do(k, PatchFinal(true))
  {
    assert KeyInv(s, k);
    if !Concerns(l, k) {
      StepFrame(c, s, l, k);
    } else if l.Do? {
      DoStep(c, s, k, l.e);
      ActConcludes(c, s.now, s.starts, s.inserted, k, Lookup(s.crs, k), s.runs[k], l.e);
    }
  }
}
