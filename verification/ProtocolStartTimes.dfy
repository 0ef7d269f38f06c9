/** When a finished resource says when its diagnosis started.

    Status patches address a resource by name, so a run whose resource is deleted and
    created again goes on to patch the new one, which it never marked as started. */
module ProtocolStartTimes {
  import opened Common
  import opened IncidentStore
  import opened Protocol
  import opened ProtocolInvariants
  import opened ProtocolTraces
  import opened ProtocolProgress
  import opened ProtocolSchedules

  /** The run has marked a start and may still finish its resource. */
  predicate Finishing(stage: Stage) {
    stage == Refetching || stage == Running || stage == FailMirroring || stage == FailPatching ||
    stage == Inserting || stage == FinalMirroring || stage == FinalPatching
  }

  ghost predicate RunFinishing(s: State, k: Key) {
    k in s.runs && Finishing(s.runs[k].stage)
  }

  ghost predicate Started(cr: Option<Resource>, run: Option<Run>) {
    cr.Some? && (Terminal(cr.value.status.phase) || (run.Some? && Finishing(run.value.stage))) ==>
      cr.value.status.startedAt.Some?
  }

  ghost predicate StartedAt(s: State, k: Key) {
    Started(Lookup(s.crs, k), Lookup(s.runs, k))
  }

  /** The step creates a resource under the name of one that a run is still finishing. */
  ghost predicate Recreates(s: State, l: Label, k: Key) {
    l.Create? && l.k == k && RunFinishing(s, k)
  }

  lemma {:induction false} ActKeepsStarted(c: Config, now: Instant, starts: seq<int>, k: Key, cr: Option<Resource>,
                                           r: Run, e: Effect)
    requires CanAct(r, cr, e) && Started(cr, Some(r))
    ensures var d := Act(c, now, starts, k, cr, r, e); Started(Rewritten(cr, d.status), d.run)
  {}

  lemma {:induction false} StepKeepsStarted(c: Config, s: State, l: Label, k: Key)
    requires Enabled(c, s, l) && StartedAt(s, k) && !Recreates(s, l, k)
    ensures StartedAt(Step(c, s, l), k)
  {
    if !Concerns(l, k) {
      StepFrame(c, s, l, k);
    } else if l.Do? {
      DoStep(c, s, k, l.e);
      ActKeepsStarted(c, s.now, s.starts, k, Lookup(s.crs, k), s.runs[k], l.e);
    }
  }

  lemma {:induction false} PathKeepsStarted(c: Config, ss: seq<State>, ls: seq<Label>, j: nat, k: Key)
    requires Path(c, ss, ls) && j < |ss| && StartedAt(ss[0], k)
    requires forall m :: 0 <= m < j ==> !Recreates(ss[m], ls[m], k)
    ensures StartedAt(ss[j], k)
  {
    if j > 0 {
      PathKeepsStarted(c, ss, ls, j - 1, k);
      StepKeepsStarted(c, ss[j - 1], ls[j - 1], k);
    }
  }

  /** Unless it was created while a run under its name was finishing, a finished resource
      has a start, a completion, and the first is not after the second. */
  lemma {:induction false} FinishedHasBothTimes(c: Config, ss: seq<State>, ls: seq<Label>, j: nat, k: Key)
    requires Execution(c, ss, ls) && j < |ss| && IsTerminal(ss[j], k)
    requires forall m :: 0 <= m < j ==> !Recreates(ss[m], ls[m], k)
    ensures var st := ss[j].crs[k].status;
            st.startedAt.Some? && st.completedAt.Some? && st.startedAt.value <= st.completedAt.value
  {
    PathKeepsStarted(c, ss, ls, j, k);
    ReachableInv(c, ss, ls, j);
    assert KeyInv(ss[j], k);
  }

  // ---------- and otherwise it may lack a start ----------

  /** A life of the resource from state `s` on. */
  ghost predicate LivesFrom(c: Config, s: State, k: Key, ss: seq<State>, ls: seq<Label>) {
    Path(c, ss, ls) && ss[0] == s && forall m :: 0 <= m < |ss| ==> k in ss[m].crs
  }

  ghost predicate EndsUnstarted(s: State, k: Key) {
    IsTerminal(s, k) && s.crs[k].status.startedAt.None?
  }

  lemma {:induction false} FinishingStep(c: Config, s: State, k: Key) returns (e: Effect)
    requires Inv(s) && k in s.crs && RunFinishing(s, k) && s.crs[k].status.startedAt.None?
    ensures Enabled(c, s, Do(k, e))
    ensures var s' := Step(c, s, Do(k, e));
            Inv(s') && k in s'.crs && s'.crs[k].status.startedAt.None? &&
            (IsTerminal(s', k) ||
             (RunFinishing(s', k) && EffectsLeft(s'.runs[k].stage) < EffectsLeft(s.runs[k].stage)))
  {
    assert KeyInv(s, k);
    var cr, r := Lookup(s.crs, k), s.runs[k];
    e := RunsCanGoOn(r, cr, TALKATIVE);
    StepKeepsInv(c, s, Do(k, e));
    DoStep(c, s, k, e);
    FinishingAct(c, s.now, s.starts, k, cr, r, e);
  }

  lemma {:induction false} FinishingAct(c: Config, now: Instant, starts: seq<int>, k: Key, cr: Option<Resource>,
                                        r: Run, e: Effect)
    requires CanAct(r, cr, e) && cr.Some? && (Storing(r.stage) ==> Concluded(r.outcome.phase))
    requires Finishing(r.stage) && Succeeds(e) && cr.value.status.startedAt.None?
    ensures var d := Act(c, now, starts, k, cr, r, e);
            Rewritten(cr, d.status).value.status.startedAt.None? &&
            if d.run.Some? then Finishing(d.run.value.stage) && EffectsLeft(d.run.value.stage) < EffectsLeft(r.stage)
            else d.status.Some? && Terminal(d.status.value.phase)
  {
    RunsEnd(c, now, starts, k, cr, r, e);
    if e.RunAgent? {
      AgentAct(c, now, starts, k, cr, r, e);
    } else if e.PatchFailed? || e.PatchFinal? {
      LastPatch(c, now, starts, k, cr, r, e);
    } else {
      NoPatch(c, now, starts, k, cr, r, e);
    }
  }

  lemma {:induction false} LastPatch(c: Config, now: Instant, starts: seq<int>, k: Key, cr: Option<Resource>, r: Run,
                                     e: Effect)
    requires CanAct(r, cr, e) && cr.Some? && (Storing(r.stage) ==> Concluded(r.outcome.phase))
    requires (e.PatchFailed? || e.PatchFinal?) && Succeeds(e)
    ensures var d := Act(c, now, starts, k, cr, r, e);
            d.run.None? && d.status.Some? && Terminal(d.status.value.phase) &&
            d.status.value.startedAt == cr.value.status.startedAt
  {}

  lemma {:induction false} NoPatch(c: Config, now: Instant, starts: seq<int>, k: Key, cr: Option<Resource>, r: Run,
                                   e: Effect)
    requires CanAct(r, cr, e) && Succeeds(e) && Finishing(r.stage)
    requires !e.RunAgent? && !e.PatchFailed? && !e.PatchFinal?
    ensures var d := Act(c, now, starts, k, cr, r, e);
            d.status.None? && d.run.Some? && Finishing(d.run.value.stage)
  {}

  lemma {:induction false} AgentAct(c: Config, now: Instant, starts: seq<int>, k: Key, cr: Option<Resource>, r: Run,
                                    e: Effect)
    requires CanAct(r, cr, e) && e.RunAgent?
    ensures var d := Act(c, now, starts, k, cr, r, e);
            d.status.None? && d.run.Some? && (d.run.value.stage == FailMirroring || d.run.value.stage == Inserting)
  {}

  lemma {:induction false} FinishesUnstarted(c: Config, s: State, k: Key, ss: seq<State>, ls: seq<Label>)
    returns (ss': seq<State>, ls': seq<Label>)
    requires LivesFrom(c, s, k, ss, ls) && Inv(ss[|ls|])
    requires RunFinishing(ss[|ls|], k) && ss[|ls|].crs[k].status.startedAt.None?
    ensures LivesFrom(c, s, k, ss', ls') && EndsUnstarted(ss'[|ls'|], k)
    decreases EffectsLeft(ss[|ls|].runs[k].stage)
  {
    var e := FinishingStep(c, ss[|ls|], k);
    var s' := Step(c, ss[|ls|], Do(k, e));
    OneMoreStep(c, ss, ls, Do(k, e));
    ss', ls' := ss + [s'], ls + [Do(k, e)];
    if !IsTerminal(s', k) {
      ss', ls' := FinishesUnstarted(c, s, k, ss', ls');
    }
  }

  /** Every life of the resource from `s` on shows a start once it is finished. */
  ghost predicate AlwaysStarted(c: Config, s: State, k: Key) {
    forall ss: seq<State>, ls: seq<Label> :: LivesFrom(c, s, k, ss, ls) ==> !EndsUnstarted(ss[|ls|], k)
  }

  /** The exact condition, known at creation: a resource always shows a start once finished
      if and only if no run under its name was finishing when it was created. */
  lemma {:induction false} StartIsKnownExactly(c: Config, s: State, k: Key, spec: Spec, pending: bool)
    requires Inv(s) && k !in s.crs
    ensures AlwaysStarted(c, Step(c, s, Create(k, spec, pending)), k) <==> !RunFinishing(s, k)
  {
    var s' := Step(c, s, Create(k, spec, pending));
    if RunFinishing(s, k) {
      StepKeepsInv(c, s, Create(k, spec, pending));
      var ss, ls := FinishesUnstarted(c, s', k, [s'], []);
    } else {
      forall ss: seq<State>, ls: seq<Label> | LivesFrom(c, s', k, ss, ls) ensures !EndsUnstarted(ss[|ls|], k) {
        forall m | 0 <= m < |ls| ensures !Recreates(ss[m], ls[m], k) {
          assert k in ss[m].crs && Enabled(c, ss[m], ls[m]);
        }
        PathKeepsStarted(c, ss, ls, |ls|, k);
      }
    }
  }

  /** Such a resource is reachable from every initial state. */
  lemma {:induction false} UnstartedIsReachable(c: Config, s: State, k: Key, spec: Spec)
    returns (ss: seq<State>, ls: seq<Label>)
    requires Initial(s)
    ensures Execution(c, ss, ls) && EndsUnstarted(ss[|ls|], k)
  {
    ss, ls := StartsRunning(c, s, k, spec);
    ss, ls := ReplacedWhileRunning(c, ss, ls, k, spec);
    var last := ss[|ls|];
    ReachableInv(c, ss, ls, |ls|);
    var more, then_ := FinishesUnstarted(c, last, k, [last], []);
    ss, ls := Joined(c, ss, ls, more, then_);
  }

  lemma {:induction false} ReplacedWhileRunning(c: Config, ss: seq<State>, ls: seq<Label>, k: Key, spec: Spec)
    returns (ss': seq<State>, ls': seq<Label>)
    requires Path(c, ss, ls) && k in ss[|ls|].crs && RunFinishing(ss[|ls|], k)
    ensures Path(c, ss', ls') && ss'[0] == ss[0]
    ensures k in ss'[|ls'|].crs && RunFinishing(ss'[|ls'|], k) && ss'[|ls'|].crs[k].status.startedAt.None?
  {
    ss', ls' := Then(c, ss, ls, Remove(k));
    ss', ls' := Then(c, ss', ls', Create(k, spec, true));
  }
}
