/** Reconciles end, and an admitted one without faults ends in a terminal phase. */
module ProtocolProgress {
  import opened Common
  import opened Timestamps
  import opened IncidentStore
  import opened Protocol
  import opened ProtocolInvariants
  import opened ProtocolTraces
  import Agent = DiagnosisAgent
  import Limiter = RateLimiting

  /** Effects left at most, the next one included. */
  function EffectsLeft(stage: Stage): nat {
    match stage
    case Deciding => 9
    case Admitted => 8
    case Started => 7
    case Patching => 6
    case Refetching => 5
    case Running => 4
    case Inserting => 3
    case FinalMirroring => 2
    case FailMirroring => 2
    case _ => 1
  }

  /** The effect went through, where a failure would end the attempt. */
  predicate Succeeds(e: Effect) {
    match e
    case StartUpsert(ok) => ok
    case PatchDiagnosing(ok) => ok
    case Refetch(ok) => ok
    case PatchFailed(ok) => ok
    case Insert(ok) => ok
    case PatchFinal(ok) => ok
    case _ => true
  }

  /** No run ever blocks, and every effect brings it closer to its end: a reconcile is at
      most nine effects long whatever fails. */
  lemma {:induction false} RunsEnd(c: Config, now: Instant, starts: seq<int>, k: Key, cr: Option<Resource>, r: Run,
                                   e: Effect)
    requires CanAct(r, cr, e)
    ensures var d := Act(c, now, starts, k, cr, r, e);
            d.run.Some? ==> EffectsLeft(d.run.value.stage) < EffectsLeft(r.stage)
  {}

  lemma {:induction false} RunsCanGoOn(r: Run, cr: Option<Resource>, session: Agent.Session) returns (e: Effect)
    ensures CanAct(r, cr, e) && (cr.Some? ==> Succeeds(e))
  {
    var ok := cr.Some?;
    match r.stage
    case Mirroring => e := Mirror(true);
    case Deciding => e := Admit;
    case Throttling => e := Throttle(ok);
    case Admitted => e := ReadClock;
    case Started => e := StartUpsert(true);
    case Patching => e := PatchDiagnosing(ok);
    case Refetching => e := Refetch(ok);
    case Running => e := RunAgent(session);
    case FailMirroring => e := FailUpsert(true);
    case FailPatching => e := PatchFailed(ok);
    case Inserting => e := Insert(true);
    case ErrorPatching => e := PatchStorageError(ok);
    case FinalMirroring => e := FinalUpsert(true);
    case FinalPatching => e := PatchFinal(ok);
  }

  // ---------- an admitted, fault-free reconcile finishes ----------

  /** The step is no fault for `k`: no crash, no deletion, no failed write of its run, and
      the limiter admits it.  The best-effort mirror writes may fail. */
  ghost predicate FaultFree(c: Config, s: State, l: Label, k: Key) {
    !l.Crash? && !(l.Remove? && l.k == k) && !(l.SweepDelete? && l.k == k) &&
    (l.Do? && l.k == k ==> Succeeds(l.e) && (l.e.Admit? ==> Limiter.Admits(c.limit, WINDOW, s.starts, s.now)))
  }

  predicate Productive(stage: Stage) {
    stage != Mirroring && stage != Throttling && stage != ErrorPatching
  }

  ghost predicate OnTrack(s: State, k: Key) {
    k in s.crs && k in s.runs && Productive(s.runs[k].stage)
  }

  lemma {:induction false} ActStaysOnTrack(c: Config, now: Instant, starts: seq<int>, inserted: seq<Diagnosis>,
                                           k: Key, cr: Option<Resource>, r: Run, e: Effect)
    requires ViewOk(now, inserted, k, cr, Some(r)) && CanAct(r, cr, e) && cr.Some? && Productive(r.stage)
    requires Succeeds(e) && (e.Admit? ==> Limiter.Admits(c.limit, WINDOW, starts, now))
    ensures var d := Act(c, now, starts, k, cr, r, e);
            if d.run.Some? then Productive(d.run.value.stage)
            else d.status.Some? && Terminal(d.status.value.phase)
  {}

  lemma {:induction false} StepStaysOnTrack(c: Config, s: State, l: Label, k: Key)
    requires Inv(s) && Enabled(c, s, l) && OnTrack(s, k) && FaultFree(c, s, l, k)
    ensures OnTrack(Step(c, s, l), k) || IsTerminal(Step(c, s, l), k)
  {
    if !Concerns(l, k) {
      StepFrame(c, s, l, k);
    } else if l.Do? {
      assert KeyInv(s, k);
      DoStep(c, s, k, l.e);
      ActStaysOnTrack(c, s.now, s.starts, s.inserted, k, Lookup(s.crs, k), s.runs[k], l.e);
    }
  }

  /** Unfinished and not started within the last ten minutes: due for another attempt. */
  ghost predicate Due(s: State, k: Key) {
    k in s.crs && !Terminal(s.crs[k].status.phase) &&
    (s.crs[k].status.startedAt.Some? ==> s.now - s.crs[k].status.startedAt.value >= 10 * MINUTE)
  }

  lemma {:induction false} DueRunsBegin(c: Config, s: State, k: Key)
    requires Inv(s) && Due(s, k) && k !in s.runs
    ensures OnTrack(Step(c, s, Begin(k)), k)
  {
    assert KeyInv(s, k);
  }

  lemma {:induction false} StaysTerminal(c: Config, s: State, l: Label, k: Key)
    requires Inv(s) && Enabled(c, s, l) && IsTerminal(s, k) && FaultFree(c, s, l, k)
    ensures IsTerminal(Step(c, s, l), k)
  {
    TerminalAbsorbs(c, s, l, k);
    if !Concerns(l, k) {
      StepFrame(c, s, l, k);
    } else if l.Do? {
      DoStep(c, s, k, l.e);
    }
  }

  lemma {:induction false} TrackLeadsToTerminal(
      c: Config, ss: seq<State>, ls: seq<Label>, i: nat, j: nat, k: Key)
    requires Execution(c, ss, ls) && i <= j < |ss| && OnTrack(ss[i], k)
    requires forall m :: i <= m < j ==> FaultFree(c, ss[m], ls[m], k)
    ensures OnTrack(ss[j], k) || IsTerminal(ss[j], k)
  {
    if i < j {
      TrackLeadsToTerminal(c, ss, ls, i, j - 1, k);
      ReachableInv(c, ss, ls, j - 1);
      assert FaultFree(c, ss[j - 1], ls[j - 1], k);
      if OnTrack(ss[j - 1], k) {
        StepStaysOnTrack(c, ss[j - 1], ls[j - 1], k);
      } else {
        StaysTerminal(c, ss[j - 1], ls[j - 1], k);
      }
    }
  }

  /** In any interleaving with other keys, ticks and sweeps: a reconcile of a due resource
      that meets no fault and is admitted leaves it terminal. */
  lemma {:induction false} FaultFreeReconcileFinishes(
      c: Config, ss: seq<State>, ls: seq<Label>, i: nat, j: nat, k: Key)
    requires Execution(c, ss, ls) && i < j < |ss| && ls[i] == Begin(k) && Due(ss[i], k)
    requires forall m :: i <= m < j ==> FaultFree(c, ss[m], ls[m], k)
    requires k !in ss[j].runs
    ensures IsTerminal(ss[j], k)
  {
    ReachableInv(c, ss, ls, i);
    DueRunsBegin(c, ss[i], k);
    TrackLeadsToTerminal(c, ss, ls, i + 1, j, k);
  }

  /** A throttled resource is never dropped: it stays unfinished and due at once. */
  lemma {:induction false} ThrottledStaysDue(c: Config, s: State, k: Key)
    requires Inv(s) && Enabled(c, s, Do(k, Throttle(true)))
    ensures var s' := Step(c, s, Do(k, Throttle(true)));
            k in s'.crs && s'.crs[k].status.phase == Pending && Decide(s'.crs[k].status, s'.now) == GoProceed
  {
    DoStep(c, s, k, Throttle(true));
  }
}
