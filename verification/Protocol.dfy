/** The diagnosis protocol: reconciles of KscribeDiagnosis resources, crashes, failed
    writes and retention sweeps over three stores (resource status, SQLite, memory).

    One label is one external effect.  Environment assumptions: the work queue runs at
    most one reconcile per key, reads return the last committed version, a write that
    fails was not applied, the clock never goes back, and SQLite statements and
    transactions are serialised. */
module Protocol {
  import opened Common
  import opened Timestamps
  import opened IncidentStore
  import Agent = DiagnosisAgent
  import Limiter = RateLimiting

  const WINDOW: int := HOUR
  const RECOVERY_AFTER: int := 10 * MINUTE

  /** A retention of zero means that nothing is ever swept. */
  datatype Config = Config(llmProvider: string, llmModel: string, maxIter: int, limit: int, retention: nat)

  datatype Spec = Spec(
    eventUID: string, objectKind: string, objectName: string, objectNamespace: string,
    reason: string, message: string, llmProvider: string, llmModel: string, maxIterations: Option<int>)

  /** The Persisted condition: absent, False with reason StorageError, or True. */
  datatype PersistedCondition = NoCondition | StorageError | Stored

  datatype Status = Status(
    phase: Phase, startedAt: Option<Instant>, completedAt: Option<Instant>,
    summary: string, rootCause: string, llmProvider: string, llmModel: string,
    tokensUsed: int, promptRedacted: bool, persisted: bool, condition: PersistedCondition)

  datatype Resource = Resource(spec: Spec, createdAt: Instant, status: Status)

  /** Where a reconcile stands: the effect it performs next. */
  datatype Stage =
    | Mirroring | Deciding | Throttling | Admitted | Started | Patching | Refetching | Running
    | FailMirroring | FailPatching | Inserting | ErrorPatching | FinalMirroring | FinalPatching

  /** A reconcile in flight with its local variables. */
  datatype Run = Run(
    stage: Stage, kd: Resource, llmProvider: string, llmModel: string,
    admittedAt: Instant, startedAt: Instant, upsertedAt: Instant, completedAt: Instant,
    outcome: Agent.Outcome)

  datatype Sweep = Idle | SweepingRows(cutoff: Instant) | Listing(cutoff: Instant) | Deleting(keys: set<Key>)

  /** `inserted` is the log of every diagnosis row ever written, for specification. */
  datatype State = State(
    now: Instant, crs: map<Key, Resource>, db: Tables, inserted: seq<Diagnosis>,
    runs: map<Key, Run>, starts: seq<int>, sweep: Sweep)

  /** One external effect of a reconcile in flight; `ok` says whether it took place. */
  datatype Effect =
    | Mirror(ok: bool)
    | Admit
    | Throttle(ok: bool)
    | ReadClock
    | StartUpsert(ok: bool)
    | PatchDiagnosing(ok: bool)
    | Refetch(ok: bool)
    | RunAgent(session: Agent.Session)
    | FailUpsert(ok: bool)
    | PatchFailed(ok: bool)
    | Insert(ok: bool)
    | PatchStorageError(ok: bool)
    | FinalUpsert(ok: bool)
    | PatchFinal(ok: bool)

  datatype Label =
    | Tick(d: nat)
    | Create(k: Key, spec: Spec, pending: bool)
    | Remove(k: Key)
    | EditSpec(k: Key, spec: Spec)
    | Crash
    | Begin(k: Key)
    | Do(k: Key, e: Effect)
    | SweepBegin
    | SweepRows(ok: bool)
    | SweepList(ok: bool)
    | SweepDelete(k: Key, ok: bool)
    | SweepEnd

  // ---------- values written by the reconciler ----------

  function BlankStatus(pending: bool): Status {
    Status(if pending then Pending else Unset, None, None, "", "", "", "", 0, false, false, NoCondition)
  }

  function OrElse(preferred: string, fallback: string): string {
    if preferred != "" then preferred else fallback
  }

  function ColumnsOf(spec: Spec, llmProvider: string, llmModel: string): Columns {
    Columns(spec.eventUID, spec.objectKind, spec.objectName, spec.objectNamespace,
            spec.reason, spec.message, llmProvider, llmModel)
  }

  /** The row mirrored from a finished resource: updated_at is pinned to its completion. */
  function MirrorOf(k: Key, kd: Resource): Incident {
    var st := kd.status;
    Incident(k, ColumnsOf(kd.spec, st.llmProvider, st.llmModel),
             Lifecycle(st.phase, st.startedAt, st.completedAt, st.tokensUsed, st.promptRedacted, st.persisted),
             None, st.completedAt)
  }

  function StartIncident(k: Key, r: Run): Incident {
    Incident(k, ColumnsOf(r.kd.spec, r.llmProvider, r.llmModel),
             Lifecycle(Diagnosing, Some(r.startedAt), None, 0, false, false), None, None)
  }

  function EndIncident(k: Key, r: Run, persisted: bool): Incident {
    Incident(k, ColumnsOf(r.kd.spec, r.llmProvider, r.llmModel),
             Lifecycle(r.outcome.phase, Some(r.startedAt), Some(r.completedAt), r.outcome.tokensUsed, false, persisted),
             None, None)
  }

  function Join(parts: seq<string>, sep: string): string {
    if parts == [] then "" else if |parts| == 1 then parts[0] else parts[0] + sep + Join(parts[1..], sep)
  }

  function SummaryOf(o: Agent.Outcome): string {
    if o.rca.Some? then o.rca.value.summary else ""
  }

  function RootCauseOf(o: Agent.Outcome): string {
    if o.rca.Some? then o.rca.value.rootCause else ""
  }

  function DiagnosisRow(k: Key, r: Run, now: Instant): Diagnosis {
    Diagnosis(k, r.kd.spec.eventUID, SummaryOf(r.outcome), RootCauseOf(r.outcome),
              if r.outcome.rca.Some? then Join(r.outcome.rca.value.remediationSteps, "; ") else "",
              r.outcome.reasoning, now)
  }

  function DiagnosingStatus(st: Status, r: Run): Status {
    st.(phase := Diagnosing, startedAt := Some(TruncateToSecond(r.startedAt)),
        llmProvider := r.llmProvider, llmModel := r.llmModel)
  }

  function FailedStatus(st: Status, r: Run): Status {
    st.(phase := Failed, completedAt := Some(TruncateToSecond(r.completedAt)),
        llmProvider := r.llmProvider, llmModel := r.llmModel, tokensUsed := r.outcome.tokensUsed)
  }

  function FinalStatus(st: Status, r: Run): Status {
    st.(phase := r.outcome.phase, completedAt := Some(TruncateToSecond(r.completedAt)),
        llmProvider := r.llmProvider, llmModel := r.llmModel, tokensUsed := r.outcome.tokensUsed,
        persisted := true, condition := Stored,
        summary := if r.outcome.rca.Some? then r.outcome.rca.value.summary else st.summary,
        rootCause := if r.outcome.rca.Some? then r.outcome.rca.value.rootCause else st.rootCause)
  }

  // ---------- the decision on entry ----------

  predicate IsStale(st: Status, now: Instant) {
    st.startedAt.None? || now - st.startedAt.value >= RECOVERY_AFTER
  }

  datatype Decision = GoMirror | GoSkip | GoProceed

  function Decide(st: Status, now: Instant): Decision {
    match st.phase
    case Unset => GoProceed
    case Pending => GoProceed
    case Diagnosing =>
      if st.persisted then GoMirror
      else if st.condition != StorageError && !IsStale(st, now) then GoSkip
      else GoProceed
    case _ => GoMirror
  }

  /** A run at its first stage; the clock readings and the outcome are filled in later. */
  function NewRun(c: Config, kd: Resource, stage: Stage): Run {
    Run(stage, kd, OrElse(kd.spec.llmProvider, c.llmProvider), OrElse(kd.spec.llmModel, c.llmModel),
        0, 0, 0, 0, Agent.Outcome(Unset, None, 0, "", "", []))
  }

  function CapFor(c: Config, kd: Resource): nat {
    Agent.EffectiveCap(if kd.spec.maxIterations.Some? then kd.spec.maxIterations.value else c.maxIter)
  }

  predicate Prunable(kd: Resource, cutoff: Instant) {
    Terminal(kd.status.phase) &&
    (if kd.status.completedAt.Some? then kd.status.completedAt.value else kd.createdAt) <= cutoff
  }

  // ---------- one effect of one run ----------

  /** What an effect does: how the run goes on, and what it writes where. */
  datatype Delta = Delta(
    run: Option<Run>, status: Option<Status>, upsert: Option<Incident>, insert: Option<Diagnosis>)

  function Only(run: Option<Run>): Delta {
    Delta(run, None, None, None)
  }

  function Next(r: Run, stage: Stage): Option<Run> {
    Some(r.(stage := stage))
  }

  /** The stage at which an effect happens. */
  function StageOf(e: Effect): Stage {
    match e
    case Mirror(_) => Mirroring
    case Admit => Deciding
    case Throttle(_) => Throttling
    case ReadClock => Admitted
    case StartUpsert(_) => Started
    case PatchDiagnosing(_) => Patching
    case Refetch(_) => Refetching
    case RunAgent(_) => Running
    case FailUpsert(_) => FailMirroring
    case PatchFailed(_) => FailPatching
    case Insert(_) => Inserting
    case PatchStorageError(_) => ErrorPatching
    case FinalUpsert(_) => FinalMirroring
    case PatchFinal(_) => FinalPatching
  }

  /** Reading or patching a resource can only succeed while it exists. */
  predicate NeedsResource(e: Effect) {
    match e
    case Throttle(ok) => ok
    case PatchDiagnosing(ok) => ok
    case Refetch(ok) => ok
    case PatchFailed(ok) => ok
    case PatchStorageError(ok) => ok
    case PatchFinal(ok) => ok
    case _ => false
  }

  predicate CanAct(r: Run, cr: Option<Resource>, e: Effect) {
    r.stage == StageOf(e) && (NeedsResource(e) ==> cr.Some?)
  }

  function Act(c: Config, now: Instant, starts: seq<int>, k: Key, cr: Option<Resource>, r: Run, e: Effect): (d: Delta)
    requires CanAct(r, cr, e)
    ensures d.status.Some? ==> cr.Some?
  {
    match e
    case Mirror(ok) => Delta(None, None, if ok then Some(MirrorOf(k, r.kd)) else None, None)
    case Admit =>
      if Limiter.Admits(c.limit, WINDOW, starts, now) then Only(Some(r.(stage := Admitted, admittedAt := now)))
      else Only(Next(r, Throttling))
    case Throttle(ok) =>
      Delta(None, if ok then Some(cr.value.status.(phase := Pending)) else None, None, None)
    case ReadClock => Only(Some(r.(stage := Started, startedAt := now)))
    case StartUpsert(ok) =>
      if ok then Delta(Some(r.(stage := Patching, upsertedAt := now)), None, Some(StartIncident(k, r)), None)
      else Only(None)
    case PatchDiagnosing(ok) =>
      if ok then Delta(Next(r, Refetching), Some(DiagnosingStatus(cr.value.status, r)), None, None) else Only(None)
    case Refetch(ok) =>
      if ok then Only(Some(r.(stage := Running, kd := cr.value))) else Only(None)
    case RunAgent(session) =>
      var o := Agent.OutcomeOf(session, CapFor(c, r.kd));
      Only(Some(r.(stage := if o.phase == Failed then FailMirroring else Inserting, completedAt := now, outcome := o)))
    case FailUpsert(ok) =>
      Delta(Next(r, FailPatching), None, if ok then Some(EndIncident(k, r, false)) else None, None)
    case PatchFailed(ok) =>
      Delta(None, if ok then Some(FailedStatus(cr.value.status, r)) else None, None, None)
    case Insert(ok) =>
      if ok then Delta(Next(r, FinalMirroring), None, None, Some(DiagnosisRow(k, r, now)))
      else Only(Next(r, ErrorPatching))
    case PatchStorageError(ok) =>
      Delta(None, if ok then Some(cr.value.status.(persisted := false, condition := StorageError)) else None,
            None, None)
    case FinalUpsert(ok) =>
      Delta(Next(r, FinalPatching), None, if ok then Some(EndIncident(k, r, true)) else None, None)
    case PatchFinal(ok) =>
      Delta(None, if ok then Some(FinalStatus(cr.value.status, r)) else None, None, None)
  }

  // ---------- transitions ----------

  function Lookup<V>(m: map<Key, V>, k: Key): Option<V> {
    if k in m then Some(m[k]) else None
  }

  function Listed<T>(x: Option<T>): seq<T> {
    if x.Some? then [x.value] else []
  }

  function WithDelta(s: State, k: Key, d: Delta): State
    requires d.status.Some? ==> k in s.crs
  {
    s.(crs := if d.status.Some? then s.crs[k := s.crs[k].(status := d.status.value)] else s.crs,
       runs := if d.run.Some? then s.runs[k := d.run.value] else s.runs - {k},
       db := s.db.(incidents := if d.upsert.Some? then Upsert(s.db.incidents, d.upsert.value, s.now)
                                else s.db.incidents,
                   diagnoses := s.db.diagnoses + Listed(d.insert)),
       inserted := s.inserted + Listed(d.insert))
  }

  /** Entry of a reconcile: read the resource and decide. */
  function Entered(c: Config, s: State, k: Key): Option<Run> {
    if k !in s.crs then None
    else
      match Decide(s.crs[k].status, s.now)
      case GoMirror => Some(NewRun(c, s.crs[k], Mirroring))
      case GoSkip => None
      case GoProceed => Some(NewRun(c, s.crs[k], Deciding))
  }

  predicate Enabled(c: Config, s: State, l: Label) {
    match l
    case Tick(d) => InRange(s.now + d)
    case Create(k, _, _) => k !in s.crs
    case Remove(k) => k in s.crs
    case EditSpec(k, _) => k in s.crs
    case Crash => true
    case Begin(k) => k !in s.runs
    case Do(k, e) => k in s.runs && CanAct(s.runs[k], Lookup(s.crs, k), e)
    case SweepBegin => s.sweep.Idle? && 0 < c.retention <= s.now
    case SweepRows(_) => s.sweep.SweepingRows?
    case SweepList(_) => s.sweep.Listing?
    case SweepDelete(k, _) => s.sweep.Deleting? && k in s.sweep.keys
    case SweepEnd => s.sweep.Deleting?
  }

  function DeltaOf(c: Config, s: State, k: Key, e: Effect): Delta
    requires Enabled(c, s, Do(k, e))
  {
    Act(c, s.now, s.starts, k, Lookup(s.crs, k), s.runs[k], e)
  }

  function Step(c: Config, s: State, l: Label): State
    requires Enabled(c, s, l)
  {
    match l
    case Tick(d) => s.(now := s.now + d)
    case Create(k, spec, pending) => s.(crs := s.crs[k := Resource(spec, s.now, BlankStatus(pending))])
    case Remove(k) => s.(crs := s.crs - {k})
    case EditSpec(k, spec) => s.(crs := s.crs[k := s.crs[k].(spec := spec)])
    case Crash => s.(runs := map[], starts := [], sweep := Idle)
    case Begin(k) => if Entered(c, s, k).Some? then s.(runs := s.runs[k := Entered(c, s, k).value]) else s
    case Do(k, e) =>
      WithDelta(s, k, DeltaOf(c, s, k, e))
        .(starts := if e.Admit? then Limiter.Recorded(c.limit, WINDOW, s.starts, s.now) else s.starts)
    case SweepBegin => s.(sweep := SweepingRows(s.now - c.retention))
    case SweepRows(ok) => s.(db := if ok then Pruned(s.db, s.sweep.cutoff) else s.db, sweep := Listing(s.sweep.cutoff))
    case SweepList(ok) =>
      s.(sweep := if ok then Deleting(set k | k in s.crs && Prunable(s.crs[k], s.sweep.cutoff)) else Idle)
    case SweepDelete(k, ok) =>
      s.(crs := if ok then s.crs - {k} else s.crs, sweep := Deleting(s.sweep.keys - {k}))
    case SweepEnd => s.(sweep := Idle)
  }

  // ---------- executions ----------

  ghost predicate Initial(s: State) {
    s.crs == map[] && s.db == Tables(map[], [], []) && s.inserted == [] &&
    s.runs == map[] && s.starts == [] && s.sweep == Idle
  }

  /** States ss joined by labels ls; state i+1 is what label i makes of state i. */
  ghost predicate Path(c: Config, ss: seq<State>, ls: seq<Label>) {
    |ss| == |ls| + 1 &&
    forall i :: 0 <= i < |ls| ==> Enabled(c, ss[i], ls[i]) && ss[i + 1] == Step(c, ss[i], ls[i])
  }

  ghost predicate Execution(c: Config, ss: seq<State>, ls: seq<Label>) {
    Path(c, ss, ls) && Initial(ss[0])
  }
}
