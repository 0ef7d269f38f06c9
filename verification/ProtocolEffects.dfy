/** What a reconcile decides and writes, field by field, read off what it was given.

    The last part follows a finished resource back to the agent run that finished it. */
module ProtocolEffects {
  import opened Common
  import opened Timestamps
  import opened IncidentStore
  import opened Protocol
  import opened ProtocolInvariants
  import opened ProtocolTraces
  import Agent = DiagnosisAgent
  import Limiter = RateLimiting

  // ---------- the decision on entry ----------

  /** A diagnosis is under way: marked less than ten minutes ago and not failed to store. */
  predicate UnderWay(st: Status, now: Instant) {
    st.phase == Diagnosing && !st.persisted && st.condition != StorageError &&
    st.startedAt.Some? && now - st.startedAt.value < 10 * MINUTE
  }

  /** Nothing is left to do but to mirror the status. */
  predicate OnlyMirroring(st: Status) {
    st.phase == Done || st.phase == Partial || st.phase == Failed || (st.phase == Diagnosing && st.persisted)
  }

  /** A call leaves at once exactly if the resource is gone or a diagnosis is under way, and
      mirrors exactly if the resource is finished; otherwise it asks for admission.  It works
      with the provider and model of the resource, or else of the configuration. */
  lemma {:induction false} EntryExactly(c: Config, s: State, k: Key)
    requires k !in s.runs
    ensures var s' := Step(c, s, Begin(k));
            s' == s.(runs := s'.runs) && (forall k' :: k' != k ==> Lookup(s'.runs, k') == Lookup(s.runs, k')) &&
            (k in s'.runs <==> k in s.crs && !UnderWay(s.crs[k].status, s.now)) &&
            (k in s'.runs ==>
              var r, spec := s'.runs[k], s.crs[k].spec;
              r.kd == s.crs[k] &&
              r.stage == (if OnlyMirroring(s.crs[k].status) then Mirroring else Deciding) &&
              r.llmProvider == (if spec.llmProvider != "" then spec.llmProvider else c.llmProvider) &&
              r.llmModel == (if spec.llmModel != "" then spec.llmModel else c.llmModel))
  {}

  /** In a reachable state a recorded storage error is retried at the very next call. */
  lemma {:induction false} StorageErrorIsRetried(c: Config, s: State, k: Key)
    requires Inv(s) && k !in s.runs && k in s.crs && s.crs[k].status.condition == StorageError
    requires s.crs[k].status.phase == Diagnosing
    ensures var s' := Step(c, s, Begin(k)); k in s'.runs && s'.runs[k].stage == Deciding
  {
    assert KeyInv(s, k);
  }

  // ---------- the order of effects ----------

  /** Where an effect leads.  The limiter says whether the run is admitted, the agent whether
      it is to be stored.  A failed first upsert, Diagnosing patch or fetch ends the call, a
      failed insert leads to the storage error; the mirrored rows may fail. */
  function Leads(e: Effect, admitted: bool, failed: bool): Option<Stage> {
    match e
    case Mirror(_) => None
    case Admit => Some(if admitted then Admitted else Throttling)
    case Throttle(_) => None
    case ReadClock => Some(Started)
    case StartUpsert(ok) => if ok then Some(Patching) else None
    case PatchDiagnosing(ok) => if ok then Some(Refetching) else None
    case Refetch(ok) => if ok then Some(Running) else None
    case RunAgent(_) => Some(if failed then FailMirroring else Inserting)
    case FailUpsert(_) => Some(FailPatching)
    case PatchFailed(_) => None
    case Insert(ok) => Some(if ok then FinalMirroring else ErrorPatching)
    case PatchStorageError(_) => None
    case FinalUpsert(_) => Some(FinalPatching)
    case PatchFinal(_) => None
  }

  /** A run goes from effect to effect in this order, and each effect changes the one local
      variable it is there for. */
  lemma {:induction false} RunGoesOn(c: Config, s: State, k: Key, e: Effect)
    requires Enabled(c, s, Do(k, e))
    ensures var r, run' := s.runs[k], Lookup(Step(c, s, Do(k, e)).runs, k);
            var admitted := Limiter.Admits(c.limit, HOUR, s.starts, s.now);
            (run'.Some? <==> Leads(e, admitted, false).Some?) &&
            (run'.Some? ==>
              var r' := run'.value;
              Leads(e, admitted, r'.outcome.phase == Failed) == Some(r'.stage) &&
              r'.llmProvider == r.llmProvider && r'.llmModel == r.llmModel &&
              r'.kd == (if e.Refetch? then s.crs[k] else r.kd) &&
              r'.admittedAt == (if e.Admit? && admitted then s.now else r.admittedAt) &&
              r'.startedAt == (if e.ReadClock? then s.now else r.startedAt) &&
              r'.upsertedAt == (if e.StartUpsert? then s.now else r.upsertedAt) &&
              r'.completedAt == (if e.RunAgent? then s.now else r.completedAt) &&
              (!e.RunAgent? ==> r'.outcome == r.outcome))
  {
    DoStep(c, s, k, e);
    if e.RunAgent? {
      AgentGoesOn(c, s, k, e);
    } else {
      OthersGoOn(c, s, k, e);
    }
  }

  lemma {:induction false} AgentGoesOn(c: Config, s: State, k: Key, e: Effect)
    requires Enabled(c, s, Do(k, e)) && e.RunAgent?
    ensures var r, d := s.runs[k], DeltaOf(c, s, k, e);
            d.run.Some? && var r' := d.run.value;
            r' == r.(stage := if r'.outcome.phase == Failed then FailMirroring else Inserting,
                     completedAt := s.now, outcome := r'.outcome)
  {}

  lemma {:induction false} OthersGoOn(c: Config, s: State, k: Key, e: Effect)
    requires Enabled(c, s, Do(k, e)) && !e.RunAgent?
    ensures var r, d := s.runs[k], DeltaOf(c, s, k, e);
            var to := Leads(e, Limiter.Admits(c.limit, HOUR, s.starts, s.now), false);
            (d.run.Some? <==> to.Some?) &&
            (to.Some? ==>
              d.run.value == r.(stage := to.value, kd := if e.Refetch? then s.crs[k] else r.kd,
                                admittedAt := if to == Some(Admitted) then s.now else r.admittedAt,
                                startedAt := if e.ReadClock? then s.now else r.startedAt,
                                upsertedAt := if e.StartUpsert? then s.now else r.upsertedAt))
  {}

  // ---------- status patches ----------

  /** The effect is a status patch that went through. */
  predicate Patches(e: Effect) {
    e == Throttle(true) || e == PatchDiagnosing(true) || e == PatchFailed(true) ||
    e == PatchStorageError(true) || e == PatchFinal(true)
  }

  /** No other effect touches any resource, and a patch touches the status of its own only. */
  lemma {:induction false} OnlyPatchesTouchResources(c: Config, s: State, k: Key, e: Effect)
    requires Enabled(c, s, Do(k, e))
    ensures var s' := Step(c, s, Do(k, e));
            (!Patches(e) ==> s'.crs == s.crs) &&
            (Patches(e) ==> k in s.crs && s'.crs == s.crs[k := s.crs[k].(status := s'.crs[k].status)])
  {}

  /** Done or Partial as the agent ended, with its analysis, if any. */
  lemma {:induction false} FinalPatchShows(c: Config, s: State, k: Key)
    requires Inv(s) && Enabled(c, s, Do(k, PatchFinal(true)))
    ensures var r, was, st := s.runs[k], s.crs[k].status, Step(c, s, Do(k, PatchFinal(true))).crs[k].status;
            st.phase == r.outcome.phase && st.tokensUsed == r.outcome.tokensUsed &&
            (r.outcome.rca.Some? ==>
              st.summary == r.outcome.rca.value.summary && st.rootCause == r.outcome.rca.value.rootCause) &&
            (r.outcome.rca.None? ==> st.summary == "" && st.rootCause == "") &&
            st.completedAt == Some(TruncateToSecond(r.completedAt)) && st.startedAt == was.startedAt &&
            st.llmProvider == r.llmProvider && st.llmModel == r.llmModel &&
            st.persisted && st.condition == Stored && st.promptRedacted == was.promptRedacted
  {
    assert KeyInv(s, k);
    DoStep(c, s, k, PatchFinal(true));
  }

  lemma {:induction false} FailedPatchShows(c: Config, s: State, k: Key)
    requires Enabled(c, s, Do(k, PatchFailed(true)))
    ensures var r, was, st := s.runs[k], s.crs[k].status, Step(c, s, Do(k, PatchFailed(true))).crs[k].status;
            st.phase == Failed && st.tokensUsed == r.outcome.tokensUsed &&
            st.completedAt == Some(TruncateToSecond(r.completedAt)) && st.startedAt == was.startedAt &&
            st.llmProvider == r.llmProvider && st.llmModel == r.llmModel &&
            st.summary == was.summary && st.rootCause == was.rootCause &&
            st.persisted == was.persisted && st.condition == was.condition && st.promptRedacted == was.promptRedacted
  {
    DoStep(c, s, k, PatchFailed(true));
  }

  lemma {:induction false} DiagnosingPatchShows(c: Config, s: State, k: Key)
    requires Enabled(c, s, Do(k, PatchDiagnosing(true)))
    ensures var r, was, st := s.runs[k], s.crs[k].status, Step(c, s, Do(k, PatchDiagnosing(true))).crs[k].status;
            st.phase == Diagnosing && st.startedAt == Some(TruncateToSecond(r.startedAt)) &&
            st.llmProvider == r.llmProvider && st.llmModel == r.llmModel &&
            st.completedAt == was.completedAt && st.tokensUsed == was.tokensUsed &&
            st.summary == was.summary && st.rootCause == was.rootCause &&
            st.persisted == was.persisted && st.condition == was.condition && st.promptRedacted == was.promptRedacted
  {
    DoStep(c, s, k, PatchDiagnosing(true));
  }

  /** The two patches that give an attempt back change nothing but their own mark. */
  lemma {:induction false} ReturningPatchesShow(c: Config, s: State, k: Key, e: Effect)
    requires Enabled(c, s, Do(k, e)) && (e == Throttle(true) || e == PatchStorageError(true))
    ensures var was, st := s.crs[k].status, Step(c, s, Do(k, e)).crs[k].status;
            (e.Throttle? ==> st.phase == Pending && st == was.(phase := Pending)) &&
            (e.PatchStorageError? ==>
              !st.persisted && st.condition == StorageError &&
              st.(persisted := was.persisted, condition := was.condition) == was)
  {
    DoStep(c, s, k, e);
  }

  // ---------- rows ----------

  /** Where each descriptive column comes from. */
  function Described(spec: Spec, llmProvider: string, llmModel: string, f: Field): string {
    match f
    case EventUID => spec.eventUID
    case ObjectKind => spec.objectKind
    case ObjectName => spec.objectName
    case ObjectNamespace => spec.objectNamespace
    case Reason => spec.reason
    case Message => spec.message
    case LLMProvider => llmProvider
    case LLMModel => llmModel
  }

  /** The row of `k` after a successful upsert: described as given, other rows untouched. */
  ghost predicate RowSays(s: State, s': State, k: Key, spec: Spec, llmProvider: string, llmModel: string,
                          life: Lifecycle, updatedAt: Instant)
  {
    s'.db == s.db.(incidents := s'.db.incidents) && s'.db.incidents.Keys == s.db.incidents.Keys + {k} &&
    (forall k' :: k' in s.db.incidents && k' != k ==> s'.db.incidents[k'] == s.db.incidents[k']) &&
    var row, before := s'.db.incidents[k], RowOf(s.db.incidents, k);
    (forall f :: Get(row.cols, f) ==
      if Described(spec, llmProvider, llmModel, f) != "" then Described(spec, llmProvider, llmModel, f)
      else if before.Some? then Get(before.value.cols, f) else "") &&
    StoredLife(row.life, life) && row.updatedAt == updatedAt &&
    row.createdAt == if before.Some? then before.value.createdAt else s.now
  }

  lemma {:induction false} UpsertSays(s: State, s': State, k: Key, inc: Incident, spec: Spec, llmProvider: string,
                                      llmModel: string)
    requires s'.db == s.db.(incidents := Upsert(s.db.incidents, inc, s.now))
    requires inc.key == k && inc.cols == ColumnsOf(spec, llmProvider, llmModel) && inc.createdAt.None?
    ensures RowSays(s, s', k, spec, llmProvider, llmModel, inc.life, OrNow(inc.updatedAt, s.now))
  {
    UpsertWritesRow(s.db.incidents, inc, s.now);
    forall f ensures Get(inc.cols, f) == Described(spec, llmProvider, llmModel, f) {}
  }

  lemma {:induction false} NoRows(s: State)
    ensures s.db.diagnoses + Listed(None) == s.db.diagnoses && s.inserted + Listed(None) == s.inserted
  {}

  /** Before the resource is touched, its row says Diagnosing since the clock was read. */
  lemma {:induction false} StartRowSays(c: Config, s: State, k: Key)
    requires Enabled(c, s, Do(k, StartUpsert(true)))
    ensures var r := s.runs[k];
            RowSays(s, Step(c, s, Do(k, StartUpsert(true))), k, r.kd.spec, r.llmProvider, r.llmModel,
                    Lifecycle(Diagnosing, Some(r.startedAt), None, 0, false, false), s.now)
  {
    var r := s.runs[k];
    NoRows(s);
    UpsertSays(s, Step(c, s, Do(k, StartUpsert(true))), k, StartIncident(k, r), r.kd.spec, r.llmProvider, r.llmModel);
  }

  /** At the end its row says how the agent ended, persisted exactly after an insert. */
  lemma {:induction false} EndRowSays(c: Config, s: State, k: Key, e: Effect)
    requires Enabled(c, s, Do(k, e)) && (e == FailUpsert(true) || e == FinalUpsert(true))
    ensures var r := s.runs[k];
            RowSays(s, Step(c, s, Do(k, e)), k, r.kd.spec, r.llmProvider, r.llmModel,
                    Lifecycle(r.outcome.phase, Some(r.startedAt), Some(r.completedAt), r.outcome.tokensUsed, false,
                              e.FinalUpsert?), s.now)
  {
    var r := s.runs[k];
    NoRows(s);
    UpsertSays(s, Step(c, s, Do(k, e)), k, EndIncident(k, r, e.FinalUpsert?), r.kd.spec, r.llmProvider, r.llmModel);
  }

  /** The mirror of a finished resource says what its status says, dated at completion. */
  lemma {:induction false} MirrorRowSays(c: Config, s: State, k: Key)
    requires Inv(s) && Enabled(c, s, Do(k, Mirror(true)))
    ensures var kd := s.runs[k].kd;
            var st := kd.status;
            st.completedAt.Some? &&
            RowSays(s, Step(c, s, Do(k, Mirror(true))), k, kd.spec, st.llmProvider, st.llmModel,
                    Lifecycle(st.phase, st.startedAt, st.completedAt, st.tokensUsed, st.promptRedacted, st.persisted),
                    st.completedAt.value)
  {
    assert KeyInv(s, k);
    var kd := s.runs[k].kd;
    NoRows(s);
    UpsertSays(s, Step(c, s, Do(k, Mirror(true))), k, MirrorOf(k, kd),
               kd.spec, kd.status.llmProvider, kd.status.llmModel);
  }

  /** A list joined by a separator: nothing for none, itself for one, and the separator
      between any two parts. */
  lemma {:induction false} JoinsParts(a: seq<string>, b: seq<string>, sep: string)
    ensures Join([], sep) == "" && (|a| == 1 ==> Join(a, sep) == a[0])
    ensures a != [] && b != [] ==> Join(a + b, sep) == Join(a, sep) + sep + Join(b, sep)
    decreases |a|
  {
    if |a| == 1 {
      assert (a + b)[0] == a[0] && (a + b)[1..] == b;
    } else if |a| > 1 && b != [] {
      JoinsParts(a[1..], b, sep);
      assert (a + b)[0] == a[0] && (a + b)[1..] == a[1..] + b;
      assert a[0] + sep + (Join(a[1..], sep) + sep + Join(b, sep)) ==
             a[0] + sep + Join(a[1..], sep) + sep + Join(b, sep);
    }
  }

  /** The inserted row holds the analysis of the outcome, or none. */
  lemma {:induction false} InsertedRowSays(c: Config, s: State, k: Key) returns (d: Diagnosis)
    requires Enabled(c, s, Do(k, Insert(true)))
    ensures var s', o := Step(c, s, Do(k, Insert(true))), s.runs[k].outcome;
            s'.db == s.db.(diagnoses := s.db.diagnoses + [d]) && s'.inserted == s.inserted + [d] &&
            d.key == k && d.eventUID == s.runs[k].kd.spec.eventUID &&
            d.reasoning == o.reasoning && d.createdAt == s.now &&
            (o.rca.Some? ==>
              d.summary == o.rca.value.summary && d.rootCause == o.rca.value.rootCause &&
              d.remediation == Join(o.rca.value.remediationSteps, "; ")) &&
            (o.rca.None? ==> d.summary == "" && d.rootCause == "" && d.remediation == "")
  {
    d := DiagnosisRow(k, s.runs[k], s.now);
  }

  // ---------- from a finished resource back to its agent run ----------

  /** The iteration cap: the resource's, or else the configured one, or else five. */
  function Cap(c: Config, spec: Spec): nat {
    var wanted := if spec.maxIterations.Some? then spec.maxIterations.value else c.maxIter;
    if wanted > 0 then wanted else 5
  }

  /** The step is an agent run for `k` that ends at `at` with outcome `o`. */
  ghost predicate AgentEnds(c: Config, s: State, l: Label, k: Key, o: Agent.Outcome, at: Instant) {
    l.Do? && l.k == k && l.e.RunAgent? && k in s.runs && at == s.now &&
    o == Agent.OutcomeOf(l.e.session, Cap(c, s.runs[k].kd.spec))
  }

  /** A run past its agent carries the outcome of the agent run it performed. */
  lemma {:induction false} RunCarriesOutcome(c: Config, ss: seq<State>, ls: seq<Label>, j: nat, k: Key) returns (a: nat)
    requires Execution(c, ss, ls) && j < |ss| && k in ss[j].runs && AfterAgent(ss[j].runs[k].stage)
    ensures a < j && AgentEnds(c, ss[a], ls[a], k, ss[j].runs[k].outcome, ss[j].runs[k].completedAt)
    ensures forall m :: a < m <= j ==> k in ss[m].runs && AfterAgent(ss[m].runs[k].stage)
  {
    var s, l := ss[j - 1], ls[j - 1];
    assert Enabled(c, s, l) && ss[j] == Step(c, s, l);
    OutcomeStep(c, s, l, k);
    if k in s.runs && AfterAgent(s.runs[k].stage) {
      a := RunCarriesOutcome(c, ss, ls, j - 1, k);
    } else {
      a := j - 1;
    }
  }

  lemma {:induction false} OutcomeStep(c: Config, s: State, l: Label, k: Key)
    requires Enabled(c, s, l)
    requires var s' := Step(c, s, l); k in s'.runs && AfterAgent(s'.runs[k].stage)
    ensures var r := Step(c, s, l).runs[k];
            if k in s.runs && AfterAgent(s.runs[k].stage)
            then r.outcome == s.runs[k].outcome && r.completedAt == s.runs[k].completedAt
            else AgentEnds(c, s, l, k, r.outcome, r.completedAt)
  {
    if !Concerns(l, k) {
      StepFrame(c, s, l, k);
    } else if l.Do? {
      if l.e.RunAgent? {
        AgentStepOutcome(c, s, k, l.e);
      } else {
        OtherStepOutcome(c, s, k, l.e);
      }
    }
  }

  lemma {:induction false} AgentStepOutcome(c: Config, s: State, k: Key, e: Effect)
    requires Enabled(c, s, Do(k, e)) && e.RunAgent?
    ensures var run := Lookup(Step(c, s, Do(k, e)).runs, k);
            !AfterAgent(s.runs[k].stage) && run.Some? &&
            AgentEnds(c, s, Do(k, e), k, run.value.outcome, run.value.completedAt)
  {
    RunAfter(c, s, k, e);
    AgentActEnds(c, s, k, e, Act(c, s.now, s.starts, k, Lookup(s.crs, k), s.runs[k], e).run);
  }

  lemma {:induction false} AgentActEnds(c: Config, s: State, k: Key, e: Effect, run: Option<Run>)
    requires Enabled(c, s, Do(k, e)) && e.RunAgent?
    requires run == Act(c, s.now, s.starts, k, Lookup(s.crs, k), s.runs[k], e).run
    ensures run.Some? && AgentEnds(c, s, Do(k, e), k, run.value.outcome, run.value.completedAt)
  {
    AgentOutcome(c, s.now, s.starts, k, Lookup(s.crs, k), s.runs[k], e);
  }

  lemma {:induction false} RunAfter(c: Config, s: State, k: Key, e: Effect)
    requires Enabled(c, s, Do(k, e))
    ensures Lookup(Step(c, s, Do(k, e)).runs, k) == Act(c, s.now, s.starts, k, Lookup(s.crs, k), s.runs[k], e).run
  {}

  lemma {:induction false} OtherStepOutcome(c: Config, s: State, k: Key, e: Effect)
    requires Enabled(c, s, Do(k, e)) && !e.RunAgent?
    ensures var s' := Step(c, s, Do(k, e));
            k in s'.runs && AfterAgent(s'.runs[k].stage) ==>
              AfterAgent(s.runs[k].stage) && s'.runs[k].outcome == s.runs[k].outcome &&
              s'.runs[k].completedAt == s.runs[k].completedAt
  {
    DoStep(c, s, k, e);
    OutcomeStays(c, s.now, s.starts, k, Lookup(s.crs, k), s.runs[k], e);
  }

  lemma {:induction false} AgentOutcome(c: Config, now: Instant, starts: seq<int>, k: Key, cr: Option<Resource>, r: Run,
                                        e: Effect)
    requires CanAct(r, cr, e) && e.RunAgent?
    ensures var d := Act(c, now, starts, k, cr, r, e);
            d.run.Some? && d.run.value.outcome == Agent.OutcomeOf(e.session, Cap(c, r.kd.spec)) &&
            d.run.value.completedAt == now
  {}

  lemma {:induction false} OutcomeStays(c: Config, now: Instant, starts: seq<int>, k: Key, cr: Option<Resource>, r: Run,
                                        e: Effect)
    requires CanAct(r, cr, e) && !e.RunAgent?
    ensures var d := Act(c, now, starts, k, cr, r, e);
            d.run.Some? && AfterAgent(d.run.value.stage) ==>
              AfterAgent(r.stage) && d.run.value.outcome == r.outcome && d.run.value.completedAt == r.completedAt
  {}

  /** The status tells how the agent ended. */
  predicate Tells(st: Status, o: Agent.Outcome, at: Instant) {
    st.phase == o.phase && st.tokensUsed == o.tokensUsed && st.completedAt == Some(TruncateToSecond(at)) &&
    st.summary == (if o.rca.Some? then o.rca.value.summary else "") &&
    st.rootCause == (if o.rca.Some? then o.rca.value.rootCause else "")
  }

  /** Every finished resource tells the outcome of one agent run for its key: Done exactly if
      that one was Done, with its tokens, its analysis and the second in which it ended. */
  lemma {:induction false} FinishedTellsOutcome(c: Config, ss: seq<State>, ls: seq<Label>, j: nat, k: Key)
    returns (a: nat, o: Agent.Outcome)
    requires Execution(c, ss, ls) && j < |ss| && IsTerminal(ss[j], k)
    ensures a < j && AgentEnds(c, ss[a], ls[a], k, o, ss[a].now) && Tells(ss[j].crs[k].status, o, ss[a].now)
  {
    var s, l := ss[j - 1], ls[j - 1];
    assert Enabled(c, s, l) && ss[j] == Step(c, s, l);
    ReachableInv(c, ss, ls, j - 1);
    if IsTerminal(s, k) {
      TerminalAbsorbs(c, s, l, k);
      a, o := FinishedTellsOutcome(c, ss, ls, j - 1, k);
    } else {
      if k in s.runs && AfterAgent(s.runs[k].stage) {
        a := RunCarriesOutcome(c, ss, ls, j - 1, k);
      }
      FinishingStepTells(c, s, l, k);
      o := s.runs[k].outcome;
    }
  }

  predicate DoneWithAnalysis(o: Agent.Outcome) {
    o.phase == Done <==> o.rca.Some?
  }

  lemma {:induction false} FinishingStepTells(c: Config, s: State, l: Label, k: Key)
    requires Inv(s) && Enabled(c, s, l) && !IsTerminal(s, k) && IsTerminal(Step(c, s, l), k)
    requires k in s.runs && AfterAgent(s.runs[k].stage) ==> DoneWithAnalysis(s.runs[k].outcome)
    ensures k in s.runs && AfterAgent(s.runs[k].stage)
    ensures Tells(Step(c, s, l).crs[k].status, s.runs[k].outcome, s.runs[k].completedAt)
  {
    if !Concerns(l, k) {
      StepFrame(c, s, l, k);
    } else if l.Do? {
      assert KeyInv(s, k);
      DoStep(c, s, k, l.e);
      ActTells(c, s.now, s.starts, s.inserted, k, Lookup(s.crs, k), s.runs[k], l.e);
    }
  }

  lemma {:induction false} ActTells(c: Config, now: Instant, starts: seq<int>, inserted: seq<Diagnosis>, k: Key,
                                    cr: Option<Resource>, r: Run, e: Effect)
    requires ViewOk(now, inserted, k, cr, Some(r)) && CanAct(r, cr, e) && r.stage != Mirroring
    requires AfterAgent(r.stage) ==> DoneWithAnalysis(r.outcome)
    ensures var d := Act(c, now, starts, k, cr, r, e);
            d.status.Some? && Terminal(d.status.value.phase) ==>
              AfterAgent(r.stage) && Tells(d.status.value, r.outcome, r.completedAt)
  {}

  /** So a Done resource always shows a summary and a root cause, any other none. */
  lemma {:induction false} DoneShowsAnalysis(c: Config, ss: seq<State>, ls: seq<Label>, j: nat, k: Key)
    requires Execution(c, ss, ls) && j < |ss| && k in ss[j].crs
    ensures var st := ss[j].crs[k].status;
            if st.phase == Done then st.summary != "" && st.rootCause != "" else st.summary == "" && st.rootCause == ""
  {
    if IsTerminal(ss[j], k) {
      var a, o := FinishedTellsOutcome(c, ss, ls, j, k);
    } else {
      ReachableInv(c, ss, ls, j);
      assert KeyInv(ss[j], k);
    }
  }
}
