/** The reconciler and the resource pruner as the imperative code they are.

    `Operator` holds what the code works on: the resources behind the API server, the
    SQLite tables and the limiter's memory.  Every external effect of `Reconcile` is shown
    to be the protocol step of its label, so a call is a path of the protocol, and every
    property of executions applies to it. */
module Controller {
  import opened Common
  import opened Timestamps
  import opened IncidentStore
  import opened Protocol
  import Agent = DiagnosisAgent
  import Limiter = RateLimiting

  /** Which effects of one call go through, and how long it waits before some of them. */
  datatype Script = Script(
    mirror: bool, throttle: bool, start: bool, diagnosing: bool, refetch: bool, failMirror: bool, fail: bool,
    insert: bool, storageError: bool, finalMirror: bool, final: bool,
    session: Agent.Session, waits: nat -> nat)

  /** The effect turns out as the script says; patches also need the resource. */
  predicate Obeys(sc: Script, exists_: bool, e: Effect) {
    match e
    case Mirror(ok) => ok == sc.mirror
    case Throttle(ok) => ok == (sc.throttle && exists_)
    case StartUpsert(ok) => ok == sc.start
    case PatchDiagnosing(ok) => ok == (sc.diagnosing && exists_)
    case Refetch(ok) => ok == (sc.refetch && exists_)
    case FailUpsert(ok) => ok == sc.failMirror
    case PatchFailed(ok) => ok == (sc.fail && exists_)
    case Insert(ok) => ok == sc.insert
    case PatchStorageError(ok) => ok == (sc.storageError && exists_)
    case FinalUpsert(ok) => ok == sc.finalMirror
    case PatchFinal(ok) => ok == (sc.final && exists_)
    case _ => true
  }

  /** A label of a call about `k`: time passing, its entry, or an effect of its own run. */
  ghost predicate Own(sc: Script, s: State, l: Label, k: Key) {
    l.Tick? || l == Begin(k) ||
    (l.Do? && l.k == k && Obeys(sc, k in s.crs, l.e) && (l.e.RunAgent? ==> l.e.session == sc.session))
  }

  ghost predicate OwnPath(c: Config, ss: seq<State>, ls: seq<Label>, k: Key, sc: Script) {
    Path(c, ss, ls) && (ls != [] ==> ls[0] == Begin(k)) &&
    forall i :: 0 <= i < |ls| ==> Own(sc, ss[i], ls[i], k)
  }

  lemma {:induction false} Extend(c: Config, ss: seq<State>, ls: seq<Label>, k: Key, sc: Script, l: Label)
    requires OwnPath(c, ss, ls, k, sc) && Enabled(c, ss[|ls|], l) && Own(sc, ss[|ls|], l, k)
    requires ls == [] ==> l == Begin(k)
    ensures OwnPath(c, ss + [Step(c, ss[|ls|], l)], ls + [l], k, sc)
  {
    var ss', ls' := ss + [Step(c, ss[|ls|], l)], ls + [l];
    forall i | 0 <= i < |ls'|
      ensures Enabled(c, ss'[i], ls'[i]) && ss'[i + 1] == Step(c, ss'[i], ls'[i]) && Own(sc, ss'[i], ls'[i], k)
    {
      assert ss'[i] == ss[i] && (i < |ls| ==> ss'[i + 1] == ss[i + 1] && ls'[i] == ls[i]);
    }
  }

  /** A run with the agent's outcome. */
  function Concluding(r: Run, o: Agent.Outcome, now: Instant): Run {
    r.(stage := if o.phase == Failed then FailMirroring else Inserting, completedAt := now, outcome := o)
  }

  /** What running the agent makes of a state. */
  lemma {:induction false} AgentStep(c: Config, s: State, k: Key, session: Agent.Session, o: Agent.Outcome)
    requires k in s.runs && s.runs[k].stage == Running && o == Agent.OutcomeOf(session, CapFor(c, s.runs[k].kd))
    ensures Enabled(c, s, Do(k, RunAgent(session)))
    ensures Step(c, s, Do(k, RunAgent(session))) == s.(runs := s.runs[k := Concluding(s.runs[k], o, s.now)])
  {
    assert s.db.diagnoses + [] == s.db.diagnoses && s.inserted + [] == s.inserted;
  }

  /** A run with the limiter's answer. */
  function Answered(r: Run, ok: bool, now: Instant): Run {
    if ok then r.(stage := Admitted, admittedAt := now) else r.(stage := Throttling)
  }

  /** What asking the limiter makes of a state. */
  lemma {:induction false} AdmitEffect(c: Config, s: State, k: Key)
    requires k in s.runs && s.runs[k].stage == Deciding
    ensures var ok := Limiter.Admits(c.limit, WINDOW, s.starts, s.now);
            Enabled(c, s, Do(k, Admit)) &&
            Step(c, s, Do(k, Admit)) ==
            s.(runs := s.runs[k := Answered(s.runs[k], ok, s.now)],
               starts := Limiter.Recorded(c.limit, WINDOW, s.starts, s.now))
  {
    assert s.db.diagnoses + [] == s.db.diagnoses && s.inserted + [] == s.inserted;
  }

  class Operator {
    const cfg: Config
    var now: Instant
    var crs: map<Key, Resource>
    const store: Store
    const limiter: Limiter.RateLimiter
    ghost var inserted: seq<Diagnosis>
    ghost var runs: map<Key, Run>
    ghost var sweep: Sweep
    ghost var ss: seq<State>
    ghost var ls: seq<Label>

    constructor (cfg: Config, now: Instant)
      ensures this.cfg == cfg && this.now == now && Ready() && Initial(View())
      ensures fresh(store) && fresh(limiter) && fresh(limiter.buf)
    {
      this.cfg, this.now, crs := cfg, now, map[];
      store := new Store();
      limiter := new Limiter.RateLimiter(cfg.limit, WINDOW);
      inserted, runs, sweep, ss, ls := [], map[], Idle, [], [];
    }

    /** The limiter is the configured one and has not been called in the future. */
    ghost predicate Ready()
      reads this, limiter, limiter.buf
    {
      limiter.Valid() && limiter.limit == cfg.limit && limiter.window == WINDOW &&
      (limiter.calls != [] ==> limiter.calls[|limiter.calls| - 1] <= now)
    }

    ghost function View(): State
      reads this, store, limiter, limiter.buf
    {
      State(now, crs, store.tables, inserted, runs, limiter.Starts(), sweep)
    }

    /** The call so far is a path of steps about `k` that ends in the present state. */
    ghost predicate Following(k: Key, sc: Script)
      reads this, store, limiter, limiter.buf
    {
      OwnPath(cfg, ss, ls, k, sc) && ss[|ls|] == View()
    }

    /** The call has entered, followed the protocol and left no run behind. */
    ghost predicate Ended(k: Key, sc: Script, first: State)
      reads this, store, limiter, limiter.buf
    {
      Following(k, sc) && ss[0] == first && ls != [] && k !in runs
    }

    /** Record that the fields have been changed as the step of `l` changes them. */
    ghost method Log(l: Label, s: State, k: Key, sc: Script)
      requires OwnPath(cfg, ss, ls, k, sc) && ss[|ls|] == s && Enabled(cfg, s, l) && Own(sc, s, l, k)
      requires ls == [] ==> l == Begin(k)
      requires var s' := Step(cfg, s, l);
               now == s'.now && crs == s'.crs && store.tables == s'.db && limiter.Starts() == s'.starts &&
               sweep == s'.sweep
      modifies this`inserted, this`runs, this`ss, this`ls
      ensures Following(k, sc) && View() == Step(cfg, s, l) && ss[0] == old(ss)[0] && ls != []
    {
      Extend(cfg, ss, ls, k, sc, l);
      inserted, runs := Step(cfg, s, l).inserted, Step(cfg, s, l).runs;
      ss, ls := ss + [Step(cfg, s, l)], ls + [l];
    }

    /** Time passes. */
    method Wait(d: nat, ghost k: Key, ghost sc: Script)
      requires Following(k, sc) && ls != []
      modifies this`now, this`inserted, this`runs, this`ss, this`ls
      ensures Following(k, sc) && ss[0] == old(ss)[0] && ls != []
      ensures runs == old(runs) && inserted == old(inserted) && now >= old(now)
    {
      if InRange(now + d) {
        ghost var s := View();
        now := now + d;
        Log(Tick(d), s, k, sc);
      }
    }

    /** Fetch, mutate, update: fails without effect if the resource is gone or the API does. */
    method PatchStatus(k: Key, mutate: Status -> Status, allowed: bool) returns (ok: bool)
      modifies this`crs
      ensures ok == (allowed && k in old(crs))
      ensures crs == if ok then old(crs)[k := old(crs)[k].(status := mutate(old(crs)[k].status))] else old(crs)
    {
      if k !in crs || !allowed {
        return false;
      }
      var cur := crs[k];
      crs := crs[k := cur.(status := mutate(cur.status))];
      return true;
    }

    /** The run of `k` stands at `stage` with these local variables. */
    ghost predicate Locals(k: Key, stage: Stage, kd: Resource, llmProvider: string, llmModel: string)
      reads this
    {
      k in runs && runs[k].stage == stage && runs[k].kd == kd &&
      runs[k].llmProvider == llmProvider && runs[k].llmModel == llmModel
    }

    /** Reconcile one resource: from whatever it finds to the end of the call. */
    method Reconcile(k: Key, sc: Script)
      requires k !in runs && Ready()
      modifies this, store, limiter, limiter.buf
      ensures Ended(k, sc, old(View())) && Ready() && (limiter.buf == old(limiter.buf) || fresh(limiter.buf))
    {
      Enter(k, sc);
      if k !in crs {
        return;
      }
      var kd := crs[k];
      var decision := Decision(kd.status);
      match decision {
        case GoMirror => MirrorTerminal(k, kd, sc);
        case GoSkip =>
        case GoProceed => Admission(k, kd, sc);
      }
    }

    /** The call begins: its run stands where the state of the resource puts it. */
    ghost method Enter(k: Key, sc: Script)
      requires k !in runs
      modifies this`inserted, this`runs, this`ss, this`ls
      ensures Following(k, sc) && ls != [] && ss[0] == old(View())
      ensures k !in crs ==> k !in runs
      ensures k in crs ==>
              match Decide(crs[k].status, now)
              case GoMirror => k in runs && runs[k] == NewRun(cfg, crs[k], Mirroring)
              case GoSkip => k !in runs
              case GoProceed => k in runs && runs[k] == NewRun(cfg, crs[k], Deciding)
    {
      ghost var s := View();
      ss, ls := [s], [];
      Log(Begin(k), s, k, sc);
    }

    /** Proceed for a new resource, a recorded storage error or a stale start. */
    method Decision(st: Status) returns (d: Decision)
      ensures d == Decide(st, now)
    {
      match st.phase {
        case Unset =>
        case Pending =>
        case Diagnosing =>
          if st.persisted {
            return GoMirror;
          }
          if st.condition != StorageError && !IsStale(st, now) {
            return GoSkip;
          }
        case _ => return GoMirror;
      }
      return GoProceed;
    }

    method MirrorTerminal(k: Key, kd: Resource, sc: Script)
      requires Following(k, sc) && ls != [] && k in runs && runs[k].stage == Mirroring && runs[k].kd == kd
      modifies this, store
      ensures Ended(k, sc, old(ss)[0]) && now >= old(now)
    {
      ghost var s := View();
      var ok := store.UpsertIncident(MirrorOf(k, kd), now, !sc.mirror);
      Log(Do(k, Mirror(ok)), s, k, sc);
    }

    /** The limiter; over the limit the resource goes back to Pending. */
    method Admission(k: Key, kd: Resource, sc: Script)
      requires Following(k, sc) && ls != [] && k in runs && runs[k] == NewRun(cfg, kd, Deciding) && Ready()
      modifies this, store, limiter, limiter.buf
      ensures Ended(k, sc, old(ss)[0]) && Ready() && (limiter.buf == old(limiter.buf) || fresh(limiter.buf))
    {
      var ok := AskLimiter(k, kd, sc);
      if ok {
        StartDiagnosis(k, kd, sc);
      } else {
        BackToPending(k, sc);
      }
    }

    method AskLimiter(k: Key, kd: Resource, sc: Script) returns (ok: bool)
      requires Following(k, sc) && ls != [] && k in runs && runs[k] == NewRun(cfg, kd, Deciding) && Ready()
      modifies this, limiter, limiter.buf
      ensures Following(k, sc) && ls != [] && ss[0] == old(ss)[0]
      ensures Ready() && (limiter.buf == old(limiter.buf) || fresh(limiter.buf))
      ensures k in runs && runs[k] == Answered(NewRun(cfg, kd, Deciding), ok, now)
    {
      Wait(sc.waits(0), k, sc);
      ghost var s := View();
      ok := Allow();
      AdmitEffect(cfg, s, k);
      Log(Do(k, Admit), s, k, sc);
    }

    method Allow() returns (ok: bool)
      requires Ready()
      modifies limiter, limiter.buf
      ensures Ready() && (limiter.buf == old(limiter.buf) || fresh(limiter.buf))
      ensures ok == Limiter.Admits(cfg.limit, WINDOW, old(limiter.Starts()), now)
      ensures limiter.Starts() == Limiter.Recorded(cfg.limit, WINDOW, old(limiter.Starts()), now)
    {
      ok := limiter.Allow(now);
    }

    method BackToPending(k: Key, sc: Script)
      requires Following(k, sc) && ls != [] && k in runs && runs[k].stage == Throttling
      modifies this, store
      ensures Ended(k, sc, old(ss)[0]) && now >= old(now)
    {
      ghost var s := View();
      var ok := PatchStatus(k, (o: Status) => o.(phase := Pending), sc.throttle);
      Log(Do(k, Throttle(ok)), s, k, sc);
    }

    /** Mirror the start to SQLite before the resource is touched. */
    method StartDiagnosis(k: Key, kd: Resource, sc: Script)
      requires Following(k, sc) && ls != []
      requires Locals(k, Admitted, kd,
                      OrElse(kd.spec.llmProvider, cfg.llmProvider), OrElse(kd.spec.llmModel, cfg.llmModel))
      modifies this, store
      ensures Ended(k, sc, old(ss)[0]) && now >= old(now)
    {
      ghost var s := View();
      var started := now;
      var llmProvider := if kd.spec.llmProvider != "" then kd.spec.llmProvider else cfg.llmProvider;
      var llmModel := if kd.spec.llmModel != "" then kd.spec.llmModel else cfg.llmModel;
      Log(Do(k, ReadClock), s, k, sc);
      MirrorStart(k, kd, llmProvider, llmModel, started, sc);
    }

    method MirrorStart(k: Key, kd: Resource, llmProvider: string, llmModel: string, started: Instant, sc: Script)
      requires Following(k, sc) && ls != []
      requires Locals(k, Started, kd, llmProvider, llmModel) && runs[k].startedAt == started
      modifies this, store
      ensures Ended(k, sc, old(ss)[0]) && now >= old(now)
    {
      Wait(sc.waits(1), k, sc);
      ghost var s := View();
      var inc := Incident(k, ColumnsOf(kd.spec, llmProvider, llmModel),
                          Lifecycle(Diagnosing, Some(started), None, 0, false, false), None, None);
      var ok := store.UpsertIncident(inc, now, !sc.start);
      Log(Do(k, StartUpsert(ok)), s, k, sc);
      if ok {
        EnterDiagnosing(k, kd, llmProvider, llmModel, started, sc);
      }
    }

    /** Patch the resource to Diagnosing and fetch it afresh. */
    method EnterDiagnosing(k: Key, old_: Resource, llmProvider: string, llmModel: string, started: Instant, sc: Script)
      requires Following(k, sc) && ls != []
      requires Locals(k, Patching, old_, llmProvider, llmModel) && runs[k].startedAt == started
      modifies this, store
      ensures Ended(k, sc, old(ss)[0]) && now >= old(now)
    {
      ghost var s := View();
      var ok := PatchStatus(k, (o: Status) =>
        o.(phase := Diagnosing, startedAt := Some(TruncateToSecond(started)),
           llmProvider := llmProvider, llmModel := llmModel),
        sc.diagnosing);
      Log(Do(k, PatchDiagnosing(ok)), s, k, sc);
      if ok {
        FetchAgain(k, old_, llmProvider, llmModel, started, sc);
      }
    }

    method FetchAgain(k: Key, old_: Resource, llmProvider: string, llmModel: string, started: Instant, sc: Script)
      requires Following(k, sc) && ls != []
      requires Locals(k, Refetching, old_, llmProvider, llmModel) && runs[k].startedAt == started
      modifies this, store
      ensures Ended(k, sc, old(ss)[0]) && now >= old(now)
    {
      ghost var s := View();
      if k !in crs || !sc.refetch {
        Log(Do(k, Refetch(false)), s, k, sc);
        return;
      }
      var kd := crs[k];
      Log(Do(k, Refetch(true)), s, k, sc);
      Diagnose(k, kd, llmProvider, llmModel, started, sc);
    }

    /** Run the agent, then record its outcome. */
    method Diagnose(k: Key, kd: Resource, llmProvider: string, llmModel: string, started: Instant, sc: Script)
      requires Following(k, sc) && ls != []
      requires Locals(k, Running, kd, llmProvider, llmModel) && runs[k].startedAt == started
      modifies this, store
      ensures Ended(k, sc, old(ss)[0]) && now >= old(now)
    {
      Wait(sc.waits(2), k, sc);
      var outcome, completed := AgentEffect(k, kd, llmProvider, llmModel, started, sc);
      Record(k, kd, llmProvider, llmModel, started, completed, outcome, sc);
    }

    method AgentEffect(k: Key, kd: Resource, llmProvider: string, llmModel: string, started: Instant, sc: Script)
      returns (outcome: Agent.Outcome, completed: Instant)
      requires Following(k, sc) && ls != []
      requires Locals(k, Running, kd, llmProvider, llmModel) && runs[k].startedAt == started
      modifies this, store
      ensures Following(k, sc) && ls != [] && ss[0] == old(ss)[0] && now >= old(now)
      ensures Finished(k, if outcome.phase == Failed then FailMirroring else Inserting, kd, llmProvider, llmModel,
                       started, completed, outcome)
    {
      outcome := RunAgentFor(kd, sc.session);
      completed := now;
      LogAgent(k, kd, outcome, sc);
    }

    ghost method LogAgent(k: Key, kd: Resource, outcome: Agent.Outcome, sc: Script)
      requires Following(k, sc) && ls != [] && k in runs && runs[k].stage == Running && runs[k].kd == kd
      requires outcome == Agent.OutcomeOf(sc.session, CapFor(cfg, kd))
      modifies this`inserted, this`runs, this`ss, this`ls
      ensures Following(k, sc) && ls != [] && ss[0] == old(ss)[0]
      ensures k in runs && runs[k] == Concluding(old(runs)[k], outcome, now)
    {
      ghost var s := View();
      AgentStep(cfg, s, k, sc.session, outcome);
      Log(Do(k, RunAgent(sc.session)), s, k, sc);
    }

    /** The cap in the resource wins over the operator's. */
    method RunAgentFor(kd: Resource, session: Agent.Session) returns (outcome: Agent.Outcome)
      ensures outcome == Agent.OutcomeOf(session, CapFor(cfg, kd))
    {
      var maxIter := cfg.maxIter;
      if kd.spec.maxIterations.Some? {
        maxIter := kd.spec.maxIterations.value;
      }
      var sent;
      outcome, sent := Agent.Run(session, maxIter);
    }

    method Record(k: Key, kd: Resource, llmProvider: string, llmModel: string, started: Instant, completed: Instant,
                  outcome: Agent.Outcome, sc: Script)
      requires Following(k, sc) && ls != []
      requires Finished(k, if outcome.phase == Failed then FailMirroring else Inserting, kd, llmProvider, llmModel,
                        started, completed, outcome)
      modifies this, store
      ensures Ended(k, sc, old(ss)[0]) && now >= old(now)
    {
      Wait(sc.waits(3), k, sc);
      if outcome.phase == Failed {
        RecordFailure(k, kd, llmProvider, llmModel, started, completed, outcome, sc);
      } else {
        RecordDiagnosis(k, kd, llmProvider, llmModel, started, completed, outcome, sc);
      }
    }

    ghost predicate Finished(k: Key, stage: Stage, kd: Resource, llmProvider: string, llmModel: string,
                             started: Instant, completed: Instant, outcome: Agent.Outcome)
      reads this
    {
      Locals(k, stage, kd, llmProvider, llmModel) &&
      runs[k].startedAt == started && runs[k].completedAt == completed && runs[k].outcome == outcome
    }

    /** Provider failure: best-effort row, then Failed. */
    method RecordFailure(k: Key, kd: Resource, llmProvider: string, llmModel: string, started: Instant,
                         completed: Instant, outcome: Agent.Outcome, sc: Script)
      requires Following(k, sc) && ls != []
      requires Finished(k, FailMirroring, kd, llmProvider, llmModel, started, completed, outcome)
      modifies this, store
      ensures Ended(k, sc, old(ss)[0]) && now >= old(now)
    {
      ghost var s := View();
      var inc := Incident(k, ColumnsOf(kd.spec, llmProvider, llmModel),
                          Lifecycle(outcome.phase, Some(started), Some(completed), outcome.tokensUsed, false, false),
                          None, None);
      var mirrored := store.UpsertIncident(inc, now, !sc.failMirror);
      Log(Do(k, FailUpsert(mirrored)), s, k, sc);
      MarkFailed(k, kd, llmProvider, llmModel, started, completed, outcome, sc);
    }

    method MarkFailed(k: Key, kd: Resource, llmProvider: string, llmModel: string, started: Instant,
                      completed: Instant, outcome: Agent.Outcome, sc: Script)
      requires Following(k, sc) && ls != []
      requires Finished(k, FailPatching, kd, llmProvider, llmModel, started, completed, outcome)
      modifies this, store
      ensures Ended(k, sc, old(ss)[0]) && now >= old(now)
    {
      ghost var s := View();
      var ok := PatchStatus(k, (o: Status) =>
        o.(phase := Failed, completedAt := Some(TruncateToSecond(completed)),
           llmProvider := llmProvider, llmModel := llmModel, tokensUsed := outcome.tokensUsed),
        sc.fail);
      Log(Do(k, PatchFailed(ok)), s, k, sc);
    }

    /** The row first; only after it the resource may become Done or Partial. */
    method RecordDiagnosis(k: Key, kd: Resource, llmProvider: string, llmModel: string, started: Instant,
                           completed: Instant, outcome: Agent.Outcome, sc: Script)
      requires Following(k, sc) && ls != []
      requires Finished(k, Inserting, kd, llmProvider, llmModel, started, completed, outcome)
      modifies this, store
      ensures Ended(k, sc, old(ss)[0]) && now >= old(now)
    {
      ghost var s := View();
      var row := Diagnosis(k, kd.spec.eventUID, "", "", "", outcome.reasoning, now);
      if outcome.rca.Some? {
        var rca := outcome.rca.value;
        row := row.(summary := rca.summary, rootCause := rca.rootCause,
                    remediation := Join(rca.remediationSteps, "; "));
      }
      var ok := store.InsertDiagnosis(row, now, !sc.insert);
      Log(Do(k, Insert(ok)), s, k, sc);
      if ok {
        ConcludeResource(k, kd, llmProvider, llmModel, started, completed, outcome, sc);
      } else {
        MarkStorageError(k, sc);
      }
    }

    method MarkStorageError(k: Key, sc: Script)
      requires Following(k, sc) && ls != [] && k in runs && runs[k].stage == ErrorPatching
      modifies this, store
      ensures Ended(k, sc, old(ss)[0]) && now >= old(now)
    {
      ghost var s := View();
      var ok := PatchStatus(k, (o: Status) => o.(persisted := false, condition := StorageError), sc.storageError);
      Log(Do(k, PatchStorageError(ok)), s, k, sc);
    }

    /** Best-effort row, then the final phase. */
    method ConcludeResource(k: Key, kd: Resource, llmProvider: string, llmModel: string, started: Instant,
                            completed: Instant, outcome: Agent.Outcome, sc: Script)
      requires Following(k, sc) && ls != []
      requires Finished(k, FinalMirroring, kd, llmProvider, llmModel, started, completed, outcome)
      modifies this, store
      ensures Ended(k, sc, old(ss)[0]) && now >= old(now)
    {
      ghost var s := View();
      var inc := Incident(k, ColumnsOf(kd.spec, llmProvider, llmModel),
                          Lifecycle(outcome.phase, Some(started), Some(completed), outcome.tokensUsed, false, true),
                          None, None);
      var mirrored := store.UpsertIncident(inc, now, !sc.finalMirror);
      Log(Do(k, FinalUpsert(mirrored)), s, k, sc);
      MarkConcluded(k, kd, llmProvider, llmModel, started, completed, outcome, sc);
    }

    method MarkConcluded(k: Key, kd: Resource, llmProvider: string, llmModel: string, started: Instant,
                         completed: Instant, outcome: Agent.Outcome, sc: Script)
      requires Following(k, sc) && ls != []
      requires Finished(k, FinalPatching, kd, llmProvider, llmModel, started, completed, outcome)
      modifies this, store
      ensures Ended(k, sc, old(ss)[0]) && now >= old(now)
    {
      ghost var s := View();
      var ok := PatchStatus(k, (o: Status) =>
        o.(phase := outcome.phase, completedAt := Some(TruncateToSecond(completed)),
           llmProvider := llmProvider, llmModel := llmModel, tokensUsed := outcome.tokensUsed,
           persisted := true, condition := Stored,
           summary := if outcome.rca.Some? then outcome.rca.value.summary else o.summary,
           rootCause := if outcome.rca.Some? then outcome.rca.value.rootCause else o.rootCause),
        sc.final);
      Log(Do(k, PatchFinal(ok)), s, k, sc);
    }
  }

  // ---------- the resource sweep ----------

  /** Resources the sweep deletes when every delete succeeds. */
  function Expired(crs: map<Key, Resource>, cutoff: Instant): set<Key> {
    set k | k in crs && Prunable(crs[k], cutoff)
  }

  /** Those among them whose delete succeeds. */
  function Deletable(crs: map<Key, Resource>, cutoff: Instant, fails: Key -> bool): set<Key> {
    set k | k in Expired(crs, cutoff) && !fails(k)
  }

  /** Delete every listed terminal resource that finished at or before the cutoff, counting
      successes and collecting failures, which are left for the next sweep.  `gone` are the
      resources somebody else deletes meanwhile: deleting them again is no failure. */
  method PruneDiagnosisCRs(crs: map<Key, Resource>, items: seq<Key>, cutoff: Instant, fails: Key -> bool,
                           gone: set<Key>)
    returns (crs': map<Key, Resource>, deleted: nat, errs: seq<Key>)
    requires forall k :: k in crs <==> k in items
    requires forall i, j :: 0 <= i < j < |items| ==> items[i] != items[j]
    ensures forall k :: k in crs' <==>
              k in crs && k !in gone &&
              var st := crs[k].status;
              !((st.phase == Done || st.phase == Partial || st.phase == Failed) && !fails(k) &&
                (if st.completedAt.Some? then st.completedAt.value else crs[k].createdAt) <= cutoff)
    ensures forall k :: k in crs' ==> crs'[k] == crs[k]
    ensures forall k :: k in errs <==> k in Expired(crs, cutoff) && fails(k)
    ensures deleted == |Deletable(crs, cutoff, fails)|
  {
    var done: set<Key> := {};
    deleted, errs := 0, [];
    for i := 0 to |items|
      invariant forall k :: k in done <==> k in items[..i] && k in Deletable(crs, cutoff, fails)
      invariant forall k :: k in errs <==> k in items[..i] && k in Expired(crs, cutoff) && fails(k)
      invariant |done| == deleted
    {
      var k := items[i];
      assert items[..i + 1] == items[..i] + [k];
      assert k !in items[..i];
      var expired := IsExpired(crs[k], cutoff);
      if !expired { continue; }
      if fails(k) {
        errs := errs + [k];
        continue;
      }
      done := done + {k};
      deleted := deleted + 1;
    }
    assert items[..|items|] == items;
    assert done == Deletable(crs, cutoff, fails);
    crs' := crs - gone - done;
  }

  method IsExpired(d: Resource, cutoff: Instant) returns (expired: bool)
    ensures expired == Prunable(d, cutoff)
  {
    if !Terminal(d.status.phase) {
      return false;
    }
    var finished := d.createdAt;
    if d.status.completedAt.Some? {
      finished := d.status.completedAt.value;
    }
    return !(finished > cutoff);
  }
}
