/** Executions built step by step, for the states that some theorem needs to be reachable. */
module ProtocolSchedules {
  import opened Common
  import opened IncidentStore
  import opened Protocol
  import opened AgentSchema
  import Agent = DiagnosisAgent

  /** A provider that always answers, never with a tool call and never with an analysis. */
  const TALKATIVE: Agent.Session := Agent.Session(
    "", "", "", [], _ => Agent.Answered(SdkResponse([SdkChoice("", [])], 0)), _ => Agent.Executed(""),
    _ => Agent.Undecodable(""), false, name => name)

  lemma {:induction false} Then(c: Config, ss: seq<State>, ls: seq<Label>, l: Label)
    returns (ss': seq<State>, ls': seq<Label>)
    requires Path(c, ss, ls) && Enabled(c, ss[|ls|], l)
    ensures Path(c, ss', ls') && ss'[0] == ss[0] && ss'[|ls'|] == Step(c, ss[|ls|], l)
    ensures NoInserts(ls) && !InsertsRow(l) ==> NoInserts(ls')
  {
    ss', ls' := ss + [Step(c, ss[|ls|], l)], ls + [l];
    OneMoreStep(c, ss, ls, l);
  }

  lemma {:induction false} OneMoreStep(c: Config, ss: seq<State>, ls: seq<Label>, l: Label)
    requires Path(c, ss, ls) && Enabled(c, ss[|ls|], l)
    ensures Path(c, ss + [Step(c, ss[|ls|], l)], ls + [l])
  {
    var ss', ls' := ss + [Step(c, ss[|ls|], l)], ls + [l];
    forall i | 0 <= i < |ls'| ensures Enabled(c, ss'[i], ls'[i]) && ss'[i + 1] == Step(c, ss'[i], ls'[i]) {
      assert ss'[i] == ss[i] && (i < |ls| ==> ss'[i + 1] == ss[i + 1] && ls'[i] == ls[i]);
    }
  }

  predicate InsertsRow(l: Label) {
    l.Do? && l.e == Insert(true)
  }

  predicate NoInserts(ls: seq<Label>) {
    forall m :: 0 <= m < |ls| ==> !InsertsRow(ls[m])
  }

  lemma {:induction false} Joined(c: Config, ss: seq<State>, ls: seq<Label>, more: seq<State>, then_: seq<Label>)
    returns (ss': seq<State>, ls': seq<Label>)
    requires Path(c, ss, ls) && Path(c, more, then_) && more[0] == ss[|ls|]
    ensures Path(c, ss', ls') && ss'[0] == ss[0] && ss'[|ls'|] == more[|then_|]
  {
    ss', ls' := ss + more[1..], ls + then_;
    forall i | 0 <= i < |ls'| ensures Enabled(c, ss'[i], ls'[i]) && ss'[i + 1] == Step(c, ss'[i], ls'[i]) {
      if i < |ls| {
        assert ss'[i] == ss[i] && ss'[i + 1] == ss[i + 1] && ls'[i] == ls[i];
      } else {
        assert ss'[i] == more[i - |ls|] && ss'[i + 1] == more[i - |ls| + 1] && ls'[i] == then_[i - |ls|];
      }
    }
  }

  /** A run of `k` stands at `stage`, and no sweep is on. */
  ghost predicate StandsAt(s: State, k: Key, spec: Spec, now: Instant, stage: Stage) {
    s.now == now && s.sweep.Idle? && s.starts == [] && k in s.crs && s.crs[k].spec == spec &&
    k in s.runs && s.runs[k].stage == stage
  }

  lemma {:induction false} IsTakenUp(c: Config, s: State, k: Key, spec: Spec) returns (ss: seq<State>, ls: seq<Label>)
    requires Initial(s)
    ensures Path(c, ss, ls) && NoInserts(ls) && ss[0] == s && StandsAt(ss[|ls|], k, spec, s.now, Deciding)
  {
    ss, ls := [s], [];
    ss, ls := Then(c, ss, ls, Create(k, spec, true));
    ss, ls := Then(c, ss, ls, Begin(k));
  }

  lemma {:induction false} IsAdmitted(c: Config, s: State, k: Key, spec: Spec) returns (s': State)
    requires StandsAt(s, k, spec, s.now, Deciding)
    ensures Enabled(c, s, Do(k, Admit)) && s' == Step(c, s, Do(k, Admit))
    ensures StandsAt(s'.(starts := []), k, spec, s.now, Admitted)
  {
    s' := Step(c, s, Do(k, Admit));
  }

  lemma {:induction false} GoesOn(c: Config, ss: seq<State>, ls: seq<Label>, k: Key, spec: Spec, e: Effect)
    returns (ss': seq<State>, ls': seq<Label>)
    requires e == ReadClock || e == StartUpsert(true) || e == PatchDiagnosing(true) || e == Refetch(true)
    requires Path(c, ss, ls) && NoInserts(ls)
    requires var s := ss[|ls|];
             StandsAt(s.(starts := []), k, spec, s.now, StageOf(e)) &&
             (StageOf(e) == Patching || StageOf(e) == Refetching ==> RowIsFresh(s, k))
    ensures Path(c, ss', ls') && NoInserts(ls') && ss'[0] == ss[0]
    ensures var s' := ss'[|ls'|];
            StandsAt(s'.(starts := []), k, spec, ss[|ls|].now, AfterSuccess(e)) &&
            (e != ReadClock ==> RowIsFresh(s', k)) && (e == Refetch(true) ==> s'.runs[k].kd.spec == spec)
  {
    ss', ls' := Then(c, ss, ls, Do(k, e));
  }

  ghost predicate RowIsFresh(s: State, k: Key) {
    k in s.db.incidents && s.db.incidents[k].updatedAt == s.now && k in s.runs && s.runs[k].upsertedAt == s.now
  }

  function AfterSuccess(e: Effect): Stage {
    match e
    case ReadClock => Started
    case StartUpsert(_) => Patching
    case PatchDiagnosing(_) => Refetching
    case _ => Running
  }

  /** A fresh resource is taken up to its agent run, within one instant. */
  lemma {:induction false} StartsRunning(c: Config, s: State, k: Key, spec: Spec)
    returns (ss: seq<State>, ls: seq<Label>)
    requires Initial(s)
    ensures Path(c, ss, ls) && NoInserts(ls) && ss[0] == s && StandsAt(ss[|ls|].(starts := []), k, spec, s.now, Running)
    ensures ss[|ls|].runs[k].kd.spec == spec && RowIsFresh(ss[|ls|], k)
    ensures ss[|ls|].runs[k].upsertedAt == s.now
  {
    ss, ls := IsTakenUp(c, s, k, spec);
    var s' := IsAdmitted(c, ss[|ls|], k, spec);
    ss, ls := Then(c, ss, ls, Do(k, Admit));
    ss, ls := GoesOn(c, ss, ls, k, spec, ReadClock);
    ss, ls := GoesOn(c, ss, ls, k, spec, StartUpsert(true));
    ss, ls := GoesOn(c, ss, ls, k, spec, PatchDiagnosing(true));
    ss, ls := GoesOn(c, ss, ls, k, spec, Refetch(true));
  }
}
