/** Limiter, protocol and agent together bound the language-model work of any hour.

    The limiter lives in memory and is empty again after a crash, so every bound carries
    the number of crashes within the hour. */
module WorkBound {
  import opened Common
  import opened Timestamps
  import opened IncidentStore
  import opened Protocol
  import opened ProtocolInvariants
  import opened ProtocolSchedules
  import Agent = DiagnosisAgent
  import Limiter = RateLimiting

  predicate Within(from: Time, t: Time) {
    from <= t < from + HOUR
  }

  /** The step is an accepted limiter call. */
  ghost predicate Accepts(c: Config, s: State, l: Label) {
    IsAdmit(l) && Limiter.Admits(c.limit, WINDOW, s.starts, s.now)
  }

  /** Runs admitted, and crashes, in the hour starting at `from`, before step j. */
  ghost function Admissions(c: Config, ss: seq<State>, ls: seq<Label>, from: Time, j: nat): nat
    requires j <= |ls| <= |ss|
  {
    if j == 0 then 0
    else Admissions(c, ss, ls, from, j - 1) + Bit(Accepts(c, ss[j - 1], ls[j - 1]) && Within(from, ss[j - 1].now))
  }

  ghost function Crashes(ss: seq<State>, ls: seq<Label>, from: Time, j: nat): nat
    requires j <= |ls| <= |ss|
  {
    if j == 0 then 0 else Crashes(ss, ls, from, j - 1) + Bit(ls[j - 1].Crash? && Within(from, ss[j - 1].now))
  }

  // ---------- the limiter within one life of the process ----------

  /** Clock readings of the limiter calls since the last crash. */
  ghost function Calls(ss: seq<State>, ls: seq<Label>, j: nat): seq<int>
    requires j <= |ls| <= |ss|
  {
    if j == 0 then [] else NextCalls(Calls(ss, ls, j - 1), ss[j - 1], ls[j - 1])
  }

  ghost function NextCalls(calls: seq<int>, s: State, l: Label): seq<int> {
    if l.Crash? then [] else if IsAdmit(l) then calls + [s.now] else calls
  }

  predicate IsAdmit(l: Label) {
    l.Do? && l.e.Admit?
  }

  /** Calls in clock order, none after `now`. */
  ghost predicate CallsBy(calls: seq<int>, now: Time) {
    Limiter.NonDecreasing(calls) && (calls != [] ==> calls[|calls| - 1] <= now)
  }

  /** What one more limiter call does to its memory and to the count of any hour. */
  lemma {:induction false} OneMore(c: Config, calls: seq<int>, now: Time, from: Time)
    requires CallsBy(calls, now)
    ensures var memory := Limiter.Memory(c.limit, WINDOW, calls);
            var ok := Limiter.Admits(c.limit, WINDOW, memory, now);
            CallsBy(calls + [now], now) &&
            Limiter.Memory(c.limit, WINDOW, calls + [now]) == Limiter.Recorded(c.limit, WINDOW, memory, now) &&
            Limiter.CountFrom(Limiter.Accepted(c.limit, WINDOW, calls + [now]), from, WINDOW) ==
            Limiter.CountFrom(Limiter.Accepted(c.limit, WINDOW, calls), from, WINDOW) + Bit(ok && Within(from, now))
  {
    Limiter.OneMoreCall(c.limit, WINDOW, calls, now);
    CountStep(Limiter.Accepted(c.limit, WINDOW, calls), now, from,
              Limiter.Admits(c.limit, WINDOW, Limiter.Memory(c.limit, WINDOW, calls), now));
  }

  lemma {:induction false} CountStep(before: seq<int>, now: Time, from: Time, ok: bool)
    ensures Limiter.CountFrom(Limiter.Grown(before, ok, now), from, WINDOW) ==
            Limiter.CountFrom(before, from, WINDOW) + Bit(ok && Within(from, now))
  {
    assert (before + [now])[..|before|] == before;
  }

  lemma {:induction false} StepStarts(c: Config, s: State, l: Label)
    requires Enabled(c, s, l)
    ensures Step(c, s, l).starts ==
            if l.Crash? then []
            else if IsAdmit(l) then Limiter.Recorded(c.limit, WINDOW, s.starts, s.now)
            else s.starts
  {}

  lemma {:induction false} StartsAreMemory(c: Config, ss: seq<State>, ls: seq<Label>, j: nat)
    requires Execution(c, ss, ls) && j < |ss|
    ensures ss[j].starts == Limiter.Memory(c.limit, WINDOW, Calls(ss, ls, j))
    ensures CallsBy(Calls(ss, ls, j), ss[j].now)
  {
    if j > 0 {
      StartsAreMemory(c, ss, ls, j - 1);
      MemoryStep(c, ss[j - 1], ls[j - 1], Calls(ss, ls, j - 1));
    }
  }

  lemma {:induction false} MemoryStep(c: Config, s: State, l: Label, calls: seq<int>)
    requires Enabled(c, s, l) && s.starts == Limiter.Memory(c.limit, WINDOW, calls) && CallsBy(calls, s.now)
    ensures Step(c, s, l).starts == Limiter.Memory(c.limit, WINDOW, NextCalls(calls, s, l))
    ensures CallsBy(NextCalls(calls, s, l), Step(c, s, l).now)
  {
    StepStarts(c, s, l);
    StepGrows(c, s, l);
    if IsAdmit(l) {
      OneMore(c, calls, s.now, 0);
      SameClock(c, s, l);
    } else if l.Crash? {
      NoCalls(c);
    }
  }

  lemma {:induction false} SameClock(c: Config, s: State, l: Label)
    requires Enabled(c, s, l) && IsAdmit(l)
    ensures Step(c, s, l).now == s.now
  {}

  lemma {:induction false} NoCalls(c: Config)
    ensures Limiter.Memory(c.limit, WINDOW, []) == []
  {}

  /** Starts accepted since the last crash in the hour starting at `from`. */
  ghost function Recent(c: Config, ss: seq<State>, ls: seq<Label>, from: Time, j: nat): nat
    requires j <= |ls| <= |ss|
  {
    Limiter.CountFrom(Limiter.Accepted(c.limit, WINDOW, Calls(ss, ls, j)), from, WINDOW)
  }

  lemma {:induction false} RecentStep(c: Config, ss: seq<State>, ls: seq<Label>, from: Time, j: nat)
    requires Execution(c, ss, ls) && 0 < j < |ss| && !ls[j - 1].Crash?
    ensures Recent(c, ss, ls, from, j) ==
            Recent(c, ss, ls, from, j - 1) + Bit(Accepts(c, ss[j - 1], ls[j - 1]) && Within(from, ss[j - 1].now))
  {
    StartsAreMemory(c, ss, ls, j - 1);
    if IsAdmit(ls[j - 1]) {
      OneMore(c, Calls(ss, ls, j - 1), ss[j - 1].now, from);
    }
  }

  lemma {:induction false} RecentBound(c: Config, ss: seq<State>, ls: seq<Label>, from: Time, j: nat)
    requires Execution(c, ss, ls) && j < |ss| && c.limit > 0
    ensures Recent(c, ss, ls, from, j) <= c.limit
  {
    StartsAreMemory(c, ss, ls, j);
    Limiter.WindowNeverOverfull(c.limit, WINDOW, Calls(ss, ls, j), from);
  }

  // ---------- admissions per hour ----------

  /** One limit per crash in the hour. */
  ghost function Allowance(c: Config, ss: seq<State>, ls: seq<Label>, from: Time, j: nat): int
    requires j <= |ls| <= |ss|
  {
    if j == 0 then 0
    else Allowance(c, ss, ls, from, j - 1) + if ls[j - 1].Crash? && Within(from, ss[j - 1].now) then c.limit else 0
  }

  lemma {:induction false} AllowanceIsProduct(c: Config, ss: seq<State>, ls: seq<Label>, from: Time, j: nat)
    requires j <= |ls| <= |ss|
    ensures Allowance(c, ss, ls, from, j) + c.limit == c.limit * (1 + Crashes(ss, ls, from, j))
  {
    if j > 0 {
      AllowanceIsProduct(c, ss, ls, from, j - 1);
      Distribute(1 + Crashes(ss, ls, from, j - 1), c.limit);
    }
  }

  lemma {:induction false} AdmissionsByLife(c: Config, ss: seq<State>, ls: seq<Label>, from: Time, j: nat)
    requires Execution(c, ss, ls) && j < |ss| && c.limit > 0
    ensures ss[j].now < from ==> Admissions(c, ss, ls, from, j) == 0
    ensures ss[j].now < from + WINDOW ==>
            Admissions(c, ss, ls, from, j) <= Allowance(c, ss, ls, from, j) + Recent(c, ss, ls, from, j)
    ensures Admissions(c, ss, ls, from, j) <= Allowance(c, ss, ls, from, j) + c.limit
    ensures Allowance(c, ss, ls, from, j) >= 0
  {
    if j > 0 {
      AdmissionsByLife(c, ss, ls, from, j - 1);
      StepGrows(c, ss[j - 1], ls[j - 1]);
      RecentBound(c, ss, ls, from, j - 1);
      RecentBound(c, ss, ls, from, j);
      if !ls[j - 1].Crash? {
        RecentStep(c, ss, ls, from, j);
      }
    }
  }

  /** Runs admitted in any hour: the limit once, and once more per crash in that hour. */
  lemma {:induction false} AdmissionsPerHour(c: Config, ss: seq<State>, ls: seq<Label>, from: Time)
    requires Execution(c, ss, ls) && c.limit > 0
    ensures Admissions(c, ss, ls, from, |ls|) <= c.limit * (1 + Crashes(ss, ls, from, |ls|))
  {
    AdmissionsByLife(c, ss, ls, from, |ls|);
    AllowanceIsProduct(c, ss, ls, from, |ls|);
  }

  // ---------- the bound is reached ----------

  lemma {:induction false} CountsOfPrefix(
      c: Config, ss: seq<State>, ls: seq<Label>, ss': seq<State>, ls': seq<Label>, from: Time, j: nat)
    requires j <= |ls| <= |ss| && |ls'| <= |ss'| && ls <= ls' && ss <= ss'
    ensures Admissions(c, ss', ls', from, j) == Admissions(c, ss, ls, from, j)
    ensures Crashes(ss', ls', from, j) == Crashes(ss, ls, from, j)
  {
    if j > 0 {
      CountsOfPrefix(c, ss, ls, ss', ls', from, j - 1);
      assert ss'[j - 1] == ss[j - 1] && ls'[j - 1] == ls[j - 1];
    }
  }

  /** One more step, with what it adds to the two counts. */
  lemma {:induction false} ThenCounted(c: Config, ss: seq<State>, ls: seq<Label>, l: Label, from: Time)
    returns (ss': seq<State>, ls': seq<Label>)
    requires Path(c, ss, ls) && Enabled(c, ss[|ls|], l)
    ensures Path(c, ss', ls') && ss'[0] == ss[0] && ss'[|ls'|] == Step(c, ss[|ls|], l)
    ensures Admissions(c, ss', ls', from, |ls'|) ==
            Admissions(c, ss, ls, from, |ls|) + Bit(Accepts(c, ss[|ls|], l) && Within(from, ss[|ls|].now))
    ensures Crashes(ss', ls', from, |ls'|) ==
            Crashes(ss, ls, from, |ls|) + Bit(l.Crash? && Within(from, ss[|ls|].now))
  {
    OneMoreStep(c, ss, ls, l);
    ss', ls' := ss + [Step(c, ss[|ls|], l)], ls + [l];
    CountsOfPrefix(c, ss, ls, ss', ls', from, |ls|);
  }

  /** The resource waits to be diagnosed, and all remembered starts happened just now. */
  ghost predicate Waits(s: State, k: Key, at: Instant) {
    s.now == at && k in s.crs && s.crs[k].status.phase == Pending && k !in s.runs &&
    forall i :: 0 <= i < |s.starts| ==> s.starts[i] == at
  }

  /** An execution that ends with `starts` remembered starts, after so many admissions and
      crashes in the hour from `at` on. */
  ghost predicate Reaches(c: Config, ss: seq<State>, ls: seq<Label>, k: Key, at: Instant, admissions: int,
                          crashes: nat, starts: nat) {
    Execution(c, ss, ls) && Waits(ss[|ls|], k, at) && |ss[|ls|].starts| == starts &&
    Admissions(c, ss, ls, at, |ls|) == admissions && Crashes(ss, ls, at, |ls|) == crashes
  }

  lemma {:induction false} AllAreRecent(starts: seq<int>, at: int, cutoff: int)
    requires cutoff < at && forall i :: 0 <= i < |starts| ==> starts[i] == at
    ensures Limiter.After(starts, cutoff) == starts
  {
    if starts != [] {
      AllAreRecent(starts[..|starts| - 1], at, cutoff);
    }
  }

  /** The waiting resource is taken up and admitted. */
  lemma {:induction false} AdmitStep(c: Config, s: State, k: Key, at: Instant) returns (s1: State, s2: State)
    requires Waits(s, k, at) && |s.starts| < c.limit
    ensures Enabled(c, s, Begin(k)) && s1 == Step(c, s, Begin(k)) && s1.now == at
    ensures Enabled(c, s1, Do(k, Admit)) && Accepts(c, s1, Do(k, Admit)) && s2 == Step(c, s1, Do(k, Admit))
    ensures s2.now == at && s2.crs == s.crs && s2.starts == s.starts + [at]
    ensures k in s2.runs && s2.runs[k].stage == Admitted
  {
    AllAreRecent(s.starts, at, at - WINDOW);
    s1 := BeginsDeciding(c, s, k);
    s2 := Step(c, s1, Do(k, Admit));
  }

  lemma {:induction false} BeginsDeciding(c: Config, s: State, k: Key) returns (s': State)
    requires k in s.crs && s.crs[k].status.phase == Pending && k !in s.runs
    ensures Enabled(c, s, Begin(k)) && s' == Step(c, s, Begin(k))
    ensures s' == s.(runs := s'.runs) && k in s'.runs && s'.runs[k].stage == Deciding
  {
    s' := Step(c, s, Begin(k));
  }

  /** An attempt whose first write fails leaves the resource waiting. */
  lemma {:induction false} AttemptFails(c: Config, s: State, k: Key) returns (s1: State, s2: State)
    requires k in s.runs && s.runs[k].stage == Admitted
    ensures Enabled(c, s, Do(k, ReadClock)) && s1 == Step(c, s, Do(k, ReadClock)) && s1.now == s.now
    ensures Enabled(c, s1, Do(k, StartUpsert(false))) && s2 == Step(c, s1, Do(k, StartUpsert(false)))
    ensures s2.now == s.now && s2.crs == s.crs && s2.starts == s.starts && k !in s2.runs
  {
    s1 := Step(c, s, Do(k, ReadClock));
    s2 := Step(c, s1, Do(k, StartUpsert(false)));
  }

  lemma {:induction false} OneMoreAdmission(c: Config, ss: seq<State>, ls: seq<Label>, k: Key, at: Instant,
                                            admissions: int, crashes: nat, starts: nat)
    returns (ss': seq<State>, ls': seq<Label>)
    requires Reaches(c, ss, ls, k, at, admissions, crashes, starts) && starts < c.limit
    ensures Reaches(c, ss', ls', k, at, admissions + 1, crashes, starts + 1)
  {
    var s1, s2 := AdmitStep(c, ss[|ls|], k, at);
    var s3, s4 := AttemptFails(c, s2, k);
    ss', ls' := ThenCounted(c, ss, ls, Begin(k), at);
    ss', ls' := ThenCounted(c, ss', ls', Do(k, Admit), at);
    ss', ls' := ThenCounted(c, ss', ls', Do(k, ReadClock), at);
    ss', ls' := ThenCounted(c, ss', ls', Do(k, StartUpsert(false)), at);
  }

  lemma {:induction false} FillsTheLimit(c: Config, ss: seq<State>, ls: seq<Label>, k: Key, at: Instant,
                                         admissions: int, crashes: nat, starts: nat)
    returns (ss': seq<State>, ls': seq<Label>)
    requires Reaches(c, ss, ls, k, at, admissions, crashes, starts) && starts <= c.limit
    ensures Reaches(c, ss', ls', k, at, admissions + c.limit - starts, crashes, c.limit)
    decreases c.limit - starts
  {
    ss', ls' := ss, ls;
    if starts < c.limit {
      ss', ls' := OneMoreAdmission(c, ss, ls, k, at, admissions, crashes, starts);
      ss', ls' := FillsTheLimit(c, ss', ls', k, at, admissions + 1, crashes, starts + 1);
    }
  }

  lemma {:induction false} CrashForgets(c: Config, ss: seq<State>, ls: seq<Label>, k: Key, at: Instant,
                                        admissions: int, crashes: nat, starts: nat)
    returns (ss': seq<State>, ls': seq<Label>)
    requires Reaches(c, ss, ls, k, at, admissions, crashes, starts)
    ensures Reaches(c, ss', ls', k, at, admissions, crashes + 1, 0)
  {
    ss', ls' := ThenCounted(c, ss, ls, Crash, at);
  }

  lemma {:induction false} BeginsWaiting(c: Config, k: Key, spec: Spec, at: Instant)
    returns (ss: seq<State>, ls: seq<Label>)
    ensures Reaches(c, ss, ls, k, at, 0, 0, 0)
  {
    var s := State(at, map[], Tables(map[], [], []), [], map[], [], Idle);
    ss, ls := ThenCounted(c, [s], [], Create(k, spec, true), at);
  }

  /** The factor is real: for every limit and every number of crashes some execution has
      that many crashes in one hour and admits the limit once more for each of them. */
  lemma {:induction false} CrashesReopenLimiter(c: Config, k: Key, spec: Spec, at: Instant, crashes: nat)
    returns (ss: seq<State>, ls: seq<Label>)
    requires c.limit > 0
    ensures Execution(c, ss, ls) && Crashes(ss, ls, at, |ls|) == crashes
    ensures Admissions(c, ss, ls, at, |ls|) == c.limit * (1 + crashes)
  {
    ss, ls := FullLives(c, k, spec, at, crashes);
  }

  lemma {:induction false} FullLives(c: Config, k: Key, spec: Spec, at: Instant, crashes: nat)
    returns (ss: seq<State>, ls: seq<Label>)
    requires c.limit > 0
    ensures Reaches(c, ss, ls, k, at, c.limit * (1 + crashes), crashes, c.limit)
  {
    if crashes == 0 {
      ss, ls := BeginsWaiting(c, k, spec, at);
      ss, ls := FillsTheLimit(c, ss, ls, k, at, 0, 0, 0);
    } else {
      ss, ls := FullLives(c, k, spec, at, crashes - 1);
      ss, ls := CrashForgets(c, ss, ls, k, at, c.limit * crashes, crashes - 1, c.limit);
      ss, ls := FillsTheLimit(c, ss, ls, k, at, c.limit * crashes, crashes, 0);
      Distribute(crashes, c.limit);
    }
  }

  // ---------- every agent run has its own admission ----------

  predicate BeforeAgent(stage: Stage) {
    stage == Admitted || stage == Started || stage == Patching || stage == Refetching || stage == Running
  }

  /** Runs admitted in the hour that have not called the agent yet. */
  ghost function Waiting(s: State, from: Time): set<Key> {
    set k | k in s.runs && BeforeAgent(s.runs[k].stage) && Within(from, s.runs[k].admittedAt)
  }

  /** The step calls the agent for a run admitted in the hour. */
  ghost predicate CallsAgent(s: State, l: Label, from: Time) {
    l.Do? && l.e.RunAgent? && l.k in s.runs && Within(from, s.runs[l.k].admittedAt)
  }

  lemma {:induction false} ActWaits(c: Config, now: Instant, starts: seq<int>, k: Key, cr: Option<Resource>, r: Run,
                                    e: Effect, from: Time)
    requires CanAct(r, cr, e)
    ensures var d := Act(c, now, starts, k, cr, r, e);
            d.run.Some? && BeforeAgent(d.run.value.stage) && Within(from, d.run.value.admittedAt) ==>
            (e.Admit? && Limiter.Admits(c.limit, WINDOW, starts, now) && Within(from, now)) ||
            (BeforeAgent(r.stage) && Within(from, r.admittedAt) && !e.RunAgent?)
    ensures e.RunAgent? ==> BeforeAgent(r.stage)
    ensures e.Admit? ==> !BeforeAgent(r.stage)
  {}

  lemma {:induction false} SplitSize(a: set<Key>, k: Key)
    ensures |a| == |a - {k}| + Bit(k in a)
  {
    assert k in a ==> a == (a - {k}) + {k};
    assert k !in a ==> a == a - {k};
  }

  lemma {:induction false} WaitingStep(c: Config, s: State, l: Label, from: Time)
    requires Enabled(c, s, l)
    ensures Bit(CallsAgent(s, l, from)) + |Waiting(Step(c, s, l), from)| <=
            |Waiting(s, from)| + Bit(Accepts(c, s, l) && Within(from, s.now))
  {
    var a, a' := Waiting(s, from), Waiting(Step(c, s, l), from);
    if l.Do? {
      DoSparesOthers(c, s, l.k, l.e, from);
      DoWaits(c, s, l.k, l.e, from);
      SplitSize(a, l.k);
      SplitSize(a', l.k);
    } else {
      OtherWaits(c, s, l, from);
      SubsetSize(a', a);
    }
  }

  lemma {:induction false} OtherWaits(c: Config, s: State, l: Label, from: Time)
    requires Enabled(c, s, l) && !l.Do?
    ensures Waiting(Step(c, s, l), from) <= Waiting(s, from)
  {}

  lemma {:induction false} DoSparesOthers(c: Config, s: State, k: Key, e: Effect, from: Time)
    requires Enabled(c, s, Do(k, e))
    ensures Waiting(Step(c, s, Do(k, e)), from) - {k} == Waiting(s, from) - {k}
  {}

  lemma {:induction false} DoWaits(c: Config, s: State, k: Key, e: Effect, from: Time)
    requires Enabled(c, s, Do(k, e))
    ensures var a, a' := Waiting(s, from), Waiting(Step(c, s, Do(k, e)), from);
            Bit(CallsAgent(s, Do(k, e), from)) + Bit(k in a') <=
            Bit(k in a) + Bit(Accepts(c, s, Do(k, e)) && Within(from, s.now))
  {
    ActWaits(c, s.now, s.starts, k, Lookup(s.crs, k), s.runs[k], e, from);
    DoStep(c, s, k, e);
    var s' := Step(c, s, Do(k, e));
    assert k in s'.runs ==> DeltaOf(c, s, k, e).run == Some(s'.runs[k]);
  }

  ghost function AgentRuns(ss: seq<State>, ls: seq<Label>, from: Time, j: nat): nat
    requires j <= |ls| <= |ss|
  {
    if j == 0 then 0 else AgentRuns(ss, ls, from, j - 1) + Bit(CallsAgent(ss[j - 1], ls[j - 1], from))
  }

  lemma {:induction false} RunsNeedAdmissions(c: Config, ss: seq<State>, ls: seq<Label>, from: Time, j: nat)
    requires Execution(c, ss, ls) && j < |ss|
    ensures AgentRuns(ss, ls, from, j) + |Waiting(ss[j], from)| <= Admissions(c, ss, ls, from, j)
  {
    if j > 0 {
      RunsNeedAdmissions(c, ss, ls, from, j - 1);
      WaitingStep(c, ss[j - 1], ls[j - 1], from);
    }
  }

  // ---------- work per hour ----------

  ghost function CallCost(c: Config, s: State, l: Label, from: Time): nat {
    if CallsAgent(s, l, from) then |Agent.Requests(l.e.session, CapFor(c, s.runs[l.k].kd))| else 0
  }

  ghost function TokenCost(c: Config, s: State, l: Label, from: Time): int {
    if CallsAgent(s, l, from) then Agent.RequestedTokens(Agent.Requests(l.e.session, CapFor(c, s.runs[l.k].kd))) else 0
  }

  /** Completions requested, and output tokens asked for, by the runs admitted in the hour. */
  ghost function CompletionCalls(c: Config, ss: seq<State>, ls: seq<Label>, from: Time, j: nat): nat
    requires j <= |ls| <= |ss|
  {
    if j == 0 then 0 else CompletionCalls(c, ss, ls, from, j - 1) + CallCost(c, ss[j - 1], ls[j - 1], from)
  }

  ghost function OutputTokens(c: Config, ss: seq<State>, ls: seq<Label>, from: Time, j: nat): int
    requires j <= |ls| <= |ss|
  {
    if j == 0 then 0 else OutputTokens(c, ss, ls, from, j - 1) + TokenCost(c, ss[j - 1], ls[j - 1], from)
  }

  /** Every agent run has an iteration cap of at most `cap`. */
  ghost predicate Capped(c: Config, ss: seq<State>, ls: seq<Label>, cap: nat)
    requires |ls| <= |ss|
  {
    forall m :: 0 <= m < |ls| && ls[m].Do? && ls[m].e.RunAgent? && ls[m].k in ss[m].runs ==>
      CapFor(c, ss[m].runs[ls[m].k].kd) <= cap
  }

  lemma {:induction false} StepCost(c: Config, s: State, l: Label, from: Time, cap: nat)
    requires CallsAgent(s, l, from) && CapFor(c, s.runs[l.k].kd) <= cap
    ensures CallCost(c, s, l, from) <= cap + 1
    ensures TokenCost(c, s, l, from) <= 900 * cap + 500
  {
    Agent.WorkBound(l.e.session, CapFor(c, s.runs[l.k].kd));
  }

  lemma {:induction false} WorkFollowsRuns(c: Config, ss: seq<State>, ls: seq<Label>, from: Time, cap: nat, j: nat)
    requires |ls| <= |ss| && j <= |ls| && Capped(c, ss, ls, cap)
    ensures CompletionCalls(c, ss, ls, from, j) <= AgentRuns(ss, ls, from, j) * (cap + 1)
    ensures OutputTokens(c, ss, ls, from, j) <=
            AgentRuns(ss, ls, from, j) * (900 * cap + 500)
  {
    if j > 0 {
      WorkFollowsRuns(c, ss, ls, from, cap, j - 1);
      if CallsAgent(ss[j - 1], ls[j - 1], from) {
        StepCost(c, ss[j - 1], ls[j - 1], from, cap);
        Distribute(AgentRuns(ss, ls, from, j - 1), cap + 1);
        Distribute(AgentRuns(ss, ls, from, j - 1), 900 * cap + 500);
      }
    }
  }

  lemma {:induction false} Distribute(n: nat, x: int)
    ensures (n + 1) * x == n * x + x
  {}

  lemma {:induction false} CostBound(cost: int, runs: nat, most: nat, x: nat)
    requires cost <= runs * x && runs <= most
    ensures cost <= most * x
  {}

  /** The diagnosis runs admitted in any one-hour interval make at most limit * (cap + 1)
      completion calls and ask for at most limit * (900 * cap + 500) output tokens, once
      per life of the process within that hour. */
  lemma {:induction false} HourlyWork(c: Config, ss: seq<State>, ls: seq<Label>, from: Time, cap: nat)
    requires Execution(c, ss, ls) && c.limit > 0 && Capped(c, ss, ls, cap)
    ensures var lives := 1 + Crashes(ss, ls, from, |ls|);
            CompletionCalls(c, ss, ls, from, |ls|) <= c.limit * lives * (cap + 1) &&
            OutputTokens(c, ss, ls, from, |ls|) <= c.limit * lives * (900 * cap + 500)
  {
    RunsPerHour(c, ss, ls, from);
    WorkFollowsRuns(c, ss, ls, from, cap, |ls|);
    var runs, most := AgentRuns(ss, ls, from, |ls|), c.limit * (1 + Crashes(ss, ls, from, |ls|));
    CostBound(CompletionCalls(c, ss, ls, from, |ls|), runs, most, cap + 1);
    CostBound(OutputTokens(c, ss, ls, from, |ls|), runs, most, 900 * cap + 500);
  }

  lemma {:induction false} RunsPerHour(c: Config, ss: seq<State>, ls: seq<Label>, from: Time)
    requires Execution(c, ss, ls) && c.limit > 0
    ensures AgentRuns(ss, ls, from, |ls|) <= c.limit * (1 + Crashes(ss, ls, from, |ls|))
  {
    AdmissionsPerHour(c, ss, ls, from);
    RunsNeedAdmissions(c, ss, ls, from, |ls|);
  }
}
