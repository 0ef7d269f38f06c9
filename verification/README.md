# kscribe: a Dafny model of its core

kscribe is a Kubernetes operator that diagnoses incidents with a language model. Its core
is a protocol between three stores that can fail independently: the status of the
KscribeDiagnosis resource in the API server, rows in SQLite, and guards in memory. This
project models that protocol, the agent loop it drives, the store and web components next
to it, and proves properties of whole executions.

## What is modelled

- **The diagnosis protocol** (`Protocol*.dfy`, `WorkBound.dfy`). A transition system with
  one label per external effect of a reconcile. Reconciles of any number of keys, crashes,
  failed writes, lost patches, edits, deletions and retention sweeps interleave freely.
  `Controller.dfy` holds the reconciler itself as a class with mutable state; each of its
  effects is shown to be a protocol step, so a call of `Reconcile` is a path of the system.
  It works on a `Store` and a `RateLimiter` object.
- **The agent loop** (`DiagnosisAgent.dfy`, `AgentSchema.dfy`). The provider, the tools and
  the JSON decoder are arbitrary functions of a session.
- **The time-window guards** (`RateLimiter.dfy`, `Deduper.dfy`). Mutable classes refining
  specifications over the full history.
- **The store** (`IncidentStore.dfy`, `Timestamps.dfy`, `FilterCompiler.dfy`,
  `Migrations.dfy`). Merge rules, retention by comparison of RFC 3339 texts, the filter
  compiler with an evaluator for the clauses it emits, and the migration runner.
- **Chat and streaming** (`Chat.dfy`, `Utf8.dfy`, `Streaming.dfy`, `Broker.dfy`, `Sse.dfy`).

Assumptions about the environment: the work queue serialises reconciles per key, reads
return the last committed version, a write that reports an error was not applied, the clock
never goes back, SQLite statements and transactions are serialised, a crashed process has
stopped before the next one starts, and only the operator writes resource status. Clock
readings, failures, delays and everything the provider or a tool answers are parameters.
Instants are nanoseconds in the years 0000 to 9999. Resource status times are cut to whole
seconds, as their JSON form cuts them.

## Where the code differs from what one would expect

- The deduplication map is not bounded by max(1024, keys accepted in the last ttl) at all
  times: a rejecting call does not sweep. The bound holds exactly while the map has at most
  1024 entries or no expired one, and always as of the last accepted arrival.
- The SQL filter and the development fixture's filter differ on some ASCII queries: Go
  lower-cases the Kelvin sign to `k` and the dotted capital I to `i`, SQLite's LIKE does not.
  The exact condition is `FilterCompiler.Portable`.
- The hourly cap is kept in memory. A crash forgets it, so the hourly bound carries the
  factor 1 + crashes within the hour, and that many starts are reached.
- The comment on `Prune` (internal/store/sqlite.go:218-221) excepts the same second from
  text order. The exact rule is that order inverts when the earlier trimmed fraction is a
  prefix of the later one.
- A run that takes more than the retention period less a second between its first upsert
  and its insert can leave a diagnosis row without its incident row; the second is lost to
  text order, and the threshold is exact.
- The resource sweep deletes by name what it listed. A resource created anew under a listed
  name before its turn is deleted unfinished; otherwise only finished ones are.
- A resource that is deleted and created again during a run receives the later status
  patches of the old run, which address it by name. Its terminal status then lacks
  startedAt. The exact condition is `ProtocolStartTimes.StartIsKnownExactly`; the status
  invariant states startedAt <= completedAt for statuses that have both.

## Model

| member | source | states |
|---|---|---|
| `ProtocolInvariants.StepKeepsInv` | internal/controller/kscribediagnosis_controller.go:177-441 | Every step (an effect of any reconcile that succeeds or fails, a crash, a tick, a creation, edit or deletion, a sweep step) keeps the status invariant: Persisted exactly in Done/Partial, completedAt exactly in terminal phases, startedAt <= completedAt when both are set, startedAt set while Diagnosing, and every Done/Partial resource carries the summary and root cause of a row inserted for its key |
| `ProtocolInvariants.ReachableInv` | internal/controller/kscribediagnosis_controller.go:177-441 | The invariant holds in every state of every execution; in particular Diagnosing with Persisted is unreachable |
| `ProtocolInvariants.TerminalAbsorbs` | internal/controller/kscribediagnosis_controller.go:190-195 | No step changes the status of a Done, Partial or Failed resource until it is deleted |
| `ProtocolInvariants.ConcludedOnlyByFinalPatch` | internal/controller/kscribediagnosis_controller.go:415-441 | A step makes a resource Done or Partial if and only if it is the successful final status patch of its own run |
| `ProtocolEffects.FinishedTellsOutcome` | internal/controller/kscribediagnosis_controller.go:306-441 | In any reachable state a terminal resource tells the outcome of one earlier agent run for its key, with the cap taken from its spec: Done, Partial or Failed as that run ended, its tokens, its summary and root cause or none, and the second in which it ended |
| `ProtocolEffects.RunCarriesOutcome` | internal/controller/kscribediagnosis_controller.go:306-311 | A run past its agent carries the outcome and end time of the agent run it performed, in one unbroken stretch of states |
| `ProtocolEffects.DoneShowsAnalysis` | internal/controller/kscribediagnosis_controller.go:415-426 | In any reachable state a Done resource shows a non-empty summary and root cause, and any other shows neither |
| `ProtocolEffects.EntryExactly` | internal/controller/kscribediagnosis_controller.go:168-195 | A call leaves at once exactly if the resource is gone or is Diagnosing since less than ten minutes without a storage error, mirrors exactly if it is finished, and otherwise asks for admission; provider and model are the resource's, or else the configured ones |
| `ProtocolEffects.StorageErrorIsRetried` | internal/controller/kscribediagnosis_controller.go:187-189 | A Diagnosing resource with a recorded storage error is retried at the next call, however recent its start |
| `ProtocolEffects.RunGoesOn` | internal/controller/kscribediagnosis_controller.go:197-441 | Which effect follows which, for every success and failure, and which one local variable each effect sets |
| `ProtocolEffects.OnlyPatchesTouchResources` | internal/controller/kscribediagnosis_controller.go:444-456 | Only a successful status patch changes a resource, and only the status of its own |
| `ProtocolEffects.FinalPatchShows` | internal/controller/kscribediagnosis_controller.go:415-441 | After the final patch phase, tokens, summary and root cause are the outcome's, the times are whole seconds, Persisted is true, and nothing else has changed |
| `ProtocolEffects.FailedPatchShows` | internal/controller/kscribediagnosis_controller.go:337-351 | After the Failed patch phase, tokens and completion are the outcome's and everything else is as before |
| `ProtocolEffects.DiagnosingPatchShows` | internal/controller/kscribediagnosis_controller.go:240-253 | After the Diagnosing patch the start is the second of the clock reading, provider and model are the run's, and everything else is as before |
| `ProtocolEffects.ReturningPatchesShow` | internal/controller/kscribediagnosis_controller.go:201-210 | The throttling patch changes the phase only, the storage-error patch its mark only |
| `ProtocolEffects.StartRowSays` | internal/controller/kscribediagnosis_controller.go:222-237 | The first upsert describes the resource column by column and says Diagnosing since the clock reading; other rows stay |
| `ProtocolEffects.EndRowSays` | internal/controller/kscribediagnosis_controller.go:394-410 | The last upsert says how the agent ended, with its times and tokens, persisted exactly after an insert |
| `ProtocolEffects.MirrorRowSays` | internal/controller/kscribediagnosis_controller.go:113-139 | The mirror of a finished resource says what its spec and status say, dated at completion |
| `ProtocolEffects.InsertedRowSays` | internal/controller/kscribediagnosis_controller.go:359-374 | The inserted row is appended and holds key, event, reasoning, and the outcome's summary, root cause and joined steps, or none |
| `ProtocolEffects.JoinsParts` | internal/controller/kscribediagnosis_controller.go:371-371 | Joining puts the separator between any two neighbouring parts and nowhere else |
| `ProtocolTraces.InsertPrecedesConclusion` | internal/controller/kscribediagnosis_controller.go:354-441 | ADR-003 over whole executions: between a state in which a resource is neither concluded nor about to be and a later one in which it is either, there is a successful insert of a row for that key |
| `ProtocolTraces.FailedInsertNeverConcludes` | internal/controller/kscribediagnosis_controller.go:376-391 | After a failed InsertDiagnosis the resource is not Done or Partial, and it becomes so only after a later successful insert |
| `ProtocolTraces.ConcludedShowsStoredAnalysis` | internal/controller/kscribediagnosis_controller.go:354-441 | In any reachable state a Done/Partial resource shows exactly the summary and root cause of a row inserted earlier for its key |
| `ProtocolTraces.RowAccounting` | internal/controller/kscribediagnosis_controller.go:376-441 | For any key and any stretch of an execution: inserts + (1 if uncommitted at its start) = Done/Partial transitions + cut-off attempts + (1 if uncommitted at its end), and the log of rows grows by exactly the inserts |
| `ProtocolTraces.RowsEverInserted` | internal/controller/kscribediagnosis_controller.go:376-441 | From the start: rows ever inserted for a key = conclusions + attempts cut off between insert and final patch + (1 if one is in flight there) |
| `ProtocolTraces.ConcludesOnce` | internal/controller/kscribediagnosis_controller.go:177-195 | While a resource exists it passes into Done/Partial at most once, and exactly once if it is concluded at the end |
| `ProtocolTraces.OneRowPerLifetime` | internal/controller/kscribediagnosis_controller.go:177-195 | In a lifetime without a cut-off attempt, counted from a creation at which no older run stands between its insert and its final patch: exactly one row if the resource is concluded, and never more than one |
| `ProtocolProgress.RunsEnd` | internal/controller/kscribediagnosis_controller.go:165-442 | Every effect, whatever its result, strictly lowers the number of effects left, so a reconcile has at most nine |
| `ProtocolProgress.RunsCanGoOn` | internal/controller/kscribediagnosis_controller.go:165-442 | A run never blocks: at every stage some effect is possible, a successful one if the resource still exists |
| `ProtocolProgress.FaultFreeReconcileFinishes` | internal/controller/kscribediagnosis_controller.go:177-213 | From any reachable non-terminal state, in any interleaving with other keys, ticks and sweeps, an admitted reconcile without faults that begins at least ten minutes after startedAt leaves the resource terminal when it ends |
| `ProtocolStartTimes.FinishedHasBothTimes` | internal/controller/kscribediagnosis_controller.go:240-255 | If the resource was never created while a run under its name was past its Diagnosing patch and not ended, then in every reachable state a terminal status has startedAt and completedAt, the first not after the second |
| `ProtocolStartTimes.StartIsKnownExactly` | internal/controller/kscribediagnosis_controller.go:444-456 | The exact condition, readable at creation: in all continuations of a reachable state the new resource shows startedAt whenever it is terminal, if and only if no such run is in flight when it is created |
| `ProtocolStartTimes.UnstartedIsReachable` | internal/controller/kscribediagnosis_controller.go:444-456 | From every initial state some execution ends in a terminal resource without startedAt: deleted and created again while its diagnosis runs |
| `ProtocolProgress.ThrottledStaysDue` | internal/controller/kscribediagnosis_controller.go:197-213 | A throttled resource is Pending, not dropped, and its next reconcile proceeds without waiting for staleness |
| `ProtocolRetention.ReferencesHold` | internal/controller/kscribediagnosis_controller.go:222-237 | If every run goes from its first upsert to its insert in at most the retention period minus one second, or nothing is swept, then in every reachable state of every interleaving with the pruner each diagnoses row has its incidents row |
| `ProtocolRetention.ReferencesHoldExactly` | cmd/kscribe/main.go:56-83 | The exact threshold: all executions whose runs take at most T from upsert to insert keep every reference, if and only if retention is off or T <= retention - 1s (for any retention period below 10000 years) |
| `ProtocolRetention.LateRunCanOrphan` | internal/store/sqlite.go:214-249 | Whenever a sweep is under way whose text order puts the row of an agent run before the cutoff, the sweep and the run's insert can leave a diagnoses row without its incidents row |
| `ProtocolRetention.OrphanIsReachable` | internal/store/sqlite.go:214-249 | For every configuration with retention on, an execution from an initial state breaks a reference although no run takes longer than the retention period minus one second plus one nanosecond |
| `ProtocolRetention.SweepKeepsCutoff` | cmd/kscribe/main.go:60-69 | In every execution the row sweep and the resource sweep use one cutoff, the retention period before the sweep's beginning |
| `ProtocolRetention.ListingIsExact` | internal/controller/prune.go:22-40 | A listing marks exactly the Done, Partial and Failed resources whose completedAt (or creation time) is not after the cutoff |
| `ProtocolRetention.MarkedWasFinished` | internal/controller/prune.go:27-46 | In every execution a resource marked for deletion was finished by the cutoff when it was listed |
| `ProtocolRetention.ListedStaysFinished` | internal/controller/prune.go:27-46 | Unless it is created anew, a listed resource keeps its finished status to the end of the sweep, so no sweep deletes an unfinished one |
| `ProtocolRetention.SweepTakesNewcomer` | internal/controller/prune.go:41-41 | The exception is real: deletion goes by name, so a resource created anew after the listing is deleted although it is Pending |
| `ProtocolRetention.MirrorWrites` | internal/controller/kscribediagnosis_controller.go:113-139 | The terminal mirror writes the row that equals the finished resource, with updated_at equal to completedAt |
| `ProtocolRetention.MirrorIsFixedPoint` | internal/controller/kscribediagnosis_controller.go:190-194 | Once mirrored, the row of a finished resource stays identical, dated at completion, through any number of reconciles, other runs and sweeps that spare it, so resyncs never postpone retention |
| `WorkBound.AdmissionsPerHour` | internal/controller/kscribediagnosis_controller.go:197-213 | In every execution and every interval [t, t + 1h): accepted starts <= limit * (1 + crashes in that hour) |
| `WorkBound.CrashesReopenLimiter` | internal/controller/ratelimit.go:11-22 | The bound is reached: for every limit > 0 and every n some execution has n crashes within one hour and admits limit * (1 + n) starts in it, because the limiter lives in memory |
| `WorkBound.RunsNeedAdmissions` | internal/controller/kscribediagnosis_controller.go:197-213 | Agent runs admitted in the hour plus runs still on their way to the agent never exceed the accepted starts: no run without its own admission |
| `WorkBound.HourlyWork` | internal/controller/kscribediagnosis_controller.go:295-307 | Composition of limiter, protocol and agent loop: the runs admitted in any hour make at most limit * (1 + crashes) * (M + 1) completion calls and ask for at most limit * (1 + crashes) * (900 M + 500) output tokens, M bounding the effective iteration caps |
| `Controller.Operator.Reconcile` | internal/controller/kscribediagnosis_controller.go:165-442 | The imperative reconcile, from any state and for any pattern of failures and delays, performs a path of protocol steps of its own key that starts in the old state, ends in the new one and leaves no run in flight; so every theorem about executions applies to it |
| `Controller.Operator.PatchStatus` | internal/controller/kscribediagnosis_controller.go:444-456 | Fetch, mutate, update: applied to the current status exactly when the resource exists and the API accepts it, otherwise nothing changes |
| `Controller.Operator.Admission` | internal/controller/kscribediagnosis_controller.go:197-213 | One call of the limiter object, then the start or the return to Pending, as protocol steps |
| `Controller.Operator.StartDiagnosis` | internal/controller/kscribediagnosis_controller.go:215-237 | Clock reading and the effective provider and model, then the Diagnosing row before the resource is touched, as protocol steps |
| `Controller.Operator.RecordFailure` | internal/controller/kscribediagnosis_controller.go:313-352 | Provider failure: best-effort row, then the Failed patch, as protocol steps; no diagnosis row |
| `Controller.Operator.RecordDiagnosis` | internal/controller/kscribediagnosis_controller.go:354-441 | Insert first; on failure the StorageError patch, on success the final row and the final patch, as protocol steps |
| `Controller.PruneDiagnosisCRs` | internal/controller/prune.go:20-48 | A resource stays exactly if somebody else did not delete it and it is not (Done, Partial or Failed, with completedAt or else creation not after the cutoff, and its delete not failing); failures are exactly those reported; the count includes what somebody else deleted meanwhile |
| `IncidentStore.UpsertsSummarise` | internal/store/sqlite.go:141-186 | Over any sequence of upserts a key has a row exactly if it was written; created_at is the first value, each descriptive column the last non-empty value, and phase, tokens, flags and updated_at are the last values; started_at and completed_at are absent exactly if the last ones are, and otherwise their whole seconds |
| `IncidentStore.UpsertWritesRow` | internal/store/sqlite.go:151-186 | One upsert changes one row: empty columns keep the stored value, the creation time never changes, every lifecycle field is the given one |
| `IncidentStore.UpsertIdempotent` | internal/store/sqlite.go:151-166 | Writing the same dated record again at any later time leaves the whole table unchanged |
| `IncidentStore.PruneKeepsReferences` | internal/store/sqlite.go:222-249 | A sweep keeps every remaining diagnoses row attached to an incidents row |
| `IncidentStore.PruneDeletesExactly` | internal/store/sqlite.go:222-249 | An incident is deleted exactly if its second precedes the cutoff's, or it shares that second and byte order of the trimmed fractions puts it first; survivors are unchanged |
| `IncidentStore.PruneTakesChildren` | internal/store/sqlite.go:231-239 | Diagnoses and chat rows go exactly with their incident, and the others keep their number and order |
| `IncidentStore.Store.UpsertIncident` | internal/store/sqlite.go:141-186 | On success the row under the key is the merge described field by field and every other row is untouched; on failure nothing changes |
| `IncidentStore.Store.InsertDiagnosis` | internal/store/sqlite.go:189-212 | New tables: one appended diagnosis row dated now, or no change on failure |
| `IncidentStore.Store.Prune` | internal/store/sqlite.go:222-249 | All three tables lose exactly the rows of the old keys, or nothing changes if any statement or the commit fails; the count is the number of incidents gone |
| `Timestamps.GregorianCount` | internal/store/sqlite.go:173-183 | The year-by-year day count equals the closed Gregorian formula, so printed dates are calendar dates |
| `Timestamps.PrintsCivilTime` | internal/store/sqlite.go:173-183 | The text of an instant is that of its civil date and clock, for every date of the years 0000-9999: printing inverts the day count |
| `Timestamps.PrintsFields` | internal/store/sqlite.go:173-183 | That text is year, month, day, hour, minute and second in fixed width with their separators |
| `Timestamps.PrintsFraction` | internal/store/sqlite.go:173-183 | The fraction is the nine digits of the nanoseconds without trailing zeros, and absent on a whole second |
| `Timestamps.DigitsRead` | internal/store/sqlite.go:173-183 | The digits of a field read back as its number |
| `Timestamps.OrderAcrossSeconds` | internal/store/sqlite.go:214-223 | For UTC instants in years 0000-9999, byte order of the printed texts is time order whenever the whole seconds differ |
| `Timestamps.ByteOrderExactly` | internal/store/sqlite.go:218-223 | For t < u the texts are in order if and only if the seconds differ or the trimmed fraction of t is not a prefix of that of u; otherwise they are inverted |
| `Timestamps.ByteOrderRule` | internal/store/sqlite.go:218-223 | The same as an exact rule for any two instants, equal ones included |
| `Timestamps.ByteOrderCanInvert` | internal/store/sqlite.go:218-221 | A whole second sorts after every later instant of the same second |
| `RateLimiting.MemoryIsFilteredHistory` | internal/controller/ratelimit.go:25-47 | For a non-decreasing clock the compacted slice equals the full history of accepted starts filtered to the current window |
| `RateLimiting.PurgeIsFilteredHistory` | internal/controller/ratelimit.go:32-40 | The same at any later clock reading, and never more than `limit` starts are remembered |
| `RateLimiting.WindowNeverOverfull` | internal/controller/ratelimit.go:25-47 | Every interval of one window length, half-open on either side, holds at most `limit` accepted starts |
| `RateLimiting.AdmittedExactlyWhenRoom` | internal/controller/ratelimit.go:42-46 | A call is admitted exactly when fewer than `limit` accepted starts lie in (now - window, now] |
| `RateLimiting.DeniedExactlyWhenFull` | internal/controller/ratelimit.go:42-44 | Call i of any sequence is denied exactly when `limit` accepted starts lie in (now - window, now] |
| `RateLimiting.RateLimiter.Allow` | internal/controller/ratelimit.go:25-47 | The in-place limiter answers by the full history of accepted starts and records exactly the accepted ones; limit <= 0 always admits |
| `RateLimiting.RateLimiter.Record` | internal/controller/ratelimit.go:32-46 | Admits exactly when fewer than `limit` of the remembered starts lie in the window, and remembers those and the new start |
| `RateLimiting.RateLimiter.Compact` | internal/controller/ratelimit.go:33-40 | Filtering the slice over its own backing array equals filtering its old contents |
| `RateLimiting.RateLimiter.Append` | internal/controller/ratelimit.go:45-45 | Append in place or into a grown array; contents are the old ones and the new start |
| `Deduplication.AnswersLikeTheLog` | internal/controller/dedup.go:36-53 | For fixed ttl and a non-decreasing clock a call is a duplicate exactly when the same key was accepted less than ttl ago; the sweep never changes an answer |
| `Deduplication.BoundAfterAccept` | internal/controller/dedup.go:43-51 | Right after an accepting call the map has at most max(1024, keys accepted in the last ttl) entries |
| `Deduplication.BoundSinceLastAccept` | internal/controller/dedup.go:33-53 | In every state the bound holds as of the last accepted arrival |
| `Deduplication.BoundHoldsExactly` | internal/controller/dedup.go:33-53 | At any clock reading the map has at most max(1024, keys accepted in the last ttl) entries if and only if it has at most 1024 or none of them has expired |
| `Deduplication.RejectedCallCanExceedBound` | internal/controller/dedup.go:40-42 | The other case occurs: a rejecting call does not sweep, and a concrete sequence leaves 1025 entries when one key was accepted in the last ttl |
| `Deduplication.Deduper.ShouldProcess` | internal/controller/dedup.go:36-53 | The guard answers by the unswept log, and after an accepting call its map is within the bound |
| `Deduplication.Deduper.Sweep` | internal/controller/dedup.go:44-50 | Visiting the keys in any order leaves exactly the entries whose expiry has not passed |
| `DiagnosisAgent.OutcomeOf` | internal/agent/diagnosis_agent.go:54-160 | For every provider and tool behaviour: the phase is terminal, Done exactly with an analysis whose summary and root cause are non-empty, Failed exactly when the stopping round brought no message |
| `DiagnosisAgent.OutcomeOfAnalysis` | internal/agent/diagnosis_agent.go:98-110 | Stated on the raw answers: if all answers before the n-th ask for tools and the n-th, without calls, decodes to a complete analysis, the run is Done with exactly that analysis after n + 1 requests |
| `DiagnosisAgent.OutcomeOfRepair` | internal/agent/diagnosis_agent.go:111-129 | If that answer does not decode completely, one repair follows: Done with exactly its analysis if and only if that one is complete, otherwise Partial without one and with both complaints |
| `DiagnosisAgent.OutcomeOfSilence` | internal/agent/diagnosis_agent.go:74-93 | If the n-th answer is an error or has no choice: Failed with that error after n + 1 requests |
| `DiagnosisAgent.OutcomeOfToolsOnly` | internal/agent/diagnosis_agent.go:153-159 | If every answer asks for tools: Partial after exactly the allowed number of requests |
| `DiagnosisAgent.TokensAreSummed` | internal/agent/diagnosis_agent.go:69-83 | TokensUsed is the sum of the usage of all successful responses, the repair included, at the source's 64-bit width |
| `DiagnosisAgent.RequestsAreConversations` | internal/agent/diagnosis_agent.go:64-150 | Every main request is system, user, then blocks of one assistant message with k >= 1 calls and exactly k tool messages with the same ids in order; each is a strict prefix of the next; the repair adds only the tool-free answer and one user message, without tools and with its own token cap |
| `DiagnosisAgent.FirstRequestSays` | internal/agent/diagnosis_agent.go:64-67 | The first request is the system prompt and the snapshot |
| `DiagnosisAgent.RequestsRecordRounds` | internal/agent/diagnosis_agent.go:95-150 | Each further main request adds the previous answer word for word and, for each of its calls in order, the executor's output, its error, or the missing-executor text, under the call's id and name |
| `DiagnosisAgent.RepairRequestSays` | internal/agent/diagnosis_agent.go:162-170 | The repair request adds the answer that did not decode and the repair prompt |
| `DiagnosisAgent.ToolMessagesAnswerCalls` | internal/agent/diagnosis_agent.go:132-150 | The tool messages of a transcript are one per call ever made, in order, with the call's id, name and result |
| `DiagnosisAgent.TraceMatchesTools` | internal/agent/diagnosis_agent.go:132-150 | Trace entry k names the k-th executed call and its arguments, and its result is the at most 200-byte prefix of the content sent back for it |
| `DiagnosisAgent.WorkBound` | internal/agent/diagnosis_agent.go:38-41 | A run sends at most M + 1 requests and asks for at most 900 M + 500 output tokens |
| `DiagnosisAgent.Run` | internal/agent/diagnosis_agent.go:58-160 | The loop returns exactly the specified outcome and sends exactly the specified requests, for the given cap if positive and for 5 otherwise |
| `DiagnosisAgent.Turn` | internal/agent/diagnosis_agent.go:72-150 | One iteration either ends with the specified outcome and requests or has advanced transcript, trace, tokens and requests by one round |
| `DiagnosisAgent.Conclude` | internal/agent/diagnosis_agent.go:98-130 | A tool-free answer is decoded, repaired once, or becomes Partial with both errors |
| `DiagnosisAgent.RepairRca` | internal/agent/diagnosis_agent.go:162-179 | One more request with one more user message; its usage is added only if it is answered |
| `DiagnosisAgent.ExecuteCalls` | internal/agent/diagnosis_agent.go:132-150 | One round's calls yield their tool messages and clipped trace entries in order |
| `DiagnosisAgent.ToolsOnlyShapeTexts` | internal/agent/diagnosis_agent.go:182-191 | Given the same answers of the provider, a missing executor or failing tools change nothing but the texts told to the model: same number of requests, same phase, analysis, tokens and errors, same calls in the trace |
| `DiagnosisAgent.ParseRca` | internal/agent/diagnosis_agent.go:193-203 | A text is accepted exactly when it decodes with a non-empty summary and root cause, and then unchanged |
| `AgentSchema.ToSdkMessages` | internal/agent/openai.go:109-145 | Keeps length and order; for every message of the shape its role calls for the endpoint reads back role, content, calls and ids unchanged; an unexpected role becomes a user message; only an assistant message with calls and no content omits its text |
| `AgentSchema.BlocksKeepIds` | internal/agent/openai.go:117-139 | Along a block-structured conversation every assistant message keeps its tool calls and every tool message its id in the mapping |
| `FilterCompiler.BuildWhere` | internal/store/sqlite.go:63-89 | The two slices built step by step give the clause text and the arguments of the wanted conditions in order |
| `FilterCompiler.ClauseIsExact` | internal/store/sqlite.go:65-89 | Lexing, parsing and evaluating the emitted text with arguments bound left to right is never an error (placeholders = arguments) and selects exactly the items that meet every wanted condition |
| `FilterCompiler.FilteredIncidents` | cmd/kscribe-web-dev/main.go:226-254 | The direct filter returns, in order, exactly the items that meet every set field |
| `FilterCompiler.PlainAgrees` | internal/store/sqlite.go:80-84 | For ASCII queries free of % _ and of i I k K, LIKE '%q%' is the lower-cased substring search |
| `FilterCompiler.FiltersAgreeExactly` | cmd/kscribe-web-dev/main.go:226-254 | For every ASCII query the SQL and the direct filter agree on all items if and only if the query is free of % _ i I k K, or the fixed reason already matches both ways |
| `FilterCompiler.NotPortableDisagrees` | cmd/kscribe-web-dev/main.go:243-250 | Otherwise some item (a wildcard match, the Kelvin sign or the dotted capital I) is treated differently |
| `FilterCompiler.ListsAgree` | internal/store/sqlite.go:257-292 | For a portable filter and every list, running the emitted clause gives the same list as the direct filter |
| `FilterCompiler.PhaseIgnored` | internal/store/sqlite.go:63-65 | Compiling without the phase selects what the filter with its phase cleared selects |
| `FilterCompiler.PhaseCountsSum` | internal/store/sqlite.go:296-315 | The rows grouped by phase are those of the filter with its phase cleared, and the per-phase counts sum to its count |
| `FilterCompiler.GroupsAddUp` | internal/store/sqlite.go:298-313 | Groups hold the exact number of rows of each phase and add up to all rows |
| `FilterCompiler.CountIncidentsByPhase` | cmd/kscribe-web-dev/main.go:179-189 | The loop's map is the grouping of the phase-cleared selection: exact per phase, summing to its length |
| `Utf8.Truncate` | internal/web/chat.go:65-72 | An over-budget text becomes the longest valid UTF-8 prefix (section 4 of RFC 3629) of its first `budget` bytes; of a valid text at most three of those bytes are lost (4093 of 4096 survive) |
| `Utf8.EncodingsAreValid` | internal/web/chat.go:68-71 | Every sequence of Unicode scalar values, encoded by section 3 of RFC 3629, is valid by section 4 |
| `Utf8.ValidIsEncoding` | internal/web/chat.go:68-71 | Every valid text is such an encoding |
| `Utf8.BoundaryNear` | internal/web/chat.go:68-71 | Every valid text has a valid prefix within three bytes of any cut |
| `Chat.KeepHistory` | internal/web/chat.go:82-93 | The kept history is the longest suffix of the last 10 turns with at most 8192 content bytes |
| `Chat.NewestKeptIfItFits` | internal/web/chat.go:85-93 | The message just stored reaches the model exactly when it fits the budget by itself |
| `Chat.TextsGrow` | internal/web/chat.go:29-31 | The texts behind successive frames are growing prefixes of the streamed text, strictly growing when no delta is empty |
| `Chat.PublishDeltas` | internal/web/chat.go:103-114 | One frame per delta, each rendering the accumulated text, published in order on the chat topic only |
| `Chat.SubscriberSeesGrowingText` | internal/web/chat.go:103-114 | In any interleaving, with any other publications on the same topic before, between and after, the events a subscriber received or has queued from one chat run render prefixes of its streamed text, a later event a strictly longer one when no delta is empty |
| `Chat.RunChat` | internal/web/chat.go:32-127 | The rows stored are exactly: none if the first append fails, else the user turn, and after it the reply if and only if nothing fails and the provider gives a whole answer, verbatim unless blank; the request is sent exactly when the incident and history load, as the system message over the truncated context plus the kept history; the frames render the accumulated deltas, also of an answer that breaks off |
| `Streaming.CompleteStream` | internal/agent/openai.go:233-268 | The consumer's error is returned exactly if it refuses one of the deltas up to the done mark, at the first refusal; otherwise a read error is returned exactly if the scanner holds one on leaving the loop; otherwise the answer is the concatenation of all deltas, each delivered in order |
| `Streaming.LineMeans` | internal/agent/openai.go:236-256 | A line is the done mark exactly if it trims to `data: [DONE]`, and delivers x exactly if it trims to `data: ` and a text decoding to choices whose first content is x, not empty |
| `Streaming.TrimsBlanks` | internal/agent/openai.go:236-236 | Trimming takes exactly the white space around a text |
| `Streaming.StreamReadsOn` | internal/agent/openai.go:235-257 | A stream reads like its lines one after the other, up to the first done mark |
| `Streaming.DeltasAreNotEmpty` | internal/agent/openai.go:248-256 | No delivered delta is empty |
| `Streaming.StreamOrComplete` | internal/agent/llm.go:20-37 | Streaming or not, the answer succeeds exactly if the provider gives a whole one and the consumer refuses no piece; then the pieces it saw concatenate to the content returned, which is the provider's |
| `Broker.SubscriptionsAreExact` | internal/web/broker.go:24-42 | After any operations the nested map holds exactly the live subscribers under their own topic and no empty topic |
| `Broker.DeliveryIsExact` | internal/web/broker.go:44-56 | Received plus queued events are exactly the events offered when the queue had room, in order; the queue never exceeds 8 |
| `Broker.SubscriberSeesItsTopic` | internal/web/broker.go:44-56 | They are a subsequence of what was published on the subscriber's own topic |
| `Broker.HoldsWhatItTook` | internal/web/broker.go:44-56 | They are the publications at strictly increasing positions of the topic's history, those taken when the queue had room |
| `Broker.EventBroker.DoSubscribe` | internal/web/broker.go:22-33 | The new state is that of the specification's subscribe step, with a fresh empty queue |
| `Broker.EventBroker.Unsubscribe` | internal/web/broker.go:35-42 | Removes one subscriber, and its topic when it was the last |
| `Broker.EventBroker.DoPublish` | internal/web/broker.go:47-56 | Visiting subscribers in any order pushes to those with room and drops for the others |
| `Broker.EventBroker.DoReceive` | internal/web/broker.go:25-25 | Takes the oldest event of one queue and nothing else |
| `Sse.WriteSSE` | internal/web/server.go:242-249 | The scanner loop writes the frame of its input |
| `Sse.StreamDecodes` | internal/web/server.go:242-249 | Decoding any concatenation of frames by section 9.2.6 of the WHATWG HTML Standard yields the non-empty inputs in order, each minus at most one trailing newline, when they have no CR and their lines fit the scanner |
| `Sse.FrameDecodesExactly` | internal/web/server.go:242-249 | A frame decodes to its input if and only if the input has no CR and every line has at most 65535 bytes |
| `Migrations.StartsResume` | internal/store/migrations.go:17-80 | Any number of starts failing at arbitrary files, followed by a clean start, leave the schema and versions of one clean start |
| `Migrations.CommittedOnce` | internal/store/migrations.go:47-77 | However often the process starts, no version is committed twice |
| `Migrations.Runner.Run` | internal/store/migrations.go:37-80 | Stops at the first entry without a number, with a fault, or pending with a script that fails on the schema so far, and succeeds exactly if there is none; the schema is that of running the pending scripts before it in order on the old one, and exactly their versions are added |
| `Migrations.StartAppliesPending` | internal/store/migrations.go:37-80 | The same for the specification that the theorems on repeated starts are about |

## Left out

- Kubernetes clients, informers, leader election, manager wiring, and when the next reconcile happens: they belong to foreign libraries and appear only as nondeterministic steps.
- Overlap of an old and a new process: a crash ends every run at once.
- Event watching, policy merging and the backfill of existing resources: resources are created by an environment step.
- Status conditions other than Persisted, the observed generation, notifications, metrics and published phase fragments: no branch of the reconciler reads them.
- The rca_json, context_json, trace_json and confidence columns of a diagnosis row: they are stored and never read by the modelled code.
- Redaction, dashboard access control, context collection and the Kubernetes tool executor: the last two are arbitrary functions here.
- The output-token limit of a chat request: a constant passed through.
- JSON, HTML rendering, prompt texts and Go's `%q` quoting: uninterpreted functions.
- The retry loop that opens a streaming request and the HTTP status handling: the model starts where the read loop starts.
- Paging, ORDER BY and row scanning of the list queries: easy additions to the filter theorems.
- SQLite's limit on the length of LIKE patterns, NUL characters and invalid UTF-8 in filtered text: text is a sequence of Unicode characters there.
- The hourly timing of the pruner: a sweep may begin at any time, which covers every schedule.
- The bootstrap of schema_migrations and the sorting of the directory: the entries come sorted, and any failure is a fault of some entry or an empty start.
- Controller.Operator.Reconcile: other keys do not move during one call of the class; their interleaving is covered by the executions of the transition system.
- Strings in the agent, streaming, chat and SSE modules: one character stands for one byte, so lengths are byte lengths.
