# SentryMesh gateway: verified model

SentryMesh is a security gateway in front of model providers and tools. This project models six of its
stateful components in Dafny and proves what they promise over all inputs, all interleavings and all runs.

| files | component |
|---|---|
| `AsyncModel`, `AsyncInvariant`, `AsyncTheorems`, `AsyncShape`, `AsyncRepository` | the asynchronous audit writer: bounded queue, read-write lock, batching worker, retry loop, drain on close |
| `Identities`, `Policy`, `ApprovalTable`, `ApprovalModel`, `ApprovalInvariant`, `ApprovalTheorems`, `ApprovalHandlers` | tool policy, approval rows and the execute handler |
| `RateLimit` | the token bucket and the rule about windows of time that it decides |
| `AbuseState`, `AbuseTracker`, `AbuseLoads`, `TrafficGuard`, `GuardModel` | lazily decaying abuse scores, cooldowns, the write-through cache, loads that fail, and the guard that composes them with the limiter, request by request and over interleaved requests |
| `Text`, `Normalizer`, `Lists`, `Rag` | splitting and joining, the scanner's normalisation, and the retrieval context builder |
| `Migrations`, `MigrationTheorems`, `MigrationRunner` | the schema migration runner |
| `Machines` | labelled transition systems and induction over their runs |

Concurrent components are transition systems `Step(state, action)`: any number of calls, each with its program
points, interleaved action by action; a theorem about every enabled action sequence is a theorem about every
interleaving. The objects themselves are classes whose methods keep the source's fields, loops and branches; each
method is proved to be a run of the transition system (ghost fields `trace` and `machine`), so the theorems about runs
hold of it, or to compute a function whose own properties are proved.

Results that contradict what one might expect of the code are stated as such:

- With a sink that has no batch call of its own, or that can store data and still report an error, events can be
  stored more than once; `ExactlyOnceIff` gives the exact condition.
- An EXECUTING approval stays so for ever if and only if its claim holder sends no statement any more: it is gone, or
  its context is cancelled (`ReleasableIff`). The ways to get there are each shown by a run: the handler dies after its
  claim (`StrandedByCrash`), the claim takes effect after its call reported an error (`StrandedByLateClaim`), the
  request is cancelled before its tool runs (`StrandedByCancellation`) or after it has run (`StrandedAfterExecution`),
  or the last statement is lost (`StrandedByLoss`).
- An approved deletion never runs, because no executor exists for it (`ApprovedAndExecutable`).
- A cooldown can be lost if the clock goes back (`ClockBackLosesCooldown`). For every history and clock, one that is
  not over is enforced if and only if no check since its entry has had a reading at its end or later
  (`CooldownSurvivesIff`, `BlockedExactly`).
- The middleware loads a key's stored score on the request's own context. If that fails, the request goes on with what
  memory holds, and after a restart that is nothing. A stored cooldown is then enforced if and only if the key has been
  loaded since, and it is lost as soon as points are added before that (`CooldownSurvivesLoads`,
  `FailedLoadLosesCooldown`).
- The limiter's retry advice can fail for a caller whose clock lags (`LaggingCallerDenied`); with a capacity of at
  least one and a positive rate it is kept if and only if what is left of it, the lag taken off, is at least the exact
  wait (`RetryForCaller`).
- Of two gateways that migrate at the same time, the one overtaken between its check and its insert returns an error
  although the schema is complete and nothing has gone wrong (`CompleteYetError`); `CanReturnNilIff` gives the exact
  condition.
- The admin role does not override a document's role list (`Authorize`).

## Idealisations

- `float64` is `real`; rounding is not modelled. Counters are unbounded where the code has `uint64`.
- Times and durations are unbounded integer nanoseconds; the limiter's test "elapsed seconds are positive" is the test
  that the reading is later. `time.Duration` saturation and database timestamp precision are not modelled.
- A SQL statement is one atomic row update. A store call either is applied and answered, or reports an error; after an
  error the statement may still take effect at any later time, or be lost for good. A request can be cancelled at any
  time; on a cancelled context no statement is sent.
- A call of the audit sink may store data and still report an error, and one that had stored nothing when it reported
  its error may store all it was given at any later time, once; the configuration `honestErrors` is the case in which
  neither ever happens.
- In a guarded history, and so in the guard, the loads of stored scores succeed; `AbuseLoads` is about those that fail.
- Regular expressions, the scanner's verdict on a text, `strings.ToLower`, `strings.EqualFold` and the `%q` verb are
  arbitrary functions. Strings are sequences of Unicode characters. Format characters (category Cf) are those of
  Unicode 15.
- JSON encoding and decoding of stored arguments is the identity, when it succeeds.
- A waiting `RWMutex` writer may be overtaken by later readers in the model. In Go it may not, so the model has more
  runs than the code.
- Migration file names are distinct. Migration bodies do not end their transaction and do not write
  `schema_migrations`.

## Model

| member | source | states |
|---|---|---|
| AsyncTheorems.Reaches | gateway/internal/audit/async.go:107-298 | every reachable state of any number of Write and Close calls and the worker satisfies mutual exclusion, close-flag, conservation, worker, call, counter and sink invariants |
| AsyncTheorems.ExactlyOnceInOrder | gateway/internal/audit/async.go:107-274 | with all-or-nothing attempts, sink, unwritten batch and queue are together exactly the accepted events in send order; at most QueueSize + BatchSize are unpersisted |
| AsyncTheorems.AtLeastOnceInOrder | gateway/internal/audit/batch.go:14-40 | with any sink, also the partial fallback loop and attempts that land late, the first occurrences in the sink are a prefix of the accepted events and nothing is lost |
| AsyncShape.SinkShape | gateway/internal/audit/batch.go:23-39 | in every run the sink is an interleaving of what calls stored before they answered and of late segments. The first is, batch by batch, one beginning of the batch for each failed attempt and then the whole batch, and at the end what the current attempts have left. The late segments and those still under way are, each once, what failed calls were given and had not stored |
| AsyncTheorems.WriteOutcome | gateway/internal/audit/async.go:103-158 | a Write that returned nil put its event into the history exactly once; one that returned an error left nothing anywhere, nor anything that may yet reach the sink |
| AsyncTheorems.RealTimeOrder | gateway/internal/audit/async.go:120-147 | a Write that returned before another began comes first in the history |
| AsyncTheorems.ExactlyOnceIff | gateway/internal/audit/batch.go:23-39 | no run ever repeats an event in the sink if and only if errors are honest and the sink has a batch call or batches hold one event |
| AsyncTheorems.RepeatingRun | gateway/internal/audit/async.go:235-273 | in every other configuration there is a run that stores an event twice |
| AsyncTheorems.CountersBalance | gateway/internal/audit/async.go:122-147 | at every step enqueued plus the sends not yet counted is flushed plus batch plus queue, up to a batch persisted but not counted |
| AsyncTheorems.NoDoubleClose | gateway/internal/audit/async.go:165-167 | neither channel is ever closed twice, in any interleaving of Close calls |
| AsyncTheorems.StopFreezesQueue | gateway/internal/audit/async.go:205-227 | once stop is closed no Write is past the closed check, nothing more is accepted, and the queue only shrinks from the front |
| AsyncTheorems.CloseDrains | gateway/internal/audit/async.go:276-298 | when Close returns nil, queue and batch are empty, enqueued equals flushed, and every acknowledged event is in the sink |
| AsyncTheorems.DrainBound | gateway/internal/audit/async.go:205-273 | after stop, the worker's progress is bounded: every failed sink call costs at most one batch of repeated writes |
| AsyncTheorems.DrainCompletes | gateway/internal/audit/async.go:208-225 | from every such state the worker alone, with a sink that answers, closes done within the bound |
| AsyncInvariant.InvKept | gateway/internal/audit/async.go:107-298 | every action of every call and of the worker, and every late store of the sink, keeps the whole invariant |
| AsyncInvariant.SinkAppendSegment | gateway/internal/audit/batch.go:23-28 | storing a segment of the history that begins no later than the first missing event leaves first occurrences in order, in its turn or late |
| AsyncRepository.AsyncRepository.Write | gateway/internal/audit/async.go:107-158 | refused when closed, queued and counted when there is room; with a full queue counted as saturated and then, if the worker receives meanwhile, queued by the second select, otherwise ended by its context; a run of the machine |
| AsyncRepository.AsyncRepository.Close | gateway/internal/audit/async.go:276-286 | Close up to its select: stop is closed exactly once; a run of the machine |
| AsyncRepository.AsyncRepository.WriteBatch | gateway/internal/audit/batch.go:14-40 | one write attempt leaves in the sink exactly what its outcome says: the batch, nothing, or a prefix |
| AsyncRepository.AsyncRepository.WriteFirst | gateway/internal/audit/batch.go:30-37 | the fallback loop stores the first events of the batch in order |
| AsyncRepository.AsyncRepository.PersistWithRetry | gateway/internal/audit/async.go:230-274 | the sink grows by what the failed attempts leave, then by the whole batch; counters follow; pauses are 25 ms doubling to one second |
| AsyncRepository.NextPause | gateway/internal/audit/async.go:233-272 | the loop's doubling and capping is the closed form min(25 * 2^n, 1000) |
| AsyncRepository.AsyncRepository.FinishFlush | gateway/internal/audit/async.go:179-187 | flush appends the buffered batch to the sink and empties the buffer, and does nothing on an empty one |
| AsyncRepository.AsyncRepository.TakeEvent | gateway/internal/audit/async.go:191-200 | one event moves from the channel into the array buffer, which is flushed when full |
| AsyncRepository.AsyncRepository.SelectLoop | gateway/internal/audit/async.go:189-203 | any series of receives and ticks keeps the buffer below the batch size and is a run of the machine |
| AsyncRepository.AsyncRepository.DrainLoop | gateway/internal/audit/async.go:208-219 | after stop the loop receives until the channel is empty |
| AsyncRepository.AsyncRepository.RunWorker | gateway/internal/audit/async.go:164-228 | the worker ends with done closed, everything accepted delivered in order, and enqueued equal to flushed |
| Policy.CollectStrings | gateway/internal/tools/policy.go:207-222 | the loop keeps exactly the strings among the items, in order |
| Policy.FindBanned | gateway/internal/tools/policy.go:103-112 | the loop finds the first field whose lower-case form is banned |
| Policy.ReadCustomer | gateway/internal/tools/policy.go:77-120 | allowed if and only if no field is sensitive and, for analysts, none is a contact field; the refusal of a sensitive field names one of the call |
| Policy.UpdateCustomer | gateway/internal/tools/policy.go:160-205 | denied if and only if a protected field is touched or the caller is an analyst; waits for approval if and only if none is touched and the caller is sales; the refusal of a protected field names one of the call |
| Policy.DecisionIff | gateway/internal/tools/policy.go:31-205 | exactly which calls run at once and which wait for a human; all others, unknown tools included, are denied |
| Policy.FewerFieldsNoStricter | gateway/internal/tools/policy.go:77-205 | asking for a part of the fields is never decided more strictly, whatever their order and repetition |
| Policy.ApprovedAndExecutable | gateway/internal/tools/policy.go:31-205 | a call needs approval and has an executor if and only if it is an external email of a non-analyst or an unprotected update by sales |
| ApprovalTable.Store.Create | gateway/internal/approval/store.go:78-121 | a new PENDING row under the next id, whatever the connection reports |
| ApprovalTable.Store.Exec | gateway/internal/approval/store.go:219-320 | one conditional update: the matching row alone changes, and the count says whether it did |
| ApprovalTable.Store.Resolve | gateway/internal/approval/store.go:219-250 | only a PENDING row is resolved, and the caller is told if it was not |
| ApprovalTable.Store.ClaimExecution | gateway/internal/approval/store.go:252-279 | only an APPROVED row without execution mark is claimed, and true means claimed |
| ApprovalTable.Store.FinishExecution | gateway/internal/approval/postgres.go:243-271 | only an EXECUTING row is finished; the checking variant reports a missing one |
| ApprovalTable.Store.FailExecution | gateway/internal/approval/postgres.go:273-299 | only an EXECUTING row goes back to APPROVED; the checking variant reports a missing one |
| ApprovalTable.Store.ListActive | gateway/internal/approval/store.go:330-385 | exactly the active rows, each once, newest first; no list if query or scan fails |
| ApprovalInvariant.InvKept | gateway/internal/api/execute.go:58-282 | every evaluation, resolution, handler step, crash and late statement keeps the protocol invariant |
| ApprovalInvariant.Reaches | gateway/internal/api/execute.go:58-282 | so every reachable state satisfies it |
| ApprovalTheorems.ExecutedAtMostOnce | gateway/internal/api/execute.go:133-282 | over all runs each approval is executed at most once and has at most one outstanding claim, live or abandoned |
| ApprovalTheorems.StatusMeaning | gateway/internal/approval/store.go:252-320 | executed_at is set exactly for EXECUTED rows; EXECUTING is exactly one outstanding claim; EXECUTED rows have an execution |
| ApprovalTheorems.SuccessEvents | gateway/internal/api/execute.go:293-300 | a success event is only ever written for an EXECUTED row |
| ApprovalTheorems.ExecutedWasApproved | gateway/internal/api/approvals.go:65-99 | every executed call was evaluated with that same tool and arguments to require approval and then approved by an admin, although the handler works from an earlier snapshot |
| ApprovalTheorems.HolderFindsRow | gateway/internal/api/execute.go:237-262 | a live holder's finish or fail always matches exactly its row |
| ApprovalTheorems.StoresAgree | gateway/internal/approval/postgres.go:189-299 | the SQLite and the PostgreSQL store have the same runs |
| ApprovalTheorems.RowLife | gateway/internal/approval/store.go:219-320 | tool and arguments never change, EXECUTED rows and rejections are final, and no row becomes PENDING again |
| ApprovalTheorems.ReleasableIff | gateway/internal/api/execute.go:133-282 | an EXECUTING row can ever leave that status if and only if its claim holder is still there with its context not cancelled, whether or not its tool has run, or its last statement was sent and, though the call reported an error, is not lost |
| ApprovalTheorems.StaysAbandoned | gateway/internal/api/execute.go:133-144 | an abandoned claim stays abandoned in every continuation |
| ApprovalTheorems.StrandedByCrash | gateway/internal/api/execute.go:161-189 | a run in which the handler dies after its claim and the row stays EXECUTING for ever |
| ApprovalTheorems.StrandedByLateClaim | gateway/internal/api/execute.go:133-144 | the same for a claim that takes effect after its call reported an error |
| ApprovalTheorems.StrandedByCancellation | gateway/internal/api/execute.go:204-247 | the same for a request cancelled when its tool is about to run |
| ApprovalTheorems.StrandedAfterExecution | gateway/internal/api/execute.go:259-281 | the same for a request cancelled after its tool has run: the execution has happened and the row never leaves EXECUTING |
| ApprovalTheorems.StrandedByLoss | gateway/internal/api/execute.go:259-281 | the same for a FinishExecution that is lost after the tool has run |
| ApprovalHandlers.Gateway.EvaluateTool | gateway/internal/api/tools.go:40-258 | every answer and the table after it, errors included: a call that requires approval creates exactly one PENDING row, which an error on the way back does not undo; all others create none |
| ApprovalHandlers.Gateway.ResolveApproval | gateway/internal/api/approvals.go:55-99 | every answer and the table after it: 401, 403 and 400 change nothing, 200 means this PENDING row was resolved, after 404 it may have been by an unanswered call |
| ApprovalHandlers.Gateway.ReadAndClaim | gateway/internal/api/execute.go:58-159 | read, check and claim: continues only with an executable row that was claimed |
| ApprovalHandlers.Gateway.RunTool | gateway/internal/api/execute.go:211-282 | at most one execution, of exactly the item read, and none if the request is cancelled by then; success means the row is EXECUTED; cancelled before its last statement it answers 500 and leaves the table alone |
| ApprovalHandlers.Gateway.Complete | gateway/internal/api/execute.go:259-300 | the finish, if it is sent, always finds the row, so only an unanswered call or a cancelled request is reported as a failure |
| ApprovalHandlers.Gateway.ExecuteApproval | gateway/internal/api/execute.go:24-300 | the whole handler, cancelled at any point or not at all, is a run of the machine: 401, 403 and 400 have no effect, at most the call of the row as read is executed, a request cancelled before its last statement does not succeed, and undisturbed an executable row of a known tool always succeeds |
| RateLimit.FoundIsLeastAllowance | gateway/internal/ratelimit/limiter.go:42-70 | the tokens in the bucket are the smallest allowance over all windows that end now |
| RateLimit.BucketDecidesWindows | gateway/internal/ratelimit/limiter.go:42-70 | a request is admitted if and only if no window exceeds capacity + rate * length, for every capacity and rate and however the clock jumps |
| RateLimit.AdmittedAfter | gateway/internal/ratelimit/limiter.go:54-70 | a denied key's next request is admitted if and only if capacity is at least one, the rate positive and the time since the latest reading positive and at least the exact wait |
| RateLimit.RetrySuffices | gateway/internal/ratelimit/limiter.go:72-87 | one nanosecond after the advice the key is admitted if and only if capacity is at least one and the rate is positive |
| RateLimit.TooEarly | gateway/internal/ratelimit/limiter.go:76-87 | above the floor, one nanosecond before the advice it never is |
| RateLimit.RetryForCaller | gateway/internal/ratelimit/limiter.go:42-87 | a denied caller that counts the advice from its own reading is admitted one nanosecond later if and only if capacity is at least one, the rate positive, and what is left of the advice, the lag of its clock taken off, is at least the exact wait |
| RateLimit.LaggingCallerDenied | gateway/internal/ratelimit/limiter.go:54-87 | a concrete limiter and history in which a caller lagging by two nanoseconds takes the advice and is denied again |
| RateLimit.Limiter.Allow | gateway/internal/ratelimit/limiter.go:36-88 | the answer is what the rule about windows says of the key's own calls; other keys are untouched |
| AbuseState.FadedScore | gateway/internal/abuse/tracker.go:95-124 | one read leaves max(0, s - floor(elapsed / decayEvery)) |
| AbuseState.DecayTwice | gateway/internal/abuse/tracker.go:95-124 | decaying twice is decaying once, to the later time |
| AbuseState.ReadsLeaveNoTrace | gateway/internal/abuse/tracker.go:206-262 | after any series of Check and Score calls, in any order of readings, the score is max(0, s - floor((t - lastUpdated) / decayEvery)) for the latest reading t alone |
| AbuseState.BlockedIff | gateway/internal/abuse/tracker.go:184-243 | with a monotone clock, a check blocks if and only if some cooldown entry is less than a cooldown old, says exactly how long, and entries are a cooldown apart |
| AbuseState.CooldownHolds | gateway/internal/abuse/tracker.go:184-243 | until a reading reaches its end, later points neither extend nor shorten a cooldown and every check blocks, in any order of readings |
| AbuseState.ClockBackLosesCooldown | gateway/internal/abuse/tracker.go:235-238 | a concrete history in which a clock that goes back ends a cooldown early |
| AbuseState.BlockedExactly | gateway/internal/abuse/tracker.go:157-243 | for every history and every clock: a check blocks if and only if the last entry's end lies ahead and no check since has had a reading at that end or later, and says how long |
| AbuseState.CooldownSurvivesIff | gateway/internal/abuse/tracker.go:225-243 | a cooldown that is not over is enforced if and only if no check since its entry has had a reading at its end or later |
| AbuseTracker.KeyForInjective | gateway/internal/middleware/abuse.go:90-93 | different API keys have different tracker keys |
| AbuseTracker.Tracker.RegisterKey | gateway/internal/abuse/tracker.go:60-93 | the key's stored state, if there is one and the load succeeds, replaces the one in memory |
| AbuseTracker.Tracker.Persist | gateway/internal/abuse/tracker.go:126-155 | the key's state is written through when the store works and the key is registered |
| AbuseTracker.Tracker.Add | gateway/internal/abuse/tracker.go:157-204 | the new memory and store and the answer are those of the specification |
| AbuseTracker.Tracker.Check | gateway/internal/abuse/tracker.go:206-243 | the new memory and store and the answer are those of the specification |
| AbuseTracker.Tracker.Score | gateway/internal/abuse/tracker.go:245-262 | the new memory and store and the answer are those of the specification |
| AbuseTracker.UseSynced | gateway/internal/abuse/tracker.go:126-204 | each guarded operation keeps memory and store in agreement |
| AbuseTracker.CacheIsInvisible | gateway/internal/abuse/tracker.go:60-262 | over every guarded history, with any keys and restarts anywhere and loads that succeed, the answers are those of the stored states alone and memory agrees with the store |
| AbuseTracker.ReloadIsNoop | gateway/internal/middleware/abuse.go:95-99 | registering a registered key again changes nothing |
| AbuseTracker.RestartsAreInvisible | gateway/internal/abuse/tracker.go:60-93 | two histories with the same uses, however often restarted, answer alike and store alike |
| AbuseTracker.KeysAreIndependent | gateway/internal/abuse/tracker.go:15-23 | each key's state and answers are what its own operations alone produce |
| AbuseTracker.ScoresStayNonNegative | gateway/internal/abuse/tracker.go:114-118 | with non-negative points no stored score is ever negative |
| AbuseLoads.AnswersFromMemory | gateway/internal/abuse/tracker.go:60-93 | whatever loads fail and however often the process restarts, an operation is answered from the key's stored history if memory has it and otherwise as for a new key, and the store has that history |
| AbuseLoads.CooldownSurvivesLoads | gateway/internal/middleware/abuse.go:95-104 | a stored cooldown that no reading has reached outlives restarts and failed loads as long as no points are added while memory does not have it: a check then blocks, with the time left, if and only if memory has it; otherwise it is lost and nothing depends on the earlier history |
| AbuseLoads.FailedLoadLosesCooldown | gateway/internal/middleware/abuse.go:95-104 | a concrete history in which a restart and one request whose load fails end a cooldown early |
| TrafficGuard.CheckAnswer | gateway/internal/middleware/abuse.go:90-104 | inside any guarded history a check answers what its key's own operations up to then determine |
| TrafficGuard.CooldownEnforced | gateway/internal/middleware/abuse.go:101-145 | a check inside any such history blocks if and only if one of the key's cooldown entries is not over |
| TrafficGuard.Guard.RestartProcess | gateway/internal/abuse/tracker.go:60-93 | a restart loses memory and buckets, and the invariant of the whole guard survives it |
| TrafficGuard.Guard.CheckKey | gateway/internal/middleware/abuse.go:95-102 | register, then check, as the next two acts of the history |
| TrafficGuard.Guard.Limit | gateway/internal/middleware/ratelimit.go:52-58 | the handler is reached if and only if the key's requests fit every window |
| TrafficGuard.Guard.Charge | gateway/internal/middleware/abuse.go:156-169 | points are added exactly when there are some |
| TrafficGuard.Guard.Proceed | gateway/internal/middleware/abuse.go:147-169 | past the abuse check: limiter, handler, then the points of the response |
| TrafficGuard.Guard.ServeKey | gateway/internal/middleware/abuse.go:90-169 | a cooling-down key reaches neither limiter nor handler and gets no points; a rate-limited one does not reach the handler; points follow the response |
| TrafficGuard.Guard.Serve | gateway/internal/middleware/abuse.go:42-88 | without an identity nothing is touched; otherwise the request is its key's |
| GuardTheorems.InvKept | gateway/internal/middleware/abuse.go:59-209 | every step of any interleaved requests, restarts included, keeps the guard's invariant |
| GuardTheorems.GatesHold | gateway/internal/middleware/abuse.go:42-57 | in every interleaving a finished request was refused for abuse if and only if its key was in a cooldown at its check, and then reached neither limiter nor handler; otherwise it reached the handler if and only if its call fits every window |
| GuardTheorems.HandlerIsGuarded | gateway/internal/middleware/ratelimit.go:52-58 | the handler serves no request twice and only such as passed both gates, also when the process dies later |
| GuardTheorems.ChargesAreExact | gateway/internal/middleware/abuse.go:156-169 | the additions to the scores are, one for one, the finished requests that cost points, with their key and points |
| Text.JoinOfSplit | gateway/internal/rag/firewall.go:58-69 | joining undoes splitting at the same character |
| Text.SplitOfJoin | gateway/internal/rag/firewall.go:58-69 | splitting undoes joining if and only if the list is nonempty and no piece has the separator |
| Text.TrimSpaceTrims | gateway/internal/rag/firewall.go:26 | trimming yields a trimmed part of the text and leaves exactly the trimmed texts alone |
| Text.SplitScopes | gateway/internal/auth/store.go:220-237 | the loop keeps the trimmed nonempty parts, in order |
| Text.ScopesRoundTrip | gateway/internal/auth/store.go:92-237 | stored scopes come back as they were if and only if each is nonempty, trimmed and comma-free |
| Normalizer.Normalize | gateway/internal/scanner/injection.go:98-139 | the string builder loop computes the normal form |
| Normalizer.NormalizedIff | gateway/internal/scanner/injection.go:98-139 | two texts normalise alike if and only if they have the same cleaned words |
| Normalizer.NormalizeIdempotent | gateway/internal/scanner/injection.go:98-139 | normalising a normalised text changes nothing |
| Normalizer.WordsAcrossSpace | gateway/internal/scanner/injection.go:138 | white space separates words, however much of it there is |
| Normalizer.VariantsNormalizeAlike | gateway/internal/scanner/injection.go:98-139 | any chain of inserted or removed format characters, swapped twins and resized white space leaves the normal form as it is |
| Normalizer.ScanRaw | gateway/internal/scanner/injection.go:141-165 | the findings depend on the normal form alone |
| Rag.Authorize | gateway/internal/rag/authorization.go:14-61 | allowed if and only if the declarative access rule permits it; otherwise the first rule that fails is the reason |
| Rag.RemoveSuspiciousLines | gateway/internal/rag/firewall.go:57-70 | the loop keeps exactly the lines that scan clean |
| Rag.RemainingLinesScanClean | gateway/internal/rag/firewall.go:57-70 | before the final trim every line left scans clean if and only if a line is left or the empty text scans clean; order is kept |
| Rag.Inspect | gateway/internal/rag/firewall.go:25-55 | blocked if and only if dirty and untrusted, allowed if and only if clean; what goes through is the trimmed text, which scans clean, or of a trusted dirty document exactly its clean lines in order |
| Rag.AuthorizeAll | gateway/internal/rag/pipeline.go:31-75 | stage 1: an entry for each document, and the permitted documents with their positions |
| Rag.BlockAll | gateway/internal/rag/pipeline.go:108-113 | blocking after an aggregate scan changes exactly the entries at the indexes |
| Rag.InspectAll | gateway/internal/rag/pipeline.go:129-156 | stage 3: the two parallel lists stay aligned with the entries |
| Rag.AdmitAll | gateway/internal/rag/pipeline.go:199-208 | stage 5: exactly the entries at the safe indexes become included |
| Rag.BuildContext | gateway/internal/rag/pipeline.go:16-218 | the five stages refine the specification: each entry depends on its document and the mode of the whole retrieval alone |
| Rag.TraceIsComplete | gateway/internal/rag/pipeline.go:31-217 | one entry for each document in order; included if and only if not blocked; none left pending |
| Rag.ContextIsTheIncluded | gateway/internal/rag/pipeline.go:199-217 | the context is the sanitised documents at the included positions, in order |
| Rag.ContextIsAuthorized | gateway/internal/rag/pipeline.go:31-156 | every context document is permitted and changed in its text alone; unfiltered text scans clean, filtered text is not from an untrusted source |
| Rag.ContextScansClean | gateway/internal/rag/pipeline.go:166-192 | the context as one text scans clean if and only if there is a context or the empty text scans clean |
| Rag.NonInterference | gateway/internal/rag/pipeline.go:31-208 | documents the caller may not see influence neither the context nor the other entries |
| Rag.DeniedDocumentsAreInvisible | gateway/internal/rag/pipeline.go:31-208 | taking them out of the input changes nothing |
| MigrationModel.SortAscends | gateway/internal/database/migrations.go:47-53 | sorting puts the directory listing, and so the versions, in strictly ascending order |
| MigrationInvariant.InvKept | gateway/internal/database/migrations.go:47-149 | every action of every runner and of the database keeps the migration invariant |
| MigrationTheorems.RecordedIsPrefix | gateway/internal/database/migrations.go:47-149 | wherever runners die, the recorded versions are a beginning of the sorted list, and exactly their bodies are committed, each once and in order |
| MigrationTheorems.NilMeansComplete | gateway/internal/database/migrations.go:55-149 | a run that returned nil has the whole list recorded and applied |
| MigrationTheorems.RecordsOnlyGrow | gateway/internal/database/migrations.go:121-140 | nothing recorded is ever taken back |
| MigrationTheorems.OneRecordInFlight | gateway/internal/database/migrations.go:99-140 | at most one transaction holds an uncommitted record, and it is the next version |
| MigrationTheorems.CanReturnNilIff | gateway/internal/database/migrations.go:55-149 | a call can still return nil if and only if it has not failed, was not overtaken after its check, and still has its transaction |
| MigrationTheorems.CompleteYetError | gateway/internal/database/migrations.go:62-138 | for every nonempty list, a run of two runners in which nothing goes wrong, the schema is complete, and the insert of the overtaken one must fail |
| MigrationTheorems.AlwaysRestartable | gateway/internal/database/migrations.go:16-150 | however earlier runs ended, a new one can complete the migrations |
| MigrationRunner.FirstEndIsFirst | gateway/internal/database/migrations.go:76-146 | the version that ends a run is the first whose check, read, transaction or commit fails |
| MigrationRunner.Database.Transact | gateway/internal/database/migrations.go:99-146 | body and record take effect together or not at all; an error on commit leaves either |
| MigrationRunner.Database.TakeVersion | gateway/internal/database/migrations.go:60-146 | a recorded version is skipped, any other applied once |
| MigrationRunner.Database.RunMigrations | gateway/internal/database/migrations.go:16-150 | the whole loop over the directory entries: which fault ends it and what is recorded then; a run of the machine |

## Left out

- AsyncRepository.AsyncRepository.Write: covers a call that meets no other call; contended calls are the transition system's.
- AsyncRepository.AsyncRepository.WriteBatch: says what the sink has when the call returns; what lands later is the transition system's.
- AsyncTheorems.CloseDrains: does not bound how long Close takes, because Close does not look at its context while it waits for the lock.
- AsyncTheorems.DrainBound: bounds actions, not time; pauses of the retry loop are modelled by their lengths alone.
- The length of the write timeout, enqueueWaitNS, queue statistics and the constructor's option checks.
- ApprovalTheorems.SuccessEvents: says nothing about the order of audit events and row changes, which are separate steps.
- ApprovalHandlers.Gateway.ExecuteApproval: the texts of responses and the executor's output are left out.
- The audit events of evaluation, approval and rejection.
- The listing of pending approvals; it is the listing of active ones with a smaller condition.
- RateLimit.RetrySuffices: is about nanoseconds; the Retry-After header (section 10.2.3 of RFC 9110) is rounded to the nearest second, so a client that waits that long may still be denied.
- AbuseTracker.CacheIsInvisible: is about one process at a time and a store that works; several gateways sharing one store are not modelled.
- TrafficGuard.Guard.ServeKey: one request after another; interleaved requests are the transition system's (`GuardModel`).
- Abuse events, the status recorder, metrics and response bodies.
- Normalizer.ScanRaw: the exemption of benign discussions and the scan of base64 text are not invariant under the edits, so nothing is claimed of the complete scan.
- Rag.RemainingLinesScanClean: is about the text before the final trim, which can change its first and last line.
- MigrationRunner.Database.RunMigrations: nobody else uses the database meanwhile; other runners are the transition system's.
- The error return of reading the embedded directory, which cannot fail.
- The effect of a migration body on the schema: a body is an indivisible event in the log of committed bodies.
- HTTP encoding, tracing spans, logging, environment parsing, CORS and body limits: no hard state.
- Model providers, SQL drivers and connection pools: only the effect of a call and its answer is modelled.
- PII and secret patterns, risk scoring, metrics and the evaluation tools: small arithmetic and pattern lists.
