# Verified model of the order-analysis backend

A Dafny model of the parts of the system whose correctness is a matter of protocols and
invariants, with proofs of what they promise. `dafny verify dfyconfig.toml` checks everything.

The components, and the modules they live in:

* **The durable job queue** (`JobTable`, `JobRuns`, `JobTheorems`, `JobHistory`, `JobQueue`). The rows of the job
  table and the transactions of the queue; all interleavings of any number of workers that claim, stall,
  crash and come back, with run cancellation as one more step; and the queue's operations as a
  class. The history of a run is an event log from which a job's life is read off independently
  of its row; fencing, at-most-once completion, the attempt and execution bounds, and what every
  transaction decides are stated on it.
* **The rate limiter** (`RateLimit`, `RateBursts`). Token buckets over exact reals in an ordered dictionary with
  least-recently-used eviction: the rate bound, how many calls are admitted exactly, agreement
  with the unbounded limiter, and the announced waiting times.
* **The canonical encoding** (`JsonText`, `Surrogates`, `MemberOrder`, `Canonical`, `Collisions`). Python's
  `json.dumps` of the type-tagged payload, read back token by token: which payloads share a text.
* **Idempotency keys** (`IdempotencyKeys`, `IdempotencyRuns`, `IdempotencyTheorems`, `ApplyRetry`,
  `SubmissionKeys`). The key table; commands interleaved statement by statement under row locks,
  with host clocks apart from the database clock and the purge; the retry loop of applying a
  recommendation; and the browser's hook, composed with the server.
* **The agent loop** (`AgentRanking`, `AgentLoop`, `AgentFacts`, `AgentDecisions`, `AgentContent`,
  `AgentEvidence`, `AgentTranscript`). The bounded loop against a provider that replies anything at
  all: resources, what every turn comes to, noninterference, grounding, the evidence rules and the
  conversation.
* **Runs, tasks and recommendations** (`RunTables`, `RunLifecycle`, `RunCommands`, `RunTheorems`). Requesting,
  retrying, cancelling and dispatching, mixed with an environment standing for the orchestrator,
  the executor, the approvals service and the queue.
* **Administration** (`AdminTables`, `AdminCommands`, `AdminTheorems`). Granting, revoking and deactivating, the
  last administrator, and session rotation.
* **Synthetic notes** (`NoteTemplates`, `NoteFrames`, `NoteSplit`, `NoteTurns`, `NoteBanks`). Rendering templates,
  normalising notes and filling a split from a bank of templates.

Where the code does less than its own text says, the model follows the code:

* `begin` says that `PURGE_GRACE` absorbs clock skew (`idempotency/service.py:153-155`). It does, up to exactly
  that lag, for operations whose commands never commit a rejection. `apply` releases its key when it
  commits a rejection (`api/recommendations.py:291-301`), and a release by a host whose clock is
  ahead frees the key early: then any skew or delay shortens the retention of `apply`, and of no
  other operation, by as much (`IdempotencyTheorems.RetentionExactly`).
* `_tagged` says that distinct values never collide (`idempotency/service.py:44-48`). A string that
  spells an astral character as two surrogate code points shares its text with the one that has
  the character (`Surrogates.AstralCollision`), as a value or as a key; exactly which payloads collide is
  `Collisions.CollisionsExactly`. `json.loads` joins escaped pairs, so such a string comes from a
  caller that builds it, not from a JSON body.
* The dispatcher reads the run without a lock, so a cancellation can be missed
  (`RunTheorems.UnlockedDispatchMissesCancel`).
* The last-administrator check is not serialised (`AdminTheorems.ConcurrentCommands`).
* `generate_split` says that every template is used before any repeats (`scripts/build_notes_dataset.py:573-580`).
  A template whose text was seen before or is too close to the other split loses its turn, and another
  may then repeat first (`NoteBanks.RealTurnIsLost`). For templates that never render to the same text the
  promise holds, whatever is drawn, exactly when no more of them may lose their turn than the split can
  spare (`NoteTurns.TurnsExactly`): always when nothing is close or seen, and with 22 notes from 24
  templates as long as at most two may lose it (`NoteBanks.FewLosersTakeTurns`).
* `model_calls` does not count a provider call that raised (`agents/base.py:357-371`).

## Model

| member | source | states |
|---|---|---|
| JobRuns.InvStep | services/backend/app/jobs/queue.py:92-356 | Every transaction of any worker, a cancelled run's included, keeps every row consistent (READY: attempt < max_attempts, no token, no deadline; LEASED: 1 <= attempt <= max_attempts, both set), dedupe keys and lease tokens unique, and every row equal to what the event history says of it |
| JobTheorems.FenceIsCurrentLease | services/backend/app/jobs/queue.py:258-263 | A token passes the fence exactly while the history says its lease is the job's current one |
| JobTheorems.ReplacedTokenIsInert | services/backend/app/jobs/queue.py:266-356 | Fencing over all runs: after a later claim of the job, a heartbeat, completion or failure with the earlier token changes nothing |
| JobTheorems.ClaimRespectsLease | services/backend/app/jobs/queue.py:132-170 | A job is handed out only after its backoff is over or its last lease, with all its extensions, ran out |
| JobTheorems.CompletedByLastClaimant | services/backend/app/jobs/queue.py:285-302 | A completion was made under the lease of the job's last claim |
| JobTheorems.AtMostOnce | services/backend/app/jobs/queue.py:173-255 | Over a whole run, crashes included, a job completes at most once and exactly when its row is DONE, is handed out exactly attempt <= max_attempts times, is exhausted at most once, and its exhaustion hook runs at most once, only on a FAILED row |
| JobTheorems.TerminalRowsAreFinal | services/backend/app/api/runs.py:301-310 | DONE, FAILED and CANCELLED rows never change again under queue steps and run cancellations |
| JobTheorems.ClaimsAreBounded | services/backend/app/jobs/queue.py:209-255 | The claim transactions that find a row are at most the sum of max_attempts + 1 over all jobs ever enqueued |
| JobTable.ExhaustionOnlyFromExpiredLastLease | services/backend/app/jobs/queue.py:223-236 | The exhaustion branch is taken exactly for an expired lease at the last attempt |
| JobHistory.JobsAreAsQueued | services/backend/app/jobs/queue.py:92-129 | In every run a row is about the job that was enqueued, queue, type, payload, key and budget, and is due when its history says |
| JobHistory.EnqueueAddsExactly | services/backend/app/jobs/queue.py:108-129 | A job is added exactly for a known queue, a positive budget and a dedupe key no job was enqueued with |
| JobHistory.ClaimServesTheFirst | services/backend/app/jobs/queue.py:132-151 | A claim may serve a job exactly when, by the history, it is in the queues, its backoff is over or its lease ran out, and no unlocked job like that was due earlier, or as early and enqueued before |
| JobHistory.ClaimLeasesExactly | services/backend/app/jobs/queue.py:152-255 | A claim leases the job until the end of its lease while fewer leases were handed out than it was enqueued with; otherwise the job fails and its hook is owed |
| JobHistory.FailureIsRetriedExactly | services/backend/app/jobs/queue.py:323-356 | Under the current lease a failure waits out its backoff exactly when it is retryable and fewer leases were handed out than the job was enqueued with; otherwise the job fails and its hook is owed; under any other token nothing happens |
| JobHistory.BackoffDoubles | services/backend/app/jobs/queue.py:65-69 | The backoff starts at four seconds, doubles with every lease and stops at a minute |
| JobHistory.CancelWithdrawsExactly | services/backend/app/api/runs.py:301-310 | A cancelled run withdraws exactly the waiting agent jobs of its tasks |
| JobHistory.StepsLeaveMarks | services/backend/app/jobs/queue.py:147-356 | What each transaction notes on a row, of worker, heartbeat, error and end, and that it notes nothing else and nothing elsewhere |
| JobQueue.DrainedRow | services/backend/app/jobs/queue.py:209-255 | The jobs one claim call fails on its way were leases at their last attempt, expired when their own round read the clock, each failed once; every other row is left alone |
| JobQueue.JobQueue.FirstRunnable | services/backend/app/jobs/queue.py:136-149 | The row selected is runnable and first by (available_at, created_at), or there is none |
| JobQueue.JobQueue.Claim | services/backend/app/jobs/queue.py:191-255 | The claim loop terminates whatever its rounds read from the clock; it returns the job that is first at its round under a new token, or nothing when none is runnable at its last round, after failing exactly the exhausted jobs before it, whose hooks run in that order |
| JobQueue.JobQueue.Heartbeat | services/backend/app/jobs/queue.py:266-282 | Extends the lease exactly when the fence holds |
| JobQueue.JobQueue.Complete | services/backend/app/jobs/queue.py:285-302 | Marks DONE exactly when the fence holds, and the fence is closed afterwards |
| JobQueue.JobQueue.Fail | services/backend/app/jobs/queue.py:305-356 | Back to READY with backoff while attempts remain, FAILED and one hook call otherwise; nothing when fenced out |
| JobQueue.JobQueue.Enqueue | services/backend/app/jobs/queue.py:92-129 | Unknown queue, bad limit, duplicate key or a new READY row; the table stays consistent |
| RateLimit.RateBound | services/backend/app/api/ratelimit.py:157-177 | For every trace with a clock that never goes back: admissions of a key are at most limit, plus limit per eviction of that key, plus the refill of the time that passed |
| RateLimit.AdmissionsAreBounded | services/backend/app/api/ratelimit.py:157-177 | The same from any state, with the tokens that were there |
| RateLimit.AnyIntervalIsBounded | services/backend/app/api/ratelimit.py:157-177 | In any interval of any trace, from call to call, admissions of a key are at most limit, plus limit per eviction in it, plus the refill of its length |
| RateLimit.GainPerWindow | services/backend/app/api/ratelimit.py:50-52 | A window of time refills exactly the limit |
| RateLimit.OrderIsRecency | services/backend/app/api/ratelimit.py:151-177 | The dictionary's order is always the order of last use |
| RateLimit.NeverOverCapacity | services/backend/app/api/ratelimit.py:175-177 | After a call at most max_entries keys are kept |
| RateLimit.RememberedWhileRecent | services/backend/app/api/ratelimit.py:155-177 | A key is still in the dictionary exactly when fewer than max_entries other keys were used since its last use |
| RateLimit.BoundedAgreesWithUnbounded | services/backend/app/api/ratelimit.py:143-177 | While fewer than max_entries distinct other keys come between uses of each key, the bounded limiter answers exactly as the unbounded one |
| RateLimit.RefillInSteps | services/backend/app/api/ratelimit.py:162-164 | Refilling in two steps is refilling in one |
| RateLimit.PollingIsHarmless | services/backend/app/api/ratelimit.py:160-173 | Denied polling does not change what the key will have at any later time |
| RateLimit.DenialIsExact | services/backend/app/api/ratelimit.py:160-173 | After a denial the same call is admitted exactly from the announced moment on |
| RateLimit.RetryAfterIsSound | services/backend/app/api/ratelimit.py:254-262 | A caller who waits the announced whole seconds is admitted, however much it polled |
| RateBursts.BurstIsExact | services/backend/app/api/ratelimit.py:157-173 | Of n calls at one moment exactly as many are admitted as the key has whole tokens, its own plus limit per window of time, limit at most |
| RateBursts.BurstAfterIdleIsExact | services/backend/app/api/ratelimit.py:157-173 | The same after any time in which the key was neither used nor evicted, whatever other keys did |
| RateBursts.IdleWindowRefillsAll | services/backend/app/api/ratelimit.py:157-173 | After one idle window the next limit calls are all admitted and no more at that moment |
| RateLimit.TokenBucketLimiter.TryConsume | services/backend/app/api/ratelimit.py:157-173 | One call on the ordered dictionary gives the specified answer and the specified dictionary |
| RateLimit.TokenBucketLimiter.EvictIfOverCapacity | services/backend/app/api/ratelimit.py:175-177 | Keeps the max_entries most recently used entries |
| JsonText.DumpsTell | services/backend/app/idempotency/service.py:81 | Two JSON trees print the same with sorted keys and no separators exactly when they are the same, key order and UTF-16 spelling of strings aside |
| MemberOrder.SortedAlike | services/backend/app/idempotency/service.py:81 | Key-sorted objects are the same exactly when they look the same at every key |
| Surrogates.AlikeWhenRepairedAlike | services/backend/app/idempotency/service.py:81-82 | Two strings escape to the same UTF-16 units exactly when joining surrogate pairs makes them equal |
| Surrogates.AstralCollision | services/backend/app/idempotency/service.py:81-82 | An astral character and its surrogate pair as two code points share one canonical text: injectivity needs the absence of such pairs |
| Canonical.CanonicalTextTells | services/backend/app/idempotency/service.py:43-82 | Payloads without spelled-out surrogate pairs have the same canonical text exactly when they are equal up to list versus tuple and the order of dictionary keys |
| Canonical.StringsAreToldApart | services/backend/app/idempotency/service.py:57-58 | A string shares its text with no other proper string exactly when it is proper itself: the condition cannot be dropped |
| Collisions.CollisionsExactly | services/backend/app/idempotency/service.py:43-82 | Any two payloads that raise nothing share their text exactly when their members, sorted by the keys as given, agree position by position once every text and key is repaired |
| Collisions.CollisionsWithPairFreeKeys | services/backend/app/idempotency/service.py:43-82 | With pair-free keys and any text values, payloads share their text exactly when, their texts repaired, they are the same request |
| Collisions.KeysCollide | services/backend/app/idempotency/service.py:75-82 | Keys that spell one character in two ways collide, unless a key beside them sorts between the two spellings |
| Canonical.TagsTell | services/backend/app/idempotency/service.py:43-76 | No two tags print alike, so values of different types never collide |
| IdempotencyKeys.KeyTable.Begin | services/backend/app/idempotency/service.py:137-202 | Whatever other transactions do between its statements, begin is one atomic step on the first table that settles it, and gives up exactly when none of its six statements does |
| IdempotencyKeys.KeyTable.Purge | services/backend/app/jobs/reconcile.py:64-85 | Deletes only unlocked rows expired for more than the grace period, as many as there are up to the batch size |
| IdempotencyKeys.KeyTable.Finish | services/backend/app/idempotency/service.py:205-223 | Stores the response on the claimed row, or fails when there is none |
| IdempotencyKeys.ReplayIsForTheSameRequest | services/backend/app/idempotency/service.py:184-202 | A stored response is replayed exactly to an equivalent payload within retention; any other payload is told REUSED |
| IdempotencyRuns.StepKeeps | services/backend/app/idempotency/service.py:107-243 | Every statement of any number of interleaved commands keeps: committed rows are finished and are the last effect of their key, one transaction holds a key, and effects of a key are spaced |
| IdempotencyTheorems.NeverInProgress | services/backend/app/idempotency/service.py:200-201 | No committed row is ever pending, so "in progress" is never answered from a committed state |
| IdempotencyTheorems.AnswersAreAboutTheLastEffect | services/backend/app/idempotency/service.py:184-202 | What begin answers is the exact stored response of the key's last effect, or REUSED, while that effect is in retention |
| IdempotencyTheorems.WithinSpacing | services/backend/app/idempotency/service.py:158-202 | Within the spacing after an effect its row is there: a command with that key is answered with the stored response or REUSED, never allowed to run |
| IdempotencyTheorems.PastRetentionProceeds | services/backend/app/idempotency/service.py:156-186 | Once the last effect of its key is out of retention a command claims the key, whether the row is still there or not; when it vanishes under the command, that tries three times |
| IdempotencyTheorems.PurgeTakesTheOld | services/backend/app/jobs/reconcile.py:64-79 | A purge may take exactly the rows out of retention for more than the grace period that no transaction holds |
| IdempotencyTheorems.EffectsAreApart | services/backend/app/idempotency/service.py:184-192 | Two committed effects of one key are at least the spacing apart |
| IdempotencyTheorems.RetentionExactly | services/backend/app/jobs/reconcile.py:42 | Operation by operation: retention is kept in every run exactly when stamps are at most the purge grace behind the database clock if its commands never commit a rejection, and exactly on it if they may, whatever other operations do |
| IdempotencyTheorems.NeverReused | apps/web/src/lib/idempotency.ts:8-16 | A client that uses a key for one request only is never told IDEMPOTENCY_KEY_REUSED under it, whatever others send |
| ApplyRetry.ApplyCommand.TryOnce | services/backend/app/api/recommendations.py:265-320 | One attempt with its commit or rollback, including release on a persisted rejection |
| ApplyRetry.ApplyCommand.Apply | services/backend/app/api/recommendations.py:323-356 | The bounded retry loop ends with what the first attempt that is not retried ends with |
| ApplyRetry.CallFacts | services/backend/app/api/recommendations.py:323-356 | However attempts go, a call commits at most one effect and then returns it and has stored it; a rejection leaves the key free; no pending row is left |
| ApplyRetry.RepeatAppliesNothing | services/backend/app/api/recommendations.py:274-282 | Asked again within retention, any number of attempts apply nothing and return only the stored response |
| ApplyRetry.CallEndsWithItsWork | services/backend/app/api/recommendations.py:331-355 | When every earlier attempt failed in passing, at the claim, in the work or at the COMMIT of a success or a replay, the call ends as the work of the first attempt that claims and commits: with the response and its one effect, with the key freed by a rejection, or with an error and no trace |
| ApplyRetry.CallFails | services/backend/app/api/recommendations.py:344-351 | A database error that is not to be retried, a rejection whose COMMIT fails, or three failures in passing end the call without an effect |
| ApplyRetry.DatabaseErrorsAreReal | services/backend/app/api/recommendations.py:344-351 | A call ends in a database error only when an attempt met one that is not retried or the last one met any |
| SubmissionKeys.SameKeyExactly | apps/web/src/lib/idempotency.ts:17-36 | Two calls of the hook get the same key exactly when every call between them asked for the same payload |
| SubmissionKeys.HeldAfter | apps/web/src/lib/idempotency.ts:23-29 | The hook throws exactly for an undefined fingerprint with no attempt held, and otherwise returns the key it holds |
| SubmissionKeys.SubmissionKey.NewKeyFor | apps/web/src/lib/idempotency.ts:23-29 | A changed fingerprint draws a new key, an unchanged one keeps it |
| SubmissionKeys.HookedClientsAreNeverRefused | apps/web/src/lib/idempotency.ts:8-16 | Browser and server together: a client that takes an operation's keys from the hook, in any number of open pages, is never told IDEMPOTENCY_KEY_REUSED there, whatever all other clients send |
| AgentLoop.RunLoop | services/backend/app/agents/base.py:310-461 | The nested loops compute the specified outcome and ask the budget, the provider and the tools for exactly the specified things in order |
| AgentLoop.AnswerCalls | services/backend/app/agents/base.py:393-442 | The calls of one response, submissions and tools mixed, are handled in order |
| AgentLoop.ToolSession.UseTool | services/backend/app/agents/base.py:410-442 | One tool call: unknown, invalid, over the limit, refused, crashed or done, with what each changes |
| AgentLoop.ToolSession.Register | services/backend/app/agents/base.py:433-436 | Evidence is registered once per id, in order |
| AgentFacts.ResourcesAreBounded | services/backend/app/agents/base.py:315-461 | For every model behaviour: at most tool limit + 3 provider calls, each right after its own reservation, at most min(4, max_tool_calls) handler calls, one repair; the reported usage is what happened, a provider call that raised left out |
| AgentDecisions.SubmissionsAreJudged | services/backend/app/agents/base.py:728-756 | In every turn reached, a submission is accepted exactly when it is well-formed, selects nothing or a live action, notes live findings and cites available evidence, as of that call |
| AgentDecisions.ToolsAreRun | services/backend/app/agents/base.py:410-444 | In every turn reached, what each tool call is answered and changes: unknown tools, bad arguments and calls beyond the limit nothing; a handler that runs its assessment, its count and its evidence |
| AgentDecisions.TurnsDecide | services/backend/app/agents/base.py:335-459 | What every turn reached comes to: deadline, budget, provider failure or crash; success exactly with an accepted submission; one repair for a response without one; otherwise another turn |
| AgentDecisions.TurnsRunOut | services/backend/app/agents/base.py:335-461 | After three turns more than tool calls allowed the run is degraded |
| AgentDecisions.MergeAddsExactly | services/backend/app/agents/base.py:550-592 | A success takes the summary and adds the tools' evidence, a finding per note, one for a rationale and a warning for a revision, and nothing else |
| AgentContent.ModelCannotInterfere | services/backend/app/agents/base.py:540-617 | Two runs that differ in every reply, budget, deadline and pure tool agree on metrics, deterministic findings, evidence, warnings and, ranks aside, on the actions and their payloads |
| AgentContent.DeterministicContentIsKept | services/backend/app/agents/base.py:540-617 | With tools that only append, every result keeps the live assessment; what is added is marked as the model's; a degraded one adds its warning and nothing else |
| AgentContent.SuccessIsGrounded | services/backend/app/agents/base.py:396-452 | A success is the merge of the last submission accepted in the provider's last turn, submissions and tool calls mixed; its selected action comes first, the others follow in rank order, ranks run from 0, and everything added cites evidence the result declares |
| AgentEvidence.ResultsKeepEvidenceRules | services/backend/app/orchestration/validation.py:194-209 | Evidence ids are declared once and all citations are declared in every success, and with tools that cite only declared evidence in every degraded result |
| AgentEvidence.DegradedMayCiteNothing | services/backend/app/agents/planning/agent.py:944-948 | Any tool call that leaves a citation of undeclared evidence, be it once, lets some provider make the run degrade into a result that breaks the rules |
| AgentEvidence.DegradesWithinRulesExactly | services/backend/app/agents/planning/agent.py:944-948 | All degraded results of an agent keep the evidence rules if and only if no call it can make, on an assessment that keeps them, leaves a citation of something else than that assessment declares |
| AgentTranscript.ProviderSeesAConversation | services/backend/app/agents/base.py:380-459 | At every turn the provider is sent a conversation in which each tool call was answered once, in order, in the next message |
| AgentRanking.SortIsStable | services/backend/app/agents/base.py:766 | The rank order ascends and keeps the given order among equal ranks |
| AgentRanking.StableSortIsUnique | services/backend/app/agents/base.py:766 | Only one sequence does that |
| AgentRanking.RerankKeepsActions | services/backend/app/agents/base.py:759-771 | Whatever is selected, the actions are the same but for their ranks |
| AgentRanking.RerankOrders | services/backend/app/agents/base.py:759-771 | Ranks run from 0, the selected actions come first, the others follow in the order of the stable sort |
| RunTables.Database.DispatchTask | services/backend/app/api/internal.py:99-278 | Every check in its order, one task with its job, or the existing task |
| RunTables.Database.Cancel | services/backend/app/api/runs.py:288-323 | Cancels open tasks, READY agent jobs and live recommendations of the run, and the run |
| RunTables.Database.Start | services/backend/app/api/analyses.py:75-184 | Blocked order, active run, factory cap, or a QUEUED run with its snapshot and start job |
| RunTables.Database.Retry | services/backend/app/api/runs.py:388-398 | Only FAILED, DEGRADED and CANCELLED runs are retried, as a new run of the same order |
| RunTables.Database.Request | services/backend/app/api/analyses.py:207-234 | A stale order version is refused before anything else |
| RunLifecycle.StepKeeps | services/backend/app/api/internal.py:99-278 | Every command and every step of the environment keeps the invariant of runs, tasks, jobs and recommendations |
| RunLifecycle.InsertExactly | services/backend/app/api/internal.py:209-250 | A dispatch's insert keeps the invariant exactly when the run is not cancelled at that moment |
| RunCommands.RequestStartsExactly | services/backend/app/api/analyses.py:89-233 | A request goes through exactly for a known, unblocked order in the expected version with no run queued or running and four at most in its factory; it then adds one queued run with a snapshot of its own and a READY job to start it, and nothing else |
| RunCommands.RetryStartsExactly | services/backend/app/api/runs.py:386-396 | A retry goes through exactly for a failed, degraded or cancelled run whose order may be analysed now |
| RunCommands.CancelsExactly | services/backend/app/api/runs.py:289-323 | A cancel goes through exactly for a queued, running or awaiting run, and closes exactly its open tasks and recommendations |
| RunCommands.DispatchAddsExactly | services/backend/app/api/internal.py:105-251 | An envelope adds its one pending task with a READY job exactly when every check passes, each spelled out; a known part is answered with its task; the rest is refused with its code |
| RunCommands.RunsHaveStartJobs | services/backend/app/api/analyses.py:163-169 | In every state reached each run has exactly one job to start it |
| RunTheorems.ActiveRunsAreFew | services/backend/app/api/analyses.py:94-116 | At most one QUEUED or RUNNING run per order and five per factory, over every serial run of commands |
| RunTheorems.CancelIsFinal | services/backend/app/api/runs.py:288-323 | After a cancel no later step gives the run another status, an open task or a live recommendation |
| RunTheorems.CancelTouchesOnlyItsRun | services/backend/app/api/runs.py:301-310 | A cancel changes no other run, task or recommendation, and of all jobs exactly the READY ones of the run's own tasks |
| RunTheorems.TasksAreInOrder | services/backend/app/api/internal.py:149-251 | One task per recipient and round of a run, on the run's snapshot, due by its deadline, with exactly one job |
| RunTheorems.LineageIsAcyclic | services/backend/app/api/internal.py:185-207 | Following parents and references stays in the run and never returns |
| RunTheorems.RepeatAddsNothing | services/backend/app/api/internal.py:149-156 | A repeated envelope is answered with its task at any later time and adds nothing |
| RunTheorems.RaceMakesOneTask | services/backend/app/api/internal.py:210-242 | Dispatches of one key that all passed their checks make one task, whatever commits between their inserts |
| RunTheorems.UnlockedDispatchMissesCancel | services/backend/app/api/internal.py:105-165 | Whenever the checks pass, a cancel committed between them and the insert leaves an open task on the cancelled run |
| AdminTables.Organization.GrantRole | services/backend/app/api/admin.py:212-261 | Grants once; an existing assignment changes nothing |
| AdminTables.Organization.RevokeRole | services/backend/app/api/admin.py:282-337 | Refuses to remove the last active org_admin assignment |
| AdminTables.Organization.DeactivateMembership | services/backend/app/api/admin.py:358-389 | Refuses self-deactivation; an inactive membership changes nothing |
| AdminCommands.SessionsSpeakFor | services/backend/app/auth/sessions.py:99-136 | A session is somebody exactly when it is live and its user active with an active membership, and speaks for the oldest of these |
| AdminCommands.GrantsExactly | services/backend/app/api/admin.py:212-261 | Who may grant what to whom, and that an effective grant adds the one assignment and nothing else |
| AdminCommands.RevokesExactly | services/backend/app/api/admin.py:282-337 | A revoke takes exactly the assignment named, unless it is the last active one that administers the organization |
| AdminCommands.DeactivatesExactly | services/backend/app/api/admin.py:358-389 | A deactivation closes exactly the membership named, unless it is the caller's own |
| AdminTheorems.NeverWithoutAdmin | services/backend/app/api/admin.py:126-145 | An organization with an active org_admin keeps one through every serial sequence of commands, logins and new members |
| AdminTheorems.EffectiveChangesRotateSessions | services/backend/app/api/admin.py:117-123 | A command that changes rights leaves the affected user no live session and touches no other; one that changes none touches none |
| AdminTheorems.OldSessionsAreMute | services/backend/app/auth/sessions.py:99-136 | No session from before an effective change is a principal after it |
| AdminTheorems.ConcurrentCommands | services/backend/app/api/admin.py:306-373 | Any two revokes or deactivations decided on the same tables leave no administrator exactly when together they take every active org_admin assignment |
| AdminTheorems.ConcurrentRevokes | services/backend/app/api/admin.py:306-321 | Two revokes decided on the same tables leave no administrator exactly when the two were the last |
| AdminTheorems.BothRevokesAreAllowed | services/backend/app/api/admin.py:306-313 | Two administrators may revoke each other's last assignment at once, leaving none |
| AdminTheorems.RevokeAndDeactivateAreAllowed | services/backend/app/api/admin.py:306-373 | One of two administrators may revoke the other's assignment while the other deactivates the first, leaving none |
| AdminTheorems.ConcurrentDeactivations | services/backend/app/api/admin.py:366-373 | Two administrators may deactivate each other at once, leaving none exactly when every assignment is of one of them |
| NoteTemplates.RenderTemplate | scripts/build_notes_dataset.py:134-179 | The loop over the matches renders the template, character by character and token by token |
| NoteTemplates.NextMatch | scripts/build_notes_dataset.py:149 | The next match is the leftmost from a position on |
| NoteTemplates.DrawMention | scripts/build_notes_dataset.py:161-171 | A second mention is redrawn up to ten times |
| NoteTemplates.TokenAtExactly | scripts/build_notes_dataset.py:131 | A token is read at a place exactly when it is spelled there, and no two are |
| NoteTemplates.MentionIsDrawn | scripts/build_notes_dataset.py:161-177 | In a note a first mention is one draw and is remembered; a second is the first of eleven draws that does not repeat it, or the last; each is recorded with its span |
| NoteFrames.RenderedSpans | scripts/build_notes_dataset.py:134-179 | Spans are ordered, disjoint, hold exactly their mentions and are the template's slots in order; the fake reference is never one |
| NoteFrames.SecondMentionDiffers | scripts/build_notes_dataset.py:165-169 | A second mention repeats the first exactly when eleven draws in a row did |
| NoteFrames.CheckSpans | scripts/validate_datasets.py:528-550 | No problem is reported exactly when every span holds its mention; each bad span gives its problem |
| NoteFrames.ProblemsTell | scripts/validate_datasets.py:539-550 | Which problem a span is reported with |
| NoteFrames.RenderedPassesSpanChecks | scripts/validate_datasets.py:539-550 | Rendered notes with non-empty mentions pass the span checks |
| NoteFrames.NormalizeFrame | scripts/validate_datasets.py:618-640 | The loop replaces the spans, sorted by start, by their placeholders |
| NoteFrames.FrameDependsOnTemplateOnly | scripts/validate_datasets.py:618-622 | The frame of a rendered note is that of its template, whatever was drawn |
| NoteSplit.GenerateLabel | scripts/build_notes_dataset.py:592-634 | The loop with its usage counts, cycle and attempts ends as specified: full, out of templates or out of attempts |
| NoteSplit.NextTemplate | scripts/build_notes_dataset.py:608-614 | The next template in the cycle that is below its cap, or none in a whole turn |
| NoteSplit.SplitIsSound | scripts/build_notes_dataset.py:581-587 | However candidates are rejected: no template above its cap, all texts new, distinct and not too close; the split is full, or every template is used up, or all attempts are |
| NoteSplit.TemplatesTakeTurns | scripts/build_notes_dataset.py:573-580 | While no candidate is rejected the k-th note is from the k-th template, cycling |
| NoteTurns.RejectionsBreakTurns | scripts/build_notes_dataset.py:622-627 | When a template may make two notes and too many others may lose their turn, some draws make it repeat before any of those others was used |
| NoteTurns.TurnsExactly | scripts/build_notes_dataset.py:571-581 | For templates that render apart, every template is used before any repeats, whatever is drawn, exactly when no template that may make two notes within the attempts has beside it templates that may lose their turn, more of them than the split can spare |
| NoteBanks.EndingsTellApart | scripts/build_notes_dataset.py:149-178 | Templates whose literal endings differ never render to the same text, whatever the vocabulary |
| NoteBanks.RenderedTurnsExactly | scripts/build_notes_dataset.py:571-627 | For notes as `render_template` makes them, from a bank whose templates end differently, the promise holds under exactly that condition |
| NoteBanks.FewLosersTakeTurns | scripts/build_notes_dataset.py:571-581 | The promise holds, whatever is drawn, when none may lose its turn, or no more than the templates the split does not need |
| NoteBanks.PlainTemplateTakesItsTurn | scripts/build_notes_dataset.py:615-627 | For two notes from a template with a slot and one without, the promise holds, whatever is drawn, exactly when the text of the latter is fresh |
| NoteBanks.RealTurnIsLost | scripts/build_notes_dataset.py:529-531 | Two templates of the test bank, one too close to the training split: some draws make both notes from the other |

## Left out

- SHA-256: a digest is the canonical text itself, so two texts are taken never to share a digest.
- UUIDs: ids, tokens and keys are numbers that never repeat.
- Floating point: tokens, times and waiting times are exact reals; a float in a payload is the text `repr` gives it.
- SQL and PostgreSQL isolation: a guarded statement or transaction is one atomic step; the model relies on row locks, `SKIP LOCKED` and unique indexes behaving as documented.
- `created_at` of an idempotency row, events, audit records and logging: nothing in the protocols reads them.
- JobQueue.JobQueue.Claim: no other transaction runs between the rounds of one call; with others in between, each round is a step of `JobRuns`.
- JobTheorems.AtMostOnce: a hook that raises counts as run; a crash before the hook loses it, so "at most once" and not "once".
- IdempotencyRuns.StepKeeps: which operations may release keys, and how far stamps are off, is assumed (`Rules`); scheduling and deadlock are not modelled.
- ApplyRetry.ApplyCommand.TryOnce: the table is what the transaction sees; commits of other transactions to other keys while it runs are not part of it, and a failed COMMIT is taken to have committed nothing.
- SubmissionKeys.HookedClientsAreNeverRefused: an operation's request is assumed to be determined by the payload the hook fingerprints.
- AgentLoop.RunLoop: texts of validation problems, token redaction and the prompt are not modelled; `reserve_model_call` and `record_usage` are taken not to raise.
- AgentContent.ModelCannotInterfere: tools are pure here; for tools that append to the live assessment see `AgentContent.DeterministicContentIsKept`.
- RunTables.Database.Start: building the snapshot, and the idempotency wrapper around the commands, are not part of it.
- RunTheorems.ActiveRunsAreFew: the per-factory cap is for serial commands only; its count is not protected by a lock.
- RunLifecycle.StepKeeps: the orchestrator, the executor, approvals and the queue appear only as the steps `Enabled` allows them; dispatch is one step, the race with a cancel is `RunTheorems.UnlockedDispatchMissesCancel`.
- AdminTheorems.NeverWithoutAdmin: commands are serial; an inactive user's assignment still counts, as in the code; session expiry is a logout.
- NoteFrames.FrameDependsOnTemplateOnly: lower-casing and white-space collapsing are one arbitrary function; entities without integer bounds are not modelled.
- NoteFrames.CheckSpans: the label, master-data and personal-name checks are not modelled.
- NoteSplit.GenerateLabel: shuffling, note ids and the loop over labels are not modelled.
- NoteTurns.TurnsExactly: every attempt has draws of its own, any from the vocabulary, for the one random generator; `render_template` is the rendering of `NoteBanks.Real`; two templates that can render to one text take each other's turn in ways the condition does not count; the Jaccard similarity is an arbitrary predicate on texts.
- `evaluation/metrics.py`, `auth/scope.py` and `auth/policy.py`: count decompositions and set expressions over read-only rows, which would only add easy members.
- HTTP routing, CSRF, OIDC, cookies, the LLM adapters, retrieval, the worker runtime, the inventory and approvals services, and the user interface.
