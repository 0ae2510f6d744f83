/**
  The rows of the durable job table and what one transaction does to them.
  Every function maps the committed table before a transaction to the one after it;
  the clock reading, the fresh lease token and the jitter are parameters.
 */
module JobTable {
  import opened Basics

  type JobId = nat
  type Token = nat
  type Time = real

  const QUEUES: set<string> := {"orchestrator", "agent", "document", "maintenance"}
  const MAX_ERROR_CHARS := 2000
  const MAX_BACKOFF_SECONDS := 60
  const EXHAUSTED_AFTER_LEASE_EXPIRY := "attempts exhausted after lease expiry"
  const AGENT_EXECUTE_JOB := "agent.execute"

  datatype Status = Ready | Leased | Done | Failed | Cancelled

  datatype Job = Job(
    queue: string,
    jobType: string,
    payload: map<string, string>,
    dedupeKey: Option<string>,
    status: Status,
    attempt: int,
    maxAttempts: int,
    availableAt: Time,
    createdAt: Time,
    leasedUntil: Option<Time>,
    leaseToken: Option<Token>,
    workerId: Option<string>,
    heartbeatAt: Option<Time>,
    lastError: Option<string>,
    completedAt: Option<Time>)

  type Table = map<JobId, Job>

  datatype ClaimedJob = ClaimedJob(id: JobId, attempt: int, maxAttempts: int, token: Token)

  predicate Terminal(job: Job) {
    job.status.Done? || job.status.Failed? || job.status.Cancelled?
  }

  // --- enqueue ---

  datatype NewJob = NewJob(
    queue: string,
    jobType: string,
    payload: map<string, string>,
    dedupeKey: Option<string>,
    availableAt: Option<Time>,
    maxAttempts: int)

  datatype Enqueued = UnknownQueue | BadMaxAttempts | Duplicate | Inserted(id: JobId)

  predicate KeyTaken(jobs: Table, key: Option<string>) {
    key.Some? && exists id :: id in jobs && jobs[id].dedupeKey == key
  }

  function FreshRow(spec: NewJob, now: Time): Job {
    Job(spec.queue, spec.jobType, spec.payload, spec.dedupeKey, Ready, 0, spec.maxAttempts,
        if spec.availableAt.Some? then spec.availableAt.value else now, now,
        None, None, None, None, None, None)
  }

  function EnqueueOutcome(jobs: Table, id: JobId, spec: NewJob): Enqueued {
    if spec.queue !in QUEUES then UnknownQueue
    else if spec.maxAttempts < 1 then BadMaxAttempts
    else if KeyTaken(jobs, spec.dedupeKey) then Duplicate
    else Inserted(id)
  }

  function EnqueueTable(jobs: Table, id: JobId, spec: NewJob, now: Time): Table {
    if EnqueueOutcome(jobs, id, spec).Inserted? then jobs[id := FreshRow(spec, now)] else jobs
  }

  // --- claim ---

  /** READY and due, or LEASED with a lease that ran out (a null deadline never runs out). */
  predicate Runnable(job: Job, queues: set<string>, now: Time) {
    job.queue in queues &&
    ((job.status.Ready? && job.availableAt <= now) ||
     (job.status.Leased? && job.leasedUntil.Some? && job.leasedUntil.value < now))
  }

  predicate NotAfter(a: Job, b: Job) {
    a.availableAt < b.availableAt || (a.availableAt == b.availableAt && a.createdAt <= b.createdAt)
  }

  /** `id` may be what the claim's SELECT returns while other transactions hold `locked`. */
  predicate IsCandidate(jobs: Table, locked: set<JobId>, queues: set<string>, now: Time, id: JobId) {
    id in jobs && id !in locked && Runnable(jobs[id], queues, now) &&
    forall k :: k in jobs && k !in locked && Runnable(jobs[k], queues, now) ==> NotAfter(jobs[id], jobs[k])
  }

  function LeaseRow(job: Job, token: Token, worker: string, now: Time, lease: Time): Job {
    job.(status := Leased, leaseToken := Some(token), workerId := Some(worker), attempt := job.attempt + 1,
         leasedUntil := Some(now + lease), heartbeatAt := Some(now))
  }

  predicate OverLimit(job: Job) {
    job.attempt + 1 > job.maxAttempts
  }

  function ExhaustRow(job: Job, now: Time): Job {
    job.(status := Failed, attempt := job.maxAttempts, leaseToken := None, leasedUntil := None,
         lastError := Some(EXHAUSTED_AFTER_LEASE_EXPIRY), completedAt := Some(now))
  }

  /** One round of the claim loop that found the runnable job `id`. */
  function ClaimTable(jobs: Table, id: JobId, token: Token, worker: string, now: Time, lease: Time): Table
    requires id in jobs
  {
    var leased := LeaseRow(jobs[id], token, worker, now, lease);
    jobs[id := if OverLimit(jobs[id]) then ExhaustRow(leased, now) else leased]
  }

  // --- fenced updates ---

  predicate Fence(jobs: Table, id: JobId, token: Token) {
    id in jobs && jobs[id].leaseToken == Some(token) && jobs[id].status.Leased?
  }

  function HeartbeatTable(jobs: Table, id: JobId, token: Token, now: Time, lease: Time): Table {
    if Fence(jobs, id, token) then
      jobs[id := jobs[id].(leasedUntil := Some(now + lease), heartbeatAt := Some(now))]
    else jobs
  }

  function CompleteTable(jobs: Table, id: JobId, token: Token, now: Time): Table {
    if Fence(jobs, id, token) then
      jobs[id := jobs[id].(status := Done, leasedUntil := None, completedAt := Some(now))]
    else jobs
  }

  function Pow2(n: nat): int {
    if n == 0 then 1 else 2 * Pow2(n - 1)
  }

  function BackoffBase(attempt: int): int {
    Min(Pow2(Max(0, Min(attempt, 10))) * 2, MAX_BACKOFF_SECONDS)
  }

  function BackoffSeconds(attempt: int, jitter: real): real {
    BackoffBase(attempt) as real + jitter
  }

  predicate WillRetry(job: Job, retryable: bool) {
    retryable && job.attempt < job.maxAttempts
  }

  function Truncated(error: string): string {
    if |error| <= MAX_ERROR_CHARS then error else error[..MAX_ERROR_CHARS]
  }

  function FailTable(jobs: Table, id: JobId, token: Token, error: string, retryable: bool, now: Time,
                     jitter: real): Table {
    if !Fence(jobs, id, token) then jobs
    else
      var job := jobs[id].(leaseToken := None, leasedUntil := None, lastError := Some(Truncated(error)));
      jobs[id := if WillRetry(jobs[id], retryable)
                 then job.(status := Ready, availableAt := now + BackoffSeconds(job.attempt, jitter))
                 else job.(status := Failed, completedAt := Some(now))]
  }

  // --- cancel_run ---

  predicate CancelHits(job: Job, taskIds: set<string>) {
    job.status.Ready? && job.jobType == AGENT_EXECUTE_JOB &&
    "task_id" in job.payload && job.payload["task_id"] in taskIds
  }

  function CancelTable(jobs: Table, taskIds: set<string>, now: Time): Table {
    map id | id in jobs ::
      if CancelHits(jobs[id], taskIds) then jobs[id].(status := Cancelled, completedAt := Some(now)) else jobs[id]
  }

  // --- what a row always looks like ---

  /** Attempts, token, deadline and completion time agree with the status. */
  predicate RowOk(job: Job) {
    1 <= job.maxAttempts &&
    match job.status
    case Ready =>
      0 <= job.attempt < job.maxAttempts && job.leaseToken.None? && job.leasedUntil.None? && job.completedAt.None?
    case Leased =>
      1 <= job.attempt <= job.maxAttempts && job.leaseToken.Some? && job.leasedUntil.Some? && job.completedAt.None?
    case Done =>
      1 <= job.attempt <= job.maxAttempts && job.leaseToken.Some? && job.leasedUntil.None? && job.completedAt.Some?
    case Failed =>
      1 <= job.attempt <= job.maxAttempts && job.leaseToken.None? && job.leasedUntil.None? &&
      job.completedAt.Some? && job.lastError.Some?
    case Cancelled =>
      0 <= job.attempt < job.maxAttempts && job.leaseToken.None? && job.leasedUntil.None? && job.completedAt.Some?
  }

  predicate RowsOk(jobs: Table) {
    forall id :: id in jobs ==> RowOk(jobs[id])
  }

  /** No two jobs share a dedupe key. */
  predicate KeysUnique(jobs: Table) {
    forall a, b ::
      a in jobs && b in jobs && jobs[a].dedupeKey.Some? && jobs[a].dedupeKey == jobs[b].dedupeKey ==> a == b
  }

  /** Two rows never carry the same lease token. */
  predicate TokensUnique(jobs: Table) {
    forall a, b ::
      a in jobs && b in jobs && jobs[a].leaseToken.Some? && jobs[a].leaseToken == jobs[b].leaseToken ==> a == b
  }

  /** Only an expired lease at the last attempt takes the exhaustion branch. */
  lemma ExhaustionOnlyFromExpiredLastLease(jobs: Table, queues: set<string>, now: Time, id: JobId)
    requires RowsOk(jobs) && id in jobs && Runnable(jobs[id], queues, now)
    ensures OverLimit(jobs[id]) <==> jobs[id].status.Leased? && jobs[id].attempt == jobs[id].maxAttempts
    ensures OverLimit(jobs[id]) ==> jobs[id].leasedUntil.Some? && jobs[id].leasedUntil.value < now
  {
    assert RowOk(jobs[id]);
  }
}
