/**
  What every transaction of the queue decides, read off the history: which jobs are due and in
  which order, when a failure is tried again, what a cancellation withdraws.
 */
module JobHistory {
  import opened Basics
  import opened JobTable
  import opened JobRuns
  import opened JobTheorems

  // --- a job as it was enqueued ---

  datatype Birth = Birth(spec: NewJob, at: Time)

  predicate IsBirthOf(e: Event, id: JobId) {
    e.Queued? && e.id == id
  }

  /** How a job was enqueued, and when. */
  function BirthOf(log: seq<Event>, id: JobId): Option<Birth> {
    if log == [] then None
    else if IsBirthOf(log[|log| - 1], id) then Some(Birth(log[|log| - 1].spec, log[|log| - 1].at))
    else BirthOf(log[..|log| - 1], id)
  }

  /** When the job was due last: as enqueued, or after the backoff of its last requeued attempt. */
  function DueOf(log: seq<Event>, id: JobId): Option<Time> {
    if log == [] then None
    else
      var past := log[..|log| - 1];
      match log[|log| - 1]
      case Queued(i, spec, at) =>
        if i == id then Some(if spec.availableAt.Some? then spec.availableAt.value else at) else DueOf(past, id)
      case Requeued(i, _, at, jitter) =>
        if i == id then Some(at + BackoffSeconds(Claims(past, id), jitter)) else DueOf(past, id)
      case _ => DueOf(past, id)
  }

  /** The row is still about the job that was enqueued. */
  predicate StillAsQueued(job: Job, b: Birth) {
    && job.queue == b.spec.queue && job.jobType == b.spec.jobType && job.payload == b.spec.payload
    && job.dedupeKey == b.spec.dedupeKey && job.maxAttempts == b.spec.maxAttempts && job.createdAt == b.at
  }

  predicate Remembered(s: State, id: JobId) {
    (id in s.jobs <==> BirthOf(s.log, id).Some?) &&
    (id in s.jobs ==> StillAsQueued(s.jobs[id], BirthOf(s.log, id).value)
                      && DueOf(s.log, id) == Some(s.jobs[id].availableAt))
  }

  lemma BirthAppends(log: seq<Event>, e: Event, id: JobId)
    ensures BirthOf(log + [e], id) == if IsBirthOf(e, id) then Some(Birth(e.spec, e.at)) else BirthOf(log, id)
    ensures DueOf(log + [e], id) ==
            match e
            case Queued(i, spec, at) =>
              if i == id then Some(if spec.availableAt.Some? then spec.availableAt.value else at) else DueOf(log, id)
            case Requeued(i, _, at, jitter) =>
              if i == id then Some(at + BackoffSeconds(Claims(log, id), jitter)) else DueOf(log, id)
            case _ => DueOf(log, id)
  {
    hide Claims, BackoffSeconds;
    assert (log + [e])[..|log + [e]| - 1] == log;
  }

  /** What a row keeps of its birth, unless it is requeued, its due time too. */
  lemma RowStaysAsQueued(s: State, step: Step, id: JobId, b: Birth)
    requires Enabled(s, step) && id in s.jobs && StillAsQueued(s.jobs[id], b)
    ensures var t := Next(s, step);
            && id in t.jobs && StillAsQueued(t.jobs[id], b)
            && (t.log == s.log || (t.log == s.log + [t.log[|s.log|]] && !IsBirthOf(t.log[|s.log|], id)))
            && t.jobs[id].availableAt ==
               if t.log != s.log && t.log[|s.log|].Requeued? && t.log[|s.log|].id == id
               then t.log[|s.log|].at + BackoffSeconds(s.jobs[id].attempt, t.log[|s.log|].jitter)
               else s.jobs[id].availableAt
  {
    hide BackoffSeconds, KeyTaken, Truncated, IsCandidate;
  }

  lemma NewRowIsQueued(s: State, step: Step, id: JobId)
    requires Enabled(s, step) && id !in s.jobs
    ensures var t := Next(s, step);
            if id in t.jobs then
              && step.Enqueue? && step.id == id && t.log == s.log + [Queued(id, step.spec, s.now)]
              && StillAsQueued(t.jobs[id], Birth(step.spec, s.now))
              && t.jobs[id].availableAt == (if step.spec.availableAt.Some? then step.spec.availableAt.value else s.now)
            else t.log == s.log || (t.log == s.log + [t.log[|s.log|]] && !IsBirthOf(t.log[|s.log|], id))
  {
    hide BackoffSeconds, KeyTaken, Truncated;
  }

  lemma RememberedStep(s: State, step: Step, id: JobId)
    requires Enabled(s, step) && HistoryOk(s, id) && Remembered(s, id)
    ensures Remembered(Next(s, step), id)
  {
    hide Enabled, Next, BirthOf, DueOf, BackoffSeconds, StillAsQueued;
    var t := Next(s, step);
    if id in s.jobs {
      RowStaysAsQueued(s, step, id, BirthOf(s.log, id).value);
    } else {
      NewRowIsQueued(s, step, id);
    }
    if t.log != s.log { BirthAppends(s.log, t.log[|s.log|], id); }
  }

  lemma {:induction false} RememberedRun(s: State, steps: seq<Step>, id: JobId)
    requires Inv(s) && Remembered(s, id) && Legal(s, steps)
    ensures Inv(Run(s, steps)) && Remembered(Run(s, steps), id)
    decreases |steps|
  {
    hide Next, Enabled, Remembered;
    if steps != [] {
      assert HistoryOk(s, id);
      InvStep(s, steps[0]);
      RememberedStep(s, steps[0], id);
      RememberedRun(Next(s, steps[0]), steps[1..], id);
    }
  }

  /** In every run a job's row is about what was enqueued, and the history tells when it is due. */
  lemma JobsAreAsQueued(start: Time, steps: seq<Step>, id: JobId)
    requires Legal(Init(start), steps)
    ensures var s := Run(Init(start), steps);
            && Inv(s)
            && (id in s.jobs <==> BirthOf(s.log, id).Some?)
            && (id in s.jobs ==> StillAsQueued(s.jobs[id], BirthOf(s.log, id).value)
                                 && DueOf(s.log, id) == Some(s.jobs[id].availableAt))
  {
    InvInit(start);
    RememberedRun(Init(start), steps, id);
  }

  // --- what is decided ---

  /**
    A failure under the current lease puts the job back to wait out its backoff exactly when it is
    retryable and fewer leases were handed out than the job was enqueued with; otherwise the job is
    over and its hook is owed. Under any other token nothing happens.
   */
  lemma FailureIsRetriedExactly(start: Time, steps: seq<Step>, step: Step)
    requires Legal(Init(start), steps) && step.Fail? && Enabled(Run(Init(start), steps), step)
    ensures var s, id := Run(Init(start), steps), step.id;
            var t, phase := Next(s, step), PhaseOf(s.log, id);
            if phase.Held? && phase.token == step.token then
              && BirthOf(s.log, id).Some?
              && if step.retryable && Claims(s.log, id) < BirthOf(s.log, id).value.spec.maxAttempts then
                   PhaseOf(t.log, id) == Waiting(s.now + BackoffSeconds(Claims(s.log, id), step.jitter))
                   && t.owed == s.owed
                 else PhaseOf(t.log, id) == Over(Failed) && t.owed == s.owed + {id}
            else t == s
  {
    var s, id := Run(Init(start), steps), step.id;
    JobsAreAsQueued(start, steps, id);
    FenceIsCurrentLease(s, id, step.token);
    assert HistoryOk(s, id);
    FailPhase(s, step);
    hide PhaseOf, Claims, Completions, Hooks, Exhaustions, BirthOf, DueOf, Inv, Run, Legal, Init, Next, Enabled;
    hide BackoffSeconds;
  }

  lemma FailPhase(s: State, step: Step)
    requires Enabled(s, step) && step.Fail?
    ensures var t, id := Next(s, step), step.id;
            if !Fence(s.jobs, id, step.token) then t == s
            else if step.retryable && s.jobs[id].attempt < s.jobs[id].maxAttempts then
              PhaseOf(t.log, id) == Waiting(s.now + BackoffSeconds(Claims(s.log, id), step.jitter)) && t.owed == s.owed
            else PhaseOf(t.log, id) == Over(Failed) && t.owed == s.owed + {id}
  {
    hide PhaseOf, Claims, Completions, Hooks, Exhaustions, BackoffSeconds, FailTable;
    if Fence(s.jobs, step.id, step.token) { AppendEvent(s.log, Next(s, step).log[|s.log|], step.id); }
  }

  /** By its history, the job may be leased to a worker of these queues. */
  predicate Claimable(s: State, queues: set<string>, id: JobId) {
    && BirthOf(s.log, id).Some? && BirthOf(s.log, id).value.spec.queue in queues
    && match PhaseOf(s.log, id)
       case Waiting(from) => from <= s.now
       case Held(_, until) => until < s.now
       case _ => false
  }

  /** `a` was due before `b`, or at the same time and enqueued no later. */
  predicate Precedes(s: State, a: JobId, b: JobId)
    requires BirthOf(s.log, a).Some? && BirthOf(s.log, b).Some? && DueOf(s.log, a).Some? && DueOf(s.log, b).Some?
  {
    var x, y := DueOf(s.log, a).value, DueOf(s.log, b).value;
    x < y || (x == y && BirthOf(s.log, a).value.at <= BirthOf(s.log, b).value.at)
  }

  lemma RunnableIsClaimable(start: Time, steps: seq<Step>, queues: set<string>, id: JobId)
    requires Legal(Init(start), steps)
    ensures var s := Run(Init(start), steps);
            id in s.jobs && Runnable(s.jobs[id], queues, s.now) <==> Claimable(s, queues, id)
  {
    var s := Run(Init(start), steps);
    JobsAreAsQueued(start, steps, id);
    assert HistoryOk(s, id);
    if id in s.jobs { assert RowOk(s.jobs[id]); }
  }

  /**
    Whom a claim serves: a claim of `id` under a fresh token is possible exactly when, of the jobs
    no other transaction has locked, it is claimable and none that is precedes it strictly.
   */
  lemma ClaimServesTheFirst(start: Time, steps: seq<Step>, step: Step)
    requires Legal(Init(start), steps) && step.Claim?
    requires step.queues != {} && step.token !in Run(Init(start), steps).issued
    ensures var s := Run(Init(start), steps);
            Enabled(s, step) <==>
            && step.id !in step.locked && Claimable(s, step.queues, step.id)
            && DueOf(s.log, step.id).Some?
            && forall k :: k !in step.locked && Claimable(s, step.queues, k) ==>
                 DueOf(s.log, k).Some? && Precedes(s, step.id, k)
  {
    var s := Run(Init(start), steps);
    hide Claimable, Runnable, BirthOf, DueOf, Inv;
    forall k
      ensures k in s.jobs && Runnable(s.jobs[k], step.queues, s.now) <==> Claimable(s, step.queues, k)
      ensures k in s.jobs <==> BirthOf(s.log, k).Some?
      ensures k in s.jobs ==> StillAsQueued(s.jobs[k], BirthOf(s.log, k).value)
      ensures k in s.jobs ==> DueOf(s.log, k) == Some(s.jobs[k].availableAt)
    {
      RunnableIsClaimable(start, steps, step.queues, k);
      JobsAreAsQueued(start, steps, k);
    }
  }

  /**
    A claim leases the job under its token while fewer leases were handed out than the job was
    enqueued with; otherwise, its last lease having run out, the job is over and its hook is owed.
   */
  lemma ClaimLeasesExactly(start: Time, steps: seq<Step>, step: Step)
    requires Legal(Init(start), steps) && step.Claim? && Enabled(Run(Init(start), steps), step)
    ensures var s, id := Run(Init(start), steps), step.id;
            var t := Next(s, step);
            && BirthOf(s.log, id).Some?
            && if Claims(s.log, id) < BirthOf(s.log, id).value.spec.maxAttempts then
                 PhaseOf(t.log, id) == Held(step.token, s.now + step.lease) && t.owed == s.owed
               else PhaseOf(s.log, id).Held? && PhaseOf(t.log, id) == Over(Failed) && t.owed == s.owed + {id}
  {
    var s, id := Run(Init(start), steps), step.id;
    JobsAreAsQueued(start, steps, id);
    assert HistoryOk(s, id) && RowOk(s.jobs[id]);
    ClaimPhase(s, step);
    hide PhaseOf, Claims, Completions, Hooks, Exhaustions, BirthOf, DueOf, Inv, Run, Legal, Init, Next, Enabled;
  }

  lemma ClaimPhase(s: State, step: Step)
    requires Enabled(s, step) && step.Claim?
    ensures var t, id := Next(s, step), step.id;
            && id in s.jobs && (s.jobs[id].status.Ready? || s.jobs[id].status.Leased?)
            && if s.jobs[id].attempt < s.jobs[id].maxAttempts then
                 PhaseOf(t.log, id) == Held(step.token, s.now + step.lease) && t.owed == s.owed
               else PhaseOf(t.log, id) == Over(Failed) && t.owed == s.owed + {id}
  {
    hide PhaseOf, Claims, Completions, Hooks, Exhaustions, BackoffSeconds, NotAfter;
    AppendEvent(s.log, Next(s, step).log[|s.log|], step.id);
  }

  /** Cancelling a run withdraws exactly the waiting agent jobs of its tasks; others go on. */
  lemma CancelWithdrawsExactly(start: Time, steps: seq<Step>, taskIds: set<string>, id: JobId)
    requires Legal(Init(start), steps)
    ensures var s := Run(Init(start), steps);
            var t := Next(s, CancelRun(taskIds));
            PhaseOf(t.log, id) == if ForTasks(s, taskIds, id) then Over(Cancelled) else PhaseOf(s.log, id)
  {
    var s := Run(Init(start), steps);
    JobsAreAsQueued(start, steps, id);
    assert HistoryOk(s, id);
    assert id in s.jobs ==> RowOk(s.jobs[id]);
    hide Run, Legal, Init, Inv, RowOk, HistoryOk;
    HitsAreForTasks(s, taskIds, id);
    WithdrawnPhase(s, taskIds, id);
  }

  /** By its history a waiting job to execute one of these tasks. */
  predicate ForTasks(s: State, taskIds: set<string>, id: JobId) {
    && PhaseOf(s.log, id).Waiting? && BirthOf(s.log, id).Some?
    && var spec := BirthOf(s.log, id).value.spec;
       spec.jobType == "agent.execute" && "task_id" in spec.payload && spec.payload["task_id"] in taskIds
  }

  lemma HitsAreForTasks(s: State, taskIds: set<string>, id: JobId)
    requires HistoryOk(s, id) && (id in s.jobs <==> BirthOf(s.log, id).Some?)
    requires id in s.jobs ==> RowOk(s.jobs[id]) && StillAsQueued(s.jobs[id], BirthOf(s.log, id).value)
    ensures id in s.jobs && CancelHits(s.jobs[id], taskIds) <==> ForTasks(s, taskIds, id)
  {
    hide PhaseOf, Claims, Completions, Hooks, Exhaustions, BirthOf;
  }

  lemma WithdrawnPhase(s: State, taskIds: set<string>, id: JobId)
    ensures PhaseOf(Next(s, CancelRun(taskIds)).log, id) ==
            if id in s.jobs && CancelHits(s.jobs[id], taskIds) then Over(Cancelled) else PhaseOf(s.log, id)
  {
    hide PhaseOf, Claims, Completions, Hooks, Exhaustions, CancelHits, CancelTable;
    AppendEvent(s.log, Withdrawn(set k | k in s.jobs && CancelHits(s.jobs[k], taskIds)), id);
  }

  /** An enqueue is accepted exactly for a known queue, a positive budget and a key no job was enqueued with. */
  lemma EnqueueAddsExactly(start: Time, steps: seq<Step>, id: JobId, spec: NewJob)
    requires Legal(Init(start), steps) && Enabled(Run(Init(start), steps), Enqueue(id, spec))
    ensures var s := Run(Init(start), steps);
            var t := Next(s, Enqueue(id, spec));
            if && spec.queue in {"orchestrator", "agent", "document", "maintenance"} && spec.maxAttempts >= 1
               && (spec.dedupeKey.Some? ==>
                     forall k :: BirthOf(s.log, k).Some? ==> BirthOf(s.log, k).value.spec.dedupeKey != spec.dedupeKey)
            then BirthOf(t.log, id) == Some(Birth(spec, s.now)) && id in t.jobs
            else t == s
  {
    var s := Run(Init(start), steps);
    hide BirthOf, DueOf, Inv;
    forall k
      ensures k in s.jobs <==> BirthOf(s.log, k).Some?
      ensures k in s.jobs ==> StillAsQueued(s.jobs[k], BirthOf(s.log, k).value)
    {
      JobsAreAsQueued(start, steps, k);
    }
    BirthAppends(s.log, Queued(id, spec, s.now), id);
  }

  /** The backoff starts at four seconds, doubles with every lease and stops at a minute; jitter comes on top. */
  lemma {:induction false} BackoffDoubles(n: nat, jitter: real)
    ensures BackoffSeconds(1, jitter) == 4.0 + jitter
    ensures BackoffSeconds(n + 1, jitter) - jitter ==
            if 2.0 * (BackoffSeconds(n, jitter) - jitter) <= 60.0 then 2.0 * (BackoffSeconds(n, jitter) - jitter)
            else 60.0
  {
    PowersOfTwo(n);
  }

  lemma {:induction false} PowersOfTwo(n: nat)
    ensures n >= 5 ==> Pow2(n) >= 32
    ensures Pow2(10) == 1024
  {
    if n > 5 { PowersOfTwo(n - 1); }
    if n == 5 { assert Pow2(5) == 2 * Pow2(4); }
  }

  /** At most 2000 characters of an error are kept, and those from its start. */
  lemma ErrorsAreCut(error: string)
    ensures Truncated(error) <= error && (Truncated(error) == error || |Truncated(error)| == 2000)
    ensures |error| > 2000 ==> |Truncated(error)| == 2000
  {
  }

  // --- what is noted on a row ---

  /** What a row says of who works on it, since when it was last heard of, how it failed and when it ended. */
  datatype Marks = Marks(worker: Option<string>, heardAt: Option<Time>, error: Option<string>, endedAt: Option<Time>)

  function MarksOf(job: Job): Marks {
    Marks(job.workerId, job.heartbeatAt, job.lastError, job.completedAt)
  }

  lemma RowMarks(s: State, step: Step, id: JobId)
    requires Enabled(s, step) && id in s.jobs
    ensures id in Next(s, step).jobs
    ensures var was, row := s.jobs[id], Next(s, step).jobs[id];
            var before := MarksOf(was);
            MarksOf(row) ==
            match step
            case Claim(_, _, i, _, worker, _) =>
              if i != id then before
              else if was.attempt < was.maxAttempts then before.(worker := Some(worker), heardAt := Some(s.now))
              else Marks(Some(worker), Some(s.now), Some("attempts exhausted after lease expiry"), Some(s.now))
            case Heartbeat(i, token, _) =>
              if i == id && Fence(s.jobs, i, token) then before.(heardAt := Some(s.now)) else before
            case Complete(i, token) =>
              if i == id && Fence(s.jobs, i, token) then before.(endedAt := Some(s.now)) else before
            case Fail(i, token, error, _, _) =>
              if i != id || !Fence(s.jobs, i, token) then before
              else
                var noted := before.(error := Some(if |error| <= 2000 then error else error[..2000]));
                if row.status.Ready? then noted else noted.(endedAt := Some(s.now))
            case CancelRun(_) => if row.status != was.status then before.(endedAt := Some(s.now)) else before
            case _ => before
  {
    hide BackoffSeconds, KeyTaken, IsCandidate, NotAfter;
  }

  /**
    A lease notes its worker and the time, a heartbeat the time; a failure under the lease notes the
    first 2000 characters of its error; whatever ends a job notes when. Nothing else is noted, and
    nothing on other rows.
   */
  lemma StepsLeaveMarks(s: State, step: Step, id: JobId)
    requires Inv(s) && Enabled(s, step) && id in s.jobs
    ensures var t := Next(s, step);
            var before, after, phase := MarksOf(s.jobs[id]), MarksOf(t.jobs[id]), PhaseOf(s.log, id);
            var current := phase.Held? && (step.Heartbeat? || step.Complete? || step.Fail?) &&
                           step.id == id && step.token == phase.token;
            after ==
            if step.Claim? && step.id == id then
              var leased := before.(worker := Some(step.worker), heardAt := Some(s.now));
              if s.jobs[id].attempt < s.jobs[id].maxAttempts then leased
              else leased.(error := Some("attempts exhausted after lease expiry"), endedAt := Some(s.now))
            else if current && step.Heartbeat? then before.(heardAt := Some(s.now))
            else if current && step.Complete? then before.(endedAt := Some(s.now))
            else if current && step.Fail? then
              var noted := before.(error := Some(if |step.error| <= 2000 then step.error else step.error[..2000]));
              if PhaseOf(t.log, id).Over? then noted.(endedAt := Some(s.now)) else noted
            else if step.CancelRun? && PhaseOf(t.log, id) != phase then before.(endedAt := Some(s.now))
            else before
  {
    if step.Heartbeat? || step.Complete? || step.Fail? { FenceIsCurrentLease(s, step.id, step.token); }
    RowMarks(s, step, id);
    InvStep(s, step);
    assert HistoryOk(s, id) && HistoryOk(Next(s, step), id);
    assert RowOk(s.jobs[id]) && RowOk(Next(s, step).jobs[id]);
    if step.Fail? || step.CancelRun? { RowStatus(s, step, id); }
    hide Next, Enabled, Inv, PhaseOf, Claims, Completions, Hooks, Exhaustions, Fence, MarksOf;
  }

  lemma RowStatus(s: State, step: Step, id: JobId)
    requires Enabled(s, step) && id in s.jobs && (step.Fail? || step.CancelRun?)
    ensures var was, row := s.jobs[id], Next(s, step).jobs[id];
            if step.Fail? then
              step.id == id && Fence(s.jobs, id, step.token) ==> row.status.Ready? || row.status.Failed?
            else row == was || (was.status.Ready? && row.status.Cancelled?)
  {
    hide BackoffSeconds, Truncated;
  }
}
