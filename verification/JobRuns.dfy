/**
  The job queue as a protocol: any number of workers, any interleaving of committed
  transactions, workers that stall past their lease, crash or come back, and a
  database clock that never goes backwards.
 */
module JobRuns {
  import opened Basics
  import opened JobTable

  /** What happened, in commit order; rows never appear here, only the transactions' own inputs. */
  datatype Event =
    | Queued(id: JobId, spec: NewJob, at: Time)
    | Claimed(id: JobId, token: Token, at: Time, lease: Time)
    | Extended(id: JobId, token: Token, at: Time, lease: Time)
    | Completed(id: JobId, token: Token)
    | Requeued(id: JobId, token: Token, at: Time, jitter: real)
    | GaveUp(id: JobId, token: Token)
    | Exhausted(id: JobId, token: Token)
    | Withdrawn(ids: set<JobId>)
    | Hooked(id: JobId)

  datatype State = State(
    jobs: Table,
    now: Time,
    issued: set<Token>,     // lease tokens drawn so far
    owed: set<JobId>,       // committed failures whose process has not run its hook yet
    order: seq<JobId>,      // jobs in the order they were enqueued
    log: seq<Event>)

  datatype Step =
    | Enqueue(id: JobId, spec: NewJob)
    | Claim(queues: set<string>, locked: set<JobId>, id: JobId, token: Token, worker: string, lease: Time)
    | Heartbeat(id: JobId, token: Token, lease: Time)
    | Complete(id: JobId, token: Token)
    | Fail(id: JobId, token: Token, error: string, retryable: bool, jitter: real)
    | CancelRun(taskIds: set<string>)
    | RunHook(id: JobId)
    | Crash(lost: set<JobId>)
    | Tick(to: Time)

  function Init(start: Time): State {
    State(map[], start, {}, {}, [], [])
  }

  /**
    Fresh ids and tokens are fresh; everything a worker sends (token included) is arbitrary.
    A claim may find other transactions' rows locked.
   */
  predicate Enabled(s: State, step: Step) {
    match step
    case Enqueue(id, spec) => id !in s.jobs
    case Claim(queues, locked, id, token, worker, lease) =>
      queues != {} && token !in s.issued && IsCandidate(s.jobs, locked, queues, s.now, id)
    case Heartbeat(_, _, _) => true
    case Complete(_, _) => true
    case Fail(_, _, _, _, jitter) => 0.0 <= jitter < 1.0
    case CancelRun(_) => true
    case RunHook(id) => id in s.owed
    case Crash(_) => true
    case Tick(to) => s.now <= to
  }

  function Next(s: State, step: Step): State
    requires Enabled(s, step)
  {
    match step
    case Enqueue(id, spec) =>
      if EnqueueOutcome(s.jobs, id, spec).Inserted? then
        s.(jobs := EnqueueTable(s.jobs, id, spec, s.now), order := s.order + [id],
           log := s.log + [Queued(id, spec, s.now)])
      else s
    case Claim(queues, locked, id, token, worker, lease) =>
      var jobs := ClaimTable(s.jobs, id, token, worker, s.now, lease);
      if OverLimit(s.jobs[id]) then
        s.(jobs := jobs, issued := s.issued + {token}, owed := s.owed + {id}, log := s.log + [Exhausted(id, token)])
      else
        s.(jobs := jobs, issued := s.issued + {token}, log := s.log + [Claimed(id, token, s.now, lease)])
    case Heartbeat(id, token, lease) =>
      if Fence(s.jobs, id, token) then
        s.(jobs := HeartbeatTable(s.jobs, id, token, s.now, lease), log := s.log + [Extended(id, token, s.now, lease)])
      else s
    case Complete(id, token) =>
      // A fenced-out worker rolls back: its business writes vanish with the attempt.
      if Fence(s.jobs, id, token) then
        s.(jobs := CompleteTable(s.jobs, id, token, s.now), log := s.log + [Completed(id, token)])
      else s
    case Fail(id, token, error, retryable, jitter) =>
      if !Fence(s.jobs, id, token) then s
      else
        var jobs := FailTable(s.jobs, id, token, error, retryable, s.now, jitter);
        if WillRetry(s.jobs[id], retryable) then
          s.(jobs := jobs, log := s.log + [Requeued(id, token, s.now, jitter)])
        else
          s.(jobs := jobs, owed := s.owed + {id}, log := s.log + [GaveUp(id, token)])
    case CancelRun(taskIds) =>
      s.(jobs := CancelTable(s.jobs, taskIds, s.now),
         log := s.log + [Withdrawn(set id | id in s.jobs && CancelHits(s.jobs[id], taskIds))])
    case RunHook(id) => s.(owed := s.owed - {id}, log := s.log + [Hooked(id)])
    case Crash(lost) => s.(owed := s.owed - lost)
    case Tick(to) => s.(now := to)
  }

  ghost predicate Legal(s: State, steps: seq<Step>)
    decreases |steps|
  {
    steps == [] || (Enabled(s, steps[0]) && Legal(Next(s, steps[0]), steps[1..]))
  }

  ghost function Run(s: State, steps: seq<Step>): State
    requires Legal(s, steps)
    decreases |steps|
  {
    if steps == [] then s else Run(Next(s, steps[0]), steps[1..])
  }

  // --- a job's life, read off the history alone ---

  datatype Phase = Unborn | Waiting(from: Time) | Held(token: Token, until: Time) | Over(how: Status)

  predicate IsClaimOf(e: Event, id: JobId) {
    e.Claimed? && e.id == id
  }

  function Claims(log: seq<Event>, id: JobId): nat {
    if log == [] then 0
    else Claims(log[..|log| - 1], id) + if IsClaimOf(log[|log| - 1], id) then 1 else 0
  }

  function Completions(log: seq<Event>, id: JobId): nat {
    if log == [] then 0
    else Completions(log[..|log| - 1], id) + if log[|log| - 1].Completed? && log[|log| - 1].id == id then 1 else 0
  }

  function Hooks(log: seq<Event>, id: JobId): nat {
    if log == [] then 0
    else Hooks(log[..|log| - 1], id) + if log[|log| - 1] == Hooked(id) then 1 else 0
  }

  function Exhaustions(log: seq<Event>, id: JobId): nat {
    if log == [] then 0
    else Exhaustions(log[..|log| - 1], id) + if log[|log| - 1].Exhausted? && log[|log| - 1].id == id then 1 else 0
  }

  /** What one event does to the phase of `id`; a requeue waits out the backoff of the claims made so far. */
  function PhaseStep(phase: Phase, claims: nat, e: Event, id: JobId): Phase {
    match e
    case Queued(i, spec, at) =>
      if i == id then Waiting(if spec.availableAt.Some? then spec.availableAt.value else at) else phase
    case Claimed(i, token, at, lease) => if i == id then Held(token, at + lease) else phase
    case Extended(i, token, at, lease) => if i == id then Held(token, at + lease) else phase
    case Completed(i, _) => if i == id then Over(Done) else phase
    case Requeued(i, _, at, jitter) => if i == id then Waiting(at + BackoffSeconds(claims, jitter)) else phase
    case GaveUp(i, _) => if i == id then Over(Failed) else phase
    case Exhausted(i, _) => if i == id then Over(Failed) else phase
    case Withdrawn(ids) => if id in ids then Over(Cancelled) else phase
    case Hooked(_) => phase
  }

  function PhaseOf(log: seq<Event>, id: JobId): Phase {
    if log == [] then Unborn
    else PhaseStep(PhaseOf(log[..|log| - 1], id), Claims(log[..|log| - 1], id), log[|log| - 1], id)
  }

  function RowPhase(jobs: Table, id: JobId): Phase {
    if id !in jobs then Unborn
    else
      match jobs[id].status
      case Ready => Waiting(jobs[id].availableAt)
      case Leased =>
        if jobs[id].leaseToken.Some? && jobs[id].leasedUntil.Some?
        then Held(jobs[id].leaseToken.value, jobs[id].leasedUntil.value) else Unborn
      case how => Over(how)
  }

  // --- the invariant ---

  predicate TokensIssued(s: State) {
    forall id :: id in s.jobs && s.jobs[id].leaseToken.Some? ==> s.jobs[id].leaseToken.value in s.issued
  }

  predicate HistoryOk(s: State, id: JobId) {
    PhaseOf(s.log, id) == RowPhase(s.jobs, id) &&
    Claims(s.log, id) == (if id in s.jobs then s.jobs[id].attempt else 0) &&
    Completions(s.log, id) == (if id in s.jobs && s.jobs[id].status.Done? then 1 else 0) &&
    var failed := if id in s.jobs && s.jobs[id].status.Failed? then 1 else 0;
    Hooks(s.log, id) + (if id in s.owed then 1 else 0) <= failed && Exhaustions(s.log, id) <= failed
  }

  ghost predicate Inv(s: State) {
    RowsOk(s.jobs) && KeysUnique(s.jobs) && TokensUnique(s.jobs) && TokensIssued(s) &&
    forall id: JobId :: HistoryOk(s, id)
  }

  lemma RowStaysOk(s: State, step: Step, id: JobId)
    requires Enabled(s, step) && id in Next(s, step).jobs && (id in s.jobs ==> RowOk(s.jobs[id]))
    ensures RowOk(Next(s, step).jobs[id])
  {
    hide BackoffSeconds, KeyTaken, Truncated;
  }

  lemma RowsStayOk(s: State, step: Step)
    requires Enabled(s, step) && RowsOk(s.jobs)
    ensures RowsOk(Next(s, step).jobs)
  {
    hide Next, Enabled, RowOk;
    forall id | id in Next(s, step).jobs ensures RowOk(Next(s, step).jobs[id]) {
      if id in s.jobs { assert RowOk(s.jobs[id]); }
      RowStaysOk(s, step, id);
    }
  }

  /** A row keeps its key; its token stays, goes, or is the fresh one of a claim. A new row has neither twice. */
  lemma RowMoves(s: State, step: Step, id: JobId)
    requires Enabled(s, step) && id in Next(s, step).jobs
    ensures var job := Next(s, step).jobs[id];
            if id in s.jobs then
              && job.dedupeKey == s.jobs[id].dedupeKey
              && (job.leaseToken.None? || job.leaseToken == s.jobs[id].leaseToken
                  || (step.Claim? && id == step.id && job.leaseToken == Some(step.token)))
            else job.leaseToken.None? && step.Enqueue? && id == step.id && !KeyTaken(s.jobs, job.dedupeKey)
  {
    hide BackoffSeconds, Runnable, KeyTaken, Truncated;
  }

  lemma IssuedGrows(s: State, step: Step)
    requires Enabled(s, step)
    ensures Next(s, step).issued == if step.Claim? then s.issued + {step.token} else s.issued
    ensures step.Claim? ==> step.token !in s.issued
  {
    hide ClaimTable, FailTable, CompleteTable, HeartbeatTable, CancelTable, EnqueueTable, IsCandidate;
  }

  lemma KeysStayUnique(s: State, step: Step)
    requires Enabled(s, step) && KeysUnique(s.jobs)
    ensures KeysUnique(Next(s, step).jobs)
  {
    hide Next, Enabled;
    var jobs := Next(s, step).jobs;
    forall a, b | a in jobs && b in jobs && jobs[a].dedupeKey.Some? && jobs[a].dedupeKey == jobs[b].dedupeKey
      ensures a == b
    {
      RowMoves(s, step, a);
      RowMoves(s, step, b);
    }
  }

  lemma TokensStayUnique(s: State, step: Step)
    requires Enabled(s, step) && TokensUnique(s.jobs) && TokensIssued(s)
    ensures TokensUnique(Next(s, step).jobs) && TokensIssued(Next(s, step))
  {
    hide Next, Enabled;
    var jobs := Next(s, step).jobs;
    IssuedGrows(s, step);
    forall a, b | a in jobs && b in jobs && jobs[a].leaseToken.Some? && jobs[a].leaseToken == jobs[b].leaseToken
      ensures a == b
    {
      RowMoves(s, step, a);
      RowMoves(s, step, b);
    }
    forall id | id in jobs && jobs[id].leaseToken.Some? ensures jobs[id].leaseToken.value in Next(s, step).issued {
      RowMoves(s, step, id);
    }
  }

  lemma AppendEvent(log: seq<Event>, e: Event, id: JobId)
    ensures PhaseOf(log + [e], id) == PhaseStep(PhaseOf(log, id), Claims(log, id), e, id)
    ensures Claims(log + [e], id) == Claims(log, id) + if IsClaimOf(e, id) then 1 else 0
    ensures Completions(log + [e], id) == Completions(log, id) + if e.Completed? && e.id == id then 1 else 0
    ensures Hooks(log + [e], id) == Hooks(log, id) + if e == Hooked(id) then 1 else 0
    ensures Exhaustions(log + [e], id) == Exhaustions(log, id) + if e.Exhausted? && e.id == id then 1 else 0
  {
    assert (log + [e])[..|log + [e]| - 1] == log;
  }

  predicate Touches(e: Event, id: JobId) {
    match e
    case Withdrawn(ids) => id in ids
    case _ => e.id == id
  }

  /** An event about other jobs leaves the history of a job whose row it left alone. */
  lemma OthersKeepHistory(s: State, t: State, e: Event, id: JobId)
    requires HistoryOk(s, id) && !Touches(e, id) && t.log == s.log + [e]
    requires id in t.owed ==> id in s.owed
    requires id in t.jobs <==> id in s.jobs
    requires id in t.jobs ==> t.jobs[id] == s.jobs[id]
    ensures HistoryOk(t, id)
  {
    hide PhaseOf, Claims, Completions, Hooks, Exhaustions, BackoffSeconds;
    AppendEvent(s.log, e, id);
  }

  lemma ClaimHistory(s: State, step: Step)
    requires Enabled(s, step) && step.Claim?
    requires HistoryOk(s, step.id) && RowOk(s.jobs[step.id])
    ensures HistoryOk(Next(s, step), step.id)
  {
    hide PhaseOf, Claims, Completions, Hooks, Exhaustions, BackoffSeconds;
    var t, id := Next(s, step), step.id;
    if OverLimit(s.jobs[id]) {
      AppendEvent(s.log, Exhausted(id, step.token), id);
      assert t.jobs[id].status == Failed && t.jobs[id].attempt == s.jobs[id].attempt;
    } else {
      AppendEvent(s.log, Claimed(id, step.token, s.now, step.lease), id);
      assert t.jobs[id] == LeaseRow(s.jobs[id], step.token, step.worker, s.now, step.lease);
    }
  }

  lemma FencedHistory(s: State, step: Step)
    requires Enabled(s, step) && (step.Heartbeat? || step.Complete? || step.Fail?)
    requires HistoryOk(s, step.id)
    ensures HistoryOk(Next(s, step), step.id)
  {
    hide PhaseOf, Claims, Completions, Hooks, Exhaustions, BackoffSeconds;
    var t := Next(s, step);
    if Fence(s.jobs, step.id, step.token) {
      AppendEvent(s.log, t.log[|s.log|], step.id);
    }
  }

  lemma CancelHistory(s: State, step: Step)
    requires Enabled(s, step) && step.CancelRun?
    requires forall id: JobId :: HistoryOk(s, id)
    ensures forall id: JobId :: HistoryOk(Next(s, step), id)
  {
    hide PhaseOf, Claims, Completions, Hooks, Exhaustions, BackoffSeconds;
    var hit := set k | k in s.jobs && CancelHits(s.jobs[k], step.taskIds);
    var t := Next(s, step);
    forall id: JobId ensures HistoryOk(t, id) {
      assert HistoryOk(s, id);
      if id in hit {
        AppendEvent(s.log, Withdrawn(hit), id);
        assert t.jobs[id] == s.jobs[id].(status := Cancelled, completedAt := Some(s.now));
      } else {
        OthersKeepHistory(s, t, Withdrawn(hit), id);
      }
    }
  }

  lemma OtherHistory(s: State, step: Step)
    requires Enabled(s, step) && (step.Enqueue? || step.RunHook? || step.Crash? || step.Tick?)
    requires forall id: JobId :: HistoryOk(s, id)
    ensures forall id: JobId :: HistoryOk(Next(s, step), id)
  {
    hide PhaseOf, Claims, Completions, Hooks, Exhaustions, BackoffSeconds;
    var t := Next(s, step);
    forall id: JobId ensures HistoryOk(t, id) {
      assert HistoryOk(s, id);
      if t.log != s.log {
        AppendEvent(s.log, t.log[|s.log|], id);
      }
    }
  }

  /** A step on one leased or claimed row: the row's own history, and everybody else's. */
  lemma RowHistory(s: State, step: Step)
    requires Enabled(s, step) && (step.Claim? || step.Heartbeat? || step.Complete? || step.Fail?)
    requires RowsOk(s.jobs) && forall id: JobId :: HistoryOk(s, id)
    ensures forall id: JobId :: HistoryOk(Next(s, step), id)
  {
    hide HistoryOk, RowOk;
    var t := Next(s, step);
    forall id: JobId ensures HistoryOk(t, id) {
      assert HistoryOk(s, id);
      if step.id != id {
        if t.log != s.log { OthersKeepHistory(s, t, t.log[|s.log|], id); }
      } else if step.Claim? {
        assert RowOk(s.jobs[id]);
        ClaimHistory(s, step);
      } else {
        FencedHistory(s, step);
      }
    }
  }

  lemma InvStep(s: State, step: Step)
    requires Enabled(s, step) && Inv(s)
    ensures Inv(Next(s, step))
  {
    hide Enabled, Next, HistoryOk, RowsOk, KeysUnique, TokensUnique, TokensIssued;
    RowsStayOk(s, step);
    KeysStayUnique(s, step);
    TokensStayUnique(s, step);
    match step
    case CancelRun(_) => CancelHistory(s, step);
    case Enqueue(_, _) => OtherHistory(s, step);
    case RunHook(_) => OtherHistory(s, step);
    case Crash(_) => OtherHistory(s, step);
    case Tick(_) => OtherHistory(s, step);
    case _ => RowHistory(s, step);
  }

  lemma {:induction false} InvRun(s: State, steps: seq<Step>)
    requires Inv(s) && Legal(s, steps)
    ensures Inv(Run(s, steps))
    decreases |steps|
  {
    if steps != [] {
      InvStep(s, steps[0]);
      InvRun(Next(s, steps[0]), steps[1..]);
    }
  }

  lemma InvInit(start: Time)
    ensures Inv(Init(start))
  {
  }
}
