/**
  The queue's operations as the workers call them: each method is one call run with no other
  transaction in between.
 */
module JobQueue {
  import opened Basics
  import opened JobTable

  datatype ClaimOutcome = NoQueues | Nothing | Got(job: ClaimedJob)

  /** The jobs that still can be claimed, now or later. */
  function Open(jobs: Table): set<JobId> {
    set id | id in jobs && !Terminal(jobs[id])
  }

  /** One claim call: every round is a transaction of its own and reads the clock anew. */
  datatype Caller = Caller(queues: set<string>, worker: string, clock: nat -> Time, lease: Time)

  /** What a round works with. */
  datatype Round = Round(queues: set<string>, worker: string, now: Time, lease: Time)

  function RoundOf(c: Caller, n: nat): Round {
    Round(c.queues, c.worker, c.clock(n), c.lease)
  }

  function RoundTable(jobs: Table, id: JobId, token: Token, c: Round): Table {
    if id in jobs then ClaimTable(jobs, id, token, c.worker, c.now, c.lease) else jobs
  }

  /** The table once the claim loop has spent the given jobs, one transaction each, with successive tokens. */
  function DrainTable(jobs: Table, spent: seq<JobId>, token: Token, c: Caller): Table
    decreases |spent|
  {
    if spent == [] then jobs
    else
      var n := |spent| - 1;
      RoundTable(DrainTable(jobs, spent[..n], token, c), spent[n], token + n, RoundOf(c, n))
  }

  predicate SpendsLast(jobs: Table, id: JobId, c: Round) {
    IsCandidate(jobs, {}, c.queues, c.now, id) && OverLimit(jobs[id])
  }

  /** Each spent job was the SELECT's answer in its round, over its attempt limit. */
  ghost predicate DrainLegal(jobs: Table, spent: seq<JobId>, token: Token, c: Caller)
    decreases |spent|
  {
    spent == [] ||
    (DrainLegal(jobs, spent[..|spent| - 1], token, c) &&
     SpendsLast(DrainTable(jobs, spent[..|spent| - 1], token, c), spent[|spent| - 1], RoundOf(c, |spent| - 1)))
  }

  function HookCalls(spent: seq<JobId>): seq<(JobId, string)> {
    seq(|spent|, i requires 0 <= i < |spent| => (spent[i], EXHAUSTED_AFTER_LEASE_EXPIRY))
  }

  /** One exhausting round fails an expired lease at its last attempt and leaves every other row alone. */
  lemma SpendingRound(jobs: Table, id: JobId, token: Token, c: Round)
    requires RowsOk(jobs) && SpendsLast(jobs, id, c)
    ensures var after := RoundTable(jobs, id, token, c);
            RowsOk(after) && id in jobs && after.Keys == jobs.Keys && after[id].status.Failed? && Terminal(after[id]) &&
            jobs[id].status.Leased? && jobs[id].attempt == jobs[id].maxAttempts &&
            Runnable(jobs[id], c.queues, c.now) &&
            forall k :: k in jobs && k != id ==> after[k] == jobs[k]
  {
    assert RowOk(jobs[id]);
  }

  /**
    Draining fails jobs whose lease, at its last attempt, was expired when their round read the
    clock, each once; every other row is left alone.
   */
  lemma {:induction false} DrainedRow(jobs: Table, spent: seq<JobId>, token: Token, c: Caller, id: JobId)
    requires RowsOk(jobs) && DrainLegal(jobs, spent, token, c)
    ensures var after := DrainTable(jobs, spent, token, c);
            RowsOk(after) && after.Keys == jobs.Keys &&
            (id in jobs && id !in spent ==> after[id] == jobs[id]) &&
            (id in spent ==> id in jobs && jobs[id].status.Leased? && jobs[id].attempt == jobs[id].maxAttempts &&
                             after[id].status.Failed?) &&
            forall n: nat :: n < |spent| && spent[n] == id ==> Runnable(jobs[id], c.queues, c.clock(n))
    ensures multiset(spent)[id] <= 1
    decreases |spent|
  {
    hide RowsOk, RoundTable, SpendsLast, Runnable;
    if spent != [] {
      var n := |spent| - 1;
      var prefix, last := spent[..n], spent[n];
      var middle := DrainTable(jobs, prefix, token, c);
      assert spent == prefix + [last];
      DrainedRow(jobs, prefix, token, c, id);
      SpendingRound(middle, last, token + n, RoundOf(c, n));
      if id == last && id in prefix {
        assert false;
      }
    }
  }

  lemma DrainOneMore(jobs: Table, spent: seq<JobId>, token: Token, c: Caller, id: JobId)
    requires DrainLegal(jobs, spent, token, c) && SpendsLast(DrainTable(jobs, spent, token, c), id, RoundOf(c, |spent|))
    ensures DrainLegal(jobs, spent + [id], token, c)
    ensures DrainTable(jobs, spent + [id], token, c) ==
        RoundTable(DrainTable(jobs, spent, token, c), id, token + |spent|, RoundOf(c, |spent|))
  {
    assert (spent + [id])[..|spent|] == spent;
  }

  lemma OpenShrinks(before: Table, after: Table, id: JobId)
    requires after.Keys == before.Keys && id in before && !Terminal(before[id]) && Terminal(after[id])
    requires forall k :: k in before && k != id ==> after[k] == before[k]
    ensures Open(after) < Open(before)
  {
    assert id in Open(before) && id !in Open(after);
  }

  lemma HookOneMore(spent: seq<JobId>, id: JobId)
    ensures HookCalls(spent) + [(id, EXHAUSTED_AFTER_LEASE_EXPIRY)] == HookCalls(spent + [id])
  {
  }

  lemma SpendOneMore(jobs: Table, spent: seq<JobId>, token: Token, c: Caller, id: JobId)
    requires RowsOk(DrainTable(jobs, spent, token, c))
    requires DrainLegal(jobs, spent, token, c) && SpendsLast(DrainTable(jobs, spent, token, c), id, RoundOf(c, |spent|))
    ensures DrainLegal(jobs, spent + [id], token, c)
    ensures DrainTable(jobs, spent + [id], token, c) ==
        RoundTable(DrainTable(jobs, spent, token, c), id, token + |spent|, RoundOf(c, |spent|))
    ensures HookCalls(spent) + [(id, EXHAUSTED_AFTER_LEASE_EXPIRY)] == HookCalls(spent + [id])
    ensures Open(DrainTable(jobs, spent + [id], token, c)) < Open(DrainTable(jobs, spent, token, c))
  {
    hide DrainTable, DrainLegal, RoundTable, HookCalls, Open, RowsOk;
    var before := DrainTable(jobs, spent, token, c);
    DrainOneMore(jobs, spent, token, c, id);
    HookOneMore(spent, id);
    SpendingRound(before, id, token + |spent|, RoundOf(c, |spent|));
    OpenShrinks(before, RoundTable(before, id, token + |spent|, RoundOf(c, |spent|)), id);
  }

  lemma NothingSpent(jobs: Table, token: Token, c: Caller)
    ensures DrainLegal(jobs, [], token, c) && DrainTable(jobs, [], token, c) == jobs && HookCalls([]) == []
  {
  }

  ghost predicate TableOk(jobs: Table, nextId: JobId, nextToken: Token) {
    RowsOk(jobs) && KeysUnique(jobs) && TokensUnique(jobs) &&
    (forall id :: id in jobs ==> id < nextId) &&
    (forall id :: id in jobs && jobs[id].leaseToken.Some? ==> jobs[id].leaseToken.value < nextToken)
  }

  lemma RowsAreOk(jobs: Table, nextId: JobId, nextToken: Token)
    requires TableOk(jobs, nextId, nextToken)
    ensures RowsOk(jobs)
  {
  }

  /** A row that keeps its key and gets no token keeps the table in order. */
  lemma RowKeepsTable(jobs: Table, nextId: JobId, nextToken: Token, id: JobId, job: Job)
    requires TableOk(jobs, nextId, nextToken) && id in jobs && RowOk(job)
    requires job.dedupeKey == jobs[id].dedupeKey && (job.leaseToken.None? || job.leaseToken == jobs[id].leaseToken)
    ensures TableOk(jobs[id := job], nextId, nextToken)
  {
    hide RowOk;
  }

  lemma NewRowKeepsTable(jobs: Table, nextId: JobId, nextToken: Token, spec: NewJob, now: Time)
    requires TableOk(jobs, nextId, nextToken) && EnqueueOutcome(jobs, nextId, spec).Inserted?
    ensures TableOk(jobs[nextId := FreshRow(spec, now)], nextId + 1, nextToken)
  {
  }

  lemma ClaimKeepsTable(jobs: Table, nextId: JobId, token: Token, c: Round, id: JobId)
    requires TableOk(jobs, nextId, token) && id in jobs && Runnable(jobs[id], c.queues, c.now)
    ensures TableOk(RoundTable(jobs, id, token, c), nextId, token + 1)
  {
    assert RowOk(jobs[id]);
  }

  /** One round that leased `job` under `token`. */
  predicate Wins(before: Table, token: Token, c: Round, job: ClaimedJob, after: Table) {
    IsCandidate(before, {}, c.queues, c.now, job.id) && !OverLimit(before[job.id]) &&
    after == RoundTable(before, job.id, token, c) &&
    job == ClaimedJob(job.id, before[job.id].attempt + 1, before[job.id].maxAttempts, token)
  }

  /** What a claim call returns and leaves behind, given the jobs it had to fail first. */
  ghost predicate ClaimEffect(before: Table, token: Token, c: Caller, r: ClaimOutcome, spent: seq<JobId>,
                              after: Table) {
    DrainLegal(before, spent, token, c) &&
    match r
    case NoQueues => spent == [] && after == before
    case Nothing =>
      after == DrainTable(before, spent, token, c) &&
      forall k :: k in after ==> !Runnable(after[k], c.queues, c.clock(|spent|))
    case Got(job) =>
      Wins(DrainTable(before, spent, token, c), token + |spent|, RoundOf(c, |spent|), job, after)
  }

  datatype RoundOutcome = Empty | Won(job: ClaimedJob) | Spent(id: JobId)

  class JobQueue {
    var jobs: Table
    var nextId: JobId
    var nextToken: Token
    var hooks: seq<(JobId, string)>  // calls made to on_exhausted, oldest first

    ghost predicate Valid()
      reads this
    {
      TableOk(jobs, nextId, nextToken)
    }

    constructor ()
      ensures Valid() && jobs == map[] && hooks == []
    {
      jobs, nextId, nextToken, hooks := map[], 0, 0, [];
    }

    method Enqueue(spec: NewJob, now: Time) returns (r: Enqueued)
      requires Valid()
      modifies this
      ensures Valid() && hooks == old(hooks)
      ensures r == EnqueueOutcome(old(jobs), old(nextId), spec)
      ensures jobs == EnqueueTable(old(jobs), old(nextId), spec, now)
    {
      hide TableOk;
      r := EnqueueOutcome(jobs, nextId, spec);
      if r.Inserted? {
        NewRowKeepsTable(jobs, nextId, nextToken, spec, now);
        jobs := jobs[nextId := FreshRow(spec, now)];
        nextId := nextId + 1;
      }
    }

    /** The first runnable job by (available_at, created_at), if any. */
    method FirstRunnable(queues: set<string>, now: Time) returns (r: Option<JobId>)
      ensures r.None? ==> forall k :: k in jobs ==> !Runnable(jobs[k], queues, now)
      ensures r.Some? ==> IsCandidate(jobs, {}, queues, now, r.value)
    {
      var pool := set k | k in jobs && Runnable(jobs[k], queues, now);
      r := None;
      while pool != {}
        invariant forall k :: k in pool ==> k in jobs && Runnable(jobs[k], queues, now)
        invariant r.None? ==> forall k :: k in jobs && Runnable(jobs[k], queues, now) ==> k in pool
        invariant r.Some? ==> r.value in jobs && Runnable(jobs[r.value], queues, now)
        invariant r.Some? ==> forall k :: k in jobs && Runnable(jobs[k], queues, now) ==>
            k in pool || NotAfter(jobs[r.value], jobs[k])
        decreases pool
      {
        var k :| k in pool;
        if r.None? || !NotAfter(jobs[r.value], jobs[k]) {
          r := Some(k);
        }
        pool := pool - {k};
      }
    }

    /** One transaction of the claim loop. */
    method ClaimRound(c: Round) returns (r: RoundOutcome)
      requires Valid()
      modifies this`jobs, this`nextToken
      ensures Valid()
      ensures r.Empty? ==> unchanged(this) && forall k :: k in jobs ==> !Runnable(jobs[k], c.queues, c.now)
      ensures !r.Empty? ==> nextToken == old(nextToken) + 1
      ensures r.Won? ==> Wins(old(jobs), old(nextToken), c, r.job, jobs)
      ensures r.Spent? ==>
                SpendsLast(old(jobs), r.id, c) && jobs == RoundTable(old(jobs), r.id, old(nextToken), c)
    {
      var found := FirstRunnable(c.queues, c.now);
      if found.None? { return Empty; }
      var id, token := found.value, nextToken;
      ClaimKeepsTable(jobs, nextId, token, c, id);
      var row := LeaseRow(jobs[id], token, c.worker, c.now, c.lease);
      nextToken := nextToken + 1;
      if row.attempt <= row.maxAttempts {
        jobs := jobs[id := row];
        return Won(ClaimedJob(id, row.attempt, row.maxAttempts, token));
      }
      jobs := jobs[id := ExhaustRow(row, c.now)];
      return Spent(id);
    }

    /** Lease the next runnable job; jobs whose last lease expired are failed on the way and their hooks run. */
    method Claim(c: Caller) returns (r: ClaimOutcome, ghost spent: seq<JobId>)
      requires Valid()
      modifies this
      ensures Valid() && nextId == old(nextId)
      ensures r.NoQueues? <==> c.queues == {}
      ensures ClaimEffect(old(jobs), old(nextToken), c, r, spent, jobs)
      ensures hooks == old(hooks) + HookCalls(spent)
    {
      hide TableOk, RowsOk, DrainLegal, DrainTable, RoundTable, HookCalls, Open, Wins, SpendsLast, Runnable;
      NothingSpent(jobs, nextToken, c);
      spent := [];
      if c.queues == {} {
        return NoQueues, [];
      }
      var readings: nat := 0;
      while true
        invariant Valid() && nextId == old(nextId) && readings == |spent|
        invariant nextToken == old(nextToken) + |spent|
        invariant DrainLegal(old(jobs), spent, old(nextToken), c)
        invariant jobs == DrainTable(old(jobs), spent, old(nextToken), c)
        invariant hooks == old(hooks) + HookCalls(spent)
        decreases Open(jobs)
      {
        var round := ClaimRound(RoundOf(c, readings));
        readings := readings + 1;
        match round {
          case Empty => return Nothing, spent;
          case Won(job) => return Got(job), spent;
          case Spent(id) =>
            RowsAreOk(DrainTable(old(jobs), spent, old(nextToken), c), nextId, old(nextToken) + |spent|);
            SpendOneMore(old(jobs), spent, old(nextToken), c, id);
            hooks := hooks + [(id, EXHAUSTED_AFTER_LEASE_EXPIRY)];
            spent := spent + [id];
        }
      }
    }

    method Heartbeat(id: JobId, token: Token, lease: Time, now: Time) returns (extended: bool)
      requires Valid()
      modifies this`jobs
      ensures Valid()
      ensures extended == Fence(old(jobs), id, token)
      ensures jobs == HeartbeatTable(old(jobs), id, token, now, lease)
    {
      hide TableOk;
      extended := Fence(jobs, id, token);
      if extended {
        var row := jobs[id].(leasedUntil := Some(now + lease), heartbeatAt := Some(now));
        RowsAreOk(jobs, nextId, nextToken);
        RowKeepsTable(jobs, nextId, nextToken, id, row);
        jobs := jobs[id := row];
      }
    }

    method Complete(id: JobId, token: Token, now: Time) returns (done: bool)
      requires Valid()
      modifies this`jobs
      ensures Valid()
      ensures done == Fence(old(jobs), id, token)
      ensures jobs == CompleteTable(old(jobs), id, token, now)
      ensures done ==> !Fence(jobs, id, token)
    {
      hide TableOk;
      done := Fence(jobs, id, token);
      if done {
        var row := jobs[id].(status := Done, leasedUntil := None, completedAt := Some(now));
        RowsAreOk(jobs, nextId, nextToken);
        RowKeepsTable(jobs, nextId, nextToken, id, row);
        jobs := jobs[id := row];
      }
    }

    /** A fenced failure: back to READY while attempts remain, otherwise FAILED and the hook runs after the commit. */
    method Fail(id: JobId, token: Token, error: string, retryable: bool, now: Time,
                jitter: real) returns (recorded: bool)
      requires Valid() && 0.0 <= jitter < 1.0
      modifies this`jobs, this`hooks
      ensures Valid()
      ensures recorded == Fence(old(jobs), id, token)
      ensures jobs == FailTable(old(jobs), id, token, error, retryable, now, jitter)
      ensures recorded ==> !Fence(jobs, id, token)
      ensures hooks == old(hooks) + if recorded && jobs[id].status.Failed? then [(id, Truncated(error))] else []
    {
      hide TableOk;
      recorded := Fence(jobs, id, token);
      if !recorded { return; }
      RowsAreOk(jobs, nextId, nextToken);
      var shortened := Truncated(error);
      var retry := WillRetry(jobs[id], retryable);
      var row := jobs[id].(leaseToken := None, leasedUntil := None, lastError := Some(shortened));
      if retry {
        row := row.(status := Ready, availableAt := now + BackoffSeconds(row.attempt, jitter));
        RowKeepsTable(jobs, nextId, nextToken, id, row);
        jobs := jobs[id := row];
      } else {
        row := row.(status := Failed, completedAt := Some(now));
        RowKeepsTable(jobs, nextId, nextToken, id, row);
        jobs := jobs[id := row];
        hooks := hooks + [(id, shortened)];
      }
    }

    /** What cancelling a run does to the jobs of its tasks. */
    method CancelJobs(taskIds: set<string>, now: Time)
      requires Valid()
      modifies this`jobs
      ensures Valid()
      ensures jobs == CancelTable(old(jobs), taskIds, now)
    {
      jobs := CancelTable(jobs, taskIds, now);
    }
  }
}
