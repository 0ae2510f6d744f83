/**
  What the queue's protocol promises over whole runs: fencing, at most once, and
  a bound on the claims however often workers crash.
 */
module JobTheorems {
  import opened JobTable
  import opened JobRuns

  // --- fencing ---

  /** A token opens the fence exactly while the history says its lease is the job's current one. */
  lemma FenceIsCurrentLease(s: State, id: JobId, token: Token)
    requires Inv(s)
    ensures Fence(s.jobs, id, token) <==> PhaseOf(s.log, id).Held? && PhaseOf(s.log, id).token == token
  {
    assert HistoryOk(s, id);
    if id in s.jobs { assert RowOk(s.jobs[id]); }
  }

  /** A job is handed out only when its backoff is over or its last lease has run out. */
  lemma ClaimRespectsLease(s: State, step: Step)
    requires Inv(s) && Enabled(s, step) && step.Claim?
    ensures var phase := PhaseOf(s.log, step.id);
            (phase.Waiting? && phase.from <= s.now) || (phase.Held? && phase.until < s.now)
  {
    assert HistoryOk(s, step.id) && RowOk(s.jobs[step.id]);
  }

  predicate UsesLease(e: Event) {
    e.Extended? || e.Completed? || e.Requeued? || e.GaveUp?
  }

  /** Claims draw distinct tokens and every fenced event used the lease that was current when it committed. */
  ghost predicate LogOk(s: State) {
    (forall k :: 0 <= k < |s.log| && s.log[k].Claimed? ==> s.log[k].token in s.issued) &&
    (forall i, j :: 0 <= i < j < |s.log| && s.log[i].Claimed? && s.log[j].Claimed? ==>
        s.log[i].token != s.log[j].token) &&
    (forall k :: 0 <= k < |s.log| && UsesLease(s.log[k]) ==>
       PhaseOf(s.log[..k], s.log[k].id).Held? && PhaseOf(s.log[..k], s.log[k].id).token == s.log[k].token)
  }

  /** A step logs at most one event: a claim under its fresh token, or a use of a lease inside the fence. */
  lemma LogAppends(s: State, step: Step)
    requires Enabled(s, step)
    ensures var t := Next(s, step);
            t.log == s.log || (s.log < t.log && |t.log| == |s.log| + 1
                               && var e := t.log[|s.log|];
                                  (e.Claimed? ==> step.Claim? && e.token == step.token)
                                  && (UsesLease(e) ==> Fence(s.jobs, e.id, e.token)))
  {
    hide ClaimTable, FailTable, CompleteTable, HeartbeatTable, CancelTable, EnqueueTable, IsCandidate;
  }

  lemma LogStep(s: State, step: Step)
    requires Enabled(s, step) && Inv(s) && LogOk(s)
    ensures LogOk(Next(s, step))
  {
    hide Next, Enabled, Inv, PhaseOf, Fence;
    var t := Next(s, step);
    LogAppends(s, step);
    IssuedGrows(s, step);
    if t.log != s.log {
      var e := t.log[|s.log|];
      assert t.log[..|s.log|] == s.log;
      if UsesLease(e) { FenceIsCurrentLease(s, e.id, e.token); }
      forall k | 0 <= k < |t.log| && UsesLease(t.log[k])
        ensures PhaseOf(t.log[..k], t.log[k].id).Held? && PhaseOf(t.log[..k], t.log[k].id).token == t.log[k].token
      {
        if k < |s.log| { assert t.log[..k] == s.log[..k]; }
      }
    }
  }

  lemma {:induction false} LogRun(s: State, steps: seq<Step>)
    requires Inv(s) && LogOk(s) && Legal(s, steps)
    ensures LogOk(Run(s, steps))
    decreases |steps|
  {
    if steps != [] {
      InvStep(s, steps[0]);
      LogStep(s, steps[0]);
      LogRun(Next(s, steps[0]), steps[1..]);
    }
  }

  /** The current lease is the one of the job's last claim. */
  lemma {:induction false} HeldByLastClaim(log: seq<Event>, id: JobId) returns (k: nat)
    requires PhaseOf(log, id).Held?
    requires forall k :: 0 <= k < |log| && UsesLease(log[k]) ==>
               PhaseOf(log[..k], log[k].id).Held? && PhaseOf(log[..k], log[k].id).token == log[k].token
    ensures k < |log| && IsClaimOf(log[k], id) && log[k].token == PhaseOf(log, id).token
    ensures forall j :: k < j < |log| ==> !IsClaimOf(log[j], id)
    decreases |log|
  {
    var last, past := log[|log| - 1], log[..|log| - 1];
    if IsClaimOf(last, id) {
      k := |log| - 1;
    } else {
      assert PhaseOf(past, id).Held? && PhaseOf(past, id).token == PhaseOf(log, id).token;
      forall j | 0 <= j < |past| && UsesLease(past[j])
        ensures PhaseOf(past[..j], past[j].id).Held? && PhaseOf(past[..j], past[j].id).token == past[j].token
      {
        assert past[..j] == log[..j] && past[j] == log[j];
      }
      k := HeldByLastClaim(past, id);
    }
  }

  /**
    Fencing over all runs: once a later claim of the job has committed, a heartbeat,
    completion or failure carrying the earlier token changes nothing at all.
   */
  lemma ReplacedTokenIsInert(start: Time, steps: seq<Step>, i: nat, j: nat, step: Step)
    requires Legal(Init(start), steps)
    requires var log := Run(Init(start), steps).log;
             i < j < |log| && log[i].Claimed? && IsClaimOf(log[j], log[i].id)
    requires (step.Heartbeat? || step.Complete? || step.Fail?) && Enabled(Run(Init(start), steps), step)
    requires var log := Run(Init(start), steps).log;
             step.id == log[i].id && step.token == log[i].token
    ensures Next(Run(Init(start), steps), step) == Run(Init(start), steps)
  {
    var s := Run(Init(start), steps);
    InvInit(start);
    InvRun(Init(start), steps);
    LogRun(Init(start), steps);
    FenceIsCurrentLease(s, step.id, step.token);
    if Fence(s.jobs, step.id, step.token) {
      var k := HeldByLastClaim(s.log, step.id);
      assert false;
    }
  }

  /** The lease that completes a job is the one of its last claim so far. */
  lemma CompletedByLastClaimant(start: Time, steps: seq<Step>, c: nat) returns (k: nat)
    requires Legal(Init(start), steps)
    requires c < |Run(Init(start), steps).log| && Run(Init(start), steps).log[c].Completed?
    ensures var log := Run(Init(start), steps).log;
            k < c && IsClaimOf(log[k], log[c].id) && log[k].token == log[c].token &&
            forall j :: k < j < c ==> !IsClaimOf(log[j], log[c].id)
  {
    InvInit(start);
    LogRun(Init(start), steps);
    var log := Run(Init(start), steps).log;
    assert UsesLease(log[c]);
    forall j | 0 <= j < c && UsesLease(log[..c][j])
      ensures PhaseOf(log[..c][..j], log[..c][j].id).Held?
      ensures PhaseOf(log[..c][..j], log[..c][j].id).token == log[..c][j].token
    {
      assert log[..c][..j] == log[..j];
    }
    k := HeldByLastClaim(log[..c], log[c].id);
  }

  // --- at most once ---

  /**
    Per job at most one completion ever commits, at most `maxAttempts` leases are handed out, and
    it is exhausted and its hook runs at most once.
   */
  lemma AtMostOnce(start: Time, steps: seq<Step>, id: JobId)
    requires Legal(Init(start), steps)
    ensures var s := Run(Init(start), steps);
            Completions(s.log, id) <= 1 &&
            Hooks(s.log, id) <= 1 &&
            Exhaustions(s.log, id) <= 1 &&
            (Hooks(s.log, id) == 1 ==> id in s.jobs && s.jobs[id].status.Failed?) &&
            (id in s.jobs ==> Claims(s.log, id) == s.jobs[id].attempt <= s.jobs[id].maxAttempts) &&
            (Completions(s.log, id) == 1 <==> id in s.jobs && s.jobs[id].status.Done?)
  {
    InvInit(start);
    InvRun(Init(start), steps);
    var s := Run(Init(start), steps);
    assert HistoryOk(s, id);
    if id in s.jobs { assert RowOk(s.jobs[id]); }
  }

  /** DONE, FAILED and CANCELLED rows never change again, whatever anyone does. */
  lemma {:induction false} TerminalRowsAreFinal(s: State, steps: seq<Step>, id: JobId)
    requires Inv(s) && Legal(s, steps) && id in s.jobs && s.jobs[id].status in {Done, Failed, Cancelled}
    ensures id in Run(s, steps).jobs && Run(s, steps).jobs[id] == s.jobs[id]
    decreases |steps|
  {
    if steps != [] {
      assert RowOk(s.jobs[id]);
      InvStep(s, steps[0]);
      TerminalRowsAreFinal(Next(s, steps[0]), steps[1..], id);
    }
  }

  // --- progress ---

  /** Claim transactions a job can still absorb. */
  function Rank(job: Job): int {
    if Terminal(job) then 0 else job.maxAttempts - job.attempt + 1
  }

  function RankIn(jobs: Table, id: JobId): int {
    if id in jobs then Rank(jobs[id]) else 0
  }

  function Potential(order: seq<JobId>, jobs: Table): int {
    if order == [] then 0
    else Potential(order[..|order| - 1], jobs) + RankIn(jobs, order[|order| - 1])
  }

  predicate IsClaimTransaction(e: Event) {
    e.Claimed? || e.Exhausted?
  }

  /** Claim transactions that leased or exhausted a row. */
  function ClaimTransactions(log: seq<Event>): nat {
    if log == [] then 0
    else ClaimTransactions(log[..|log| - 1]) + (if IsClaimTransaction(log[|log| - 1]) then 1 else 0)
  }

  /** The sum of (max_attempts + 1) over every job ever enqueued. */
  function TotalBudget(log: seq<Event>): int {
    if log == [] then 0
    else TotalBudget(log[..|log| - 1]) + if log[|log| - 1].Queued? then log[|log| - 1].spec.maxAttempts + 1 else 0
  }

  lemma {:induction false} PotentialFalls(order: seq<JobId>, before: Table, after: Table)
    requires forall k :: k in order && k in before ==> k in after && Rank(after[k]) <= Rank(before[k])
    requires forall k :: k in order && k in after ==> k in before
    ensures Potential(order, after) <= Potential(order, before)
    ensures forall id :: id in order && id in before && Rank(after[id]) < Rank(before[id]) ==>
              Potential(order, after) < Potential(order, before)
    decreases |order|
  {
    if order != [] {
      PotentialFalls(order[..|order| - 1], before, after);
      assert forall id :: id in order <==> id in order[..|order| - 1] || id == order[|order| - 1];
    }
  }

  lemma {:induction false} PotentialIsNatural(order: seq<JobId>, jobs: Table)
    requires RowsOk(jobs)
    ensures Potential(order, jobs) >= 0
    decreases |order|
  {
    if order != [] {
      PotentialIsNatural(order[..|order| - 1], jobs);
      var id := order[|order| - 1];
      if id in jobs { assert RowOk(jobs[id]); }
    }
  }

  ghost predicate Accounted(s: State) {
    (forall id :: id in s.order <==> id in s.jobs) &&
    ClaimTransactions(s.log) + Potential(s.order, s.jobs) <= TotalBudget(s.log)
  }

  lemma RanksNeverRise(s: State, step: Step, id: JobId)
    requires Enabled(s, step) && id in s.jobs && RowOk(s.jobs[id])
    ensures var t := Next(s, step);
            id in t.jobs && Rank(t.jobs[id]) <= Rank(s.jobs[id]) &&
            (step.Claim? && step.id == id ==> Rank(t.jobs[id]) < Rank(s.jobs[id]))
  {
  }

  lemma AccountedEnqueue(s: State, step: Step)
    requires Enabled(s, step) && step.Enqueue? && Accounted(s)
    ensures Accounted(Next(s, step))
  {
    hide IsCandidate, Terminal, RowOk;
    var t := Next(s, step);
    if t != s {
      assert t.log[..|t.log| - 1] == s.log;
      assert t.order[..|t.order| - 1] == s.order;
      PotentialFalls(s.order, s.jobs, t.jobs);
    }
  }

  /** Outside `enqueue` the jobs stay the same and only a claim logs a claim transaction. */
  lemma LogGrowth(s: State, step: Step)
    requires Enabled(s, step) && !step.Enqueue?
    ensures var t := Next(s, step);
            t.order == s.order && t.jobs.Keys == s.jobs.Keys && s.log <= t.log && |t.log| <= |s.log| + 1 &&
            (t.log != s.log ==> !t.log[|s.log|].Queued?) &&
            (t.log != s.log && IsClaimTransaction(t.log[|s.log|]) ==> step.Claim? && t.log[|s.log|].id == step.id)
  {
  }

  lemma CountLast(log: seq<Event>, e: Event)
    ensures ClaimTransactions(log + [e]) == ClaimTransactions(log) + (if IsClaimTransaction(e) then 1 else 0)
    ensures !e.Queued? ==> TotalBudget(log + [e]) == TotalBudget(log)
  {
    assert (log + [e])[..|log + [e]| - 1] == log;
  }

  lemma AccountedElsewhere(s: State, step: Step)
    requires Enabled(s, step) && !step.Enqueue? && RowsOk(s.jobs) && Accounted(s)
    ensures Accounted(Next(s, step))
  {
    var order, before, after, log := s.order, s.jobs, Next(s, step).jobs, Next(s, step).log;
    LogGrowth(s, step);
    forall id | id in before
      ensures id in after && Rank(after[id]) <= Rank(before[id]) &&
              (step.Claim? && step.id == id ==> Rank(after[id]) < Rank(before[id]))
    {
      RanksNeverRise(s, step, id);
    }
    PotentialFalls(order, before, after);
    if log != s.log {
      CountLast(s.log, log[|s.log|]);
      assert log == s.log + [log[|s.log|]];
    }
  }

  lemma {:induction false} AccountedRun(s: State, steps: seq<Step>)
    requires Inv(s) && Accounted(s) && Legal(s, steps)
    ensures Accounted(Run(s, steps))
    decreases |steps|
  {
    if steps != [] {
      InvStep(s, steps[0]);
      if steps[0].Enqueue? { AccountedEnqueue(s, steps[0]); } else { AccountedElsewhere(s, steps[0]); }
      AccountedRun(Next(s, steps[0]), steps[1..]);
    }
  }

  /** However often workers crash and poll, the claims that find a row are bounded by the budgets enqueued. */
  lemma ClaimsAreBounded(start: Time, steps: seq<Step>)
    requires Legal(Init(start), steps)
    ensures var log := Run(Init(start), steps).log;
            ClaimTransactions(log) <= TotalBudget(log)
  {
    InvInit(start);
    InvRun(Init(start), steps);
    AccountedRun(Init(start), steps);
    PotentialIsNatural(Run(Init(start), steps).order, Run(Init(start), steps).jobs);
  }
}
