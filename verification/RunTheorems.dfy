/** What holds of analysis runs, whatever happens. */
module RunTheorems {
  import opened Basics
  import opened RunTables
  import opened RunLifecycle

  // --- what no step undoes ---

  /** Runs keep everything but their status, keys stay with their tasks, and Cancelled is final. */
  ghost predicate Grows(s: Store, t: Store) {
    && RunsAlike(s.runs, t.runs)
    && (forall r :: r in s.runs && s.runs[r].status == RunStatus.Cancelled ==> t.runs[r].status == RunStatus.Cancelled)
    && (forall k :: k in s.keys ==> k in t.keys && t.keys[k] == s.keys[k])
  }

  lemma StartGrows(s: Store, id: nat, deadline: int)
    requires Inv(s) && id in s.orders
    ensures Grows(s, StartRun(s, id, deadline).store)
  {
    hide RunsInv, TasksInv, JobsInv, RecsInv, QuietInv, StartError;
    FreshRun(s);
  }

  lemma StatusGrows(s: Store, t: Store, run: nat, status: RunStatus)
    requires run in s.runs && s.runs[run].status != RunStatus.Cancelled
    requires t.runs == s.runs[run := s.runs[run].(status := status)] && t.keys == s.keys
    ensures Grows(s, t)
  {
  }

  lemma SameGrows(s: Store, t: Store)
    requires t.runs == s.runs && t.keys == s.keys
    ensures Grows(s, t)
  {
  }

  lemma CommandGrows(s: Store, step: Step)
    requires Inv(s) && (step.Request? || step.Retry? || step.Cancel? || step.Send?)
    ensures Grows(s, Next(s, step))
  {
    hide Grows, Inv, Enqueued, Checked, TasksCancelled, JobsCancelled, RecsSuperseded, StartRun;
    match step
    case Request(order, version, deadline) =>
      if order in s.orders { StartGrows(s, order, deadline); }
      SameGrows(s, s);
    case Retry(run, deadline) =>
      if run in s.runs && s.runs[run].order in s.orders { StartGrows(s, s.runs[run].order, deadline); }
      SameGrows(s, s);
    case Cancel(run) =>
      if run in s.runs && Cancellable(s.runs[run].status) {
        StatusGrows(s, CancelTables(s, run), run, RunStatus.Cancelled);
      }
      SameGrows(s, s);
    case Send(e) =>
      if KeyOf(e) !in s.keys { SendGrows(s, e); }
      SameGrows(s, s);
  }

  lemma StepGrows(s: Store, step: Step)
    requires Inv(s) && Enabled(s, step)
    ensures Grows(s, Next(s, step))
  {
    hide Grows, Inv, TasksCancelled, RequestAnalysis, RetryRun, CancelRun, Dispatch;
    if step.Request? || step.Retry? || step.Cancel? || step.Send? {
      CommandGrows(s, step);
    } else if step.RunStarts? {
      StatusGrows(s, Next(s, step), step.run, RunStatus.Running);
    } else if step.RunCloses? {
      StatusGrows(s, Next(s, step), step.run, step.outcome);
    } else {
      SameGrows(s, Next(s, step));
    }
  }

  lemma SendGrows(s: Store, e: Envelope)
    requires KeyOf(e) !in s.keys
    ensures Grows(s, WithTask(s, e))
  {
  }

  lemma {:induction false} ExecGrows(s: Store, steps: seq<Step>)
    requires Inv(s) && Exec(s, steps).Some?
    ensures Grows(s, Exec(s, steps).value)
    decreases |steps|
  {
    hide Inv, Enabled, Next;
    if steps != [] {
      var mid := Next(s, steps[0]);
      StepKeeps(s, steps[0]);
      StepGrows(s, steps[0]);
      ExecGrows(mid, steps[1..]);
    }
  }

  // --- runs ---

  /** At most one QUEUED or RUNNING run per order, at most five per factory. */
  lemma ActiveRunsAreFew(orders: map<nat, Order>, steps: seq<Step>)
    requires Exec(Empty(orders), steps).Some?
    ensures var runs := Exec(Empty(orders), steps).value.runs;
            && (forall order :: |ActiveOfOrder(runs, order)| <= 1)
            && (forall factory :: |ActiveInFactory(runs, factory)| <= MAX_ACTIVE_RUNS_PER_FACTORY)
  {
    hide TasksInv, JobsInv, RecsInv, QuietInv, Exec;
    InvFrom(orders);
    ExecKeeps(Empty(orders), steps);
    var runs := Exec(Empty(orders), steps).value.runs;
    forall order ensures |ActiveOfOrder(runs, order)| <= 1 {
      var active := ActiveOfOrder(runs, order);
      if r :| r in active {
        assert active == {r};
      }
    }
  }

  /**
    After a run is cancelled, no sequence of requests, retries, dispatches, cancels and
    environment steps changes its status or gives it an open task or a live recommendation.
   */
  lemma CancelIsFinal(s: Store, run: nat, steps: seq<Step>)
    requires Inv(s) && CancelRun(s, run).result.Success?
    requires Exec(CancelRun(s, run).store, steps).Some?
    ensures var t := Exec(CancelRun(s, run).store, steps).value;
            && run in t.runs && t.runs[run].status == RunStatus.Cancelled
            && (forall task :: task in t.tasks && t.tasks[task].run == run ==> !ActiveTask(t.tasks[task].status))
            && (forall rec :: rec in t.recs && t.recs[rec].run == run ==> !LiveRec(t.recs[rec].status))
  {
    hide Exec, RunsInv, TasksInv, JobsInv, RecsInv, TasksCancelled, JobsCancelled, RecsSuperseded;
    CancelKeeps(s, run);
    ExecKeeps(CancelRun(s, run).store, steps);
    ExecGrows(CancelRun(s, run).store, steps);
  }

  /**
    A cancel touches only its run: every other run keeps its row, its tasks and its
    recommendations, and the only jobs that change are the READY ones of the run's own tasks.
   */
  lemma CancelTouchesOnlyItsRun(s: Store, run: nat)
    requires run in s.runs && CancelRun(s, run).result.Success?
    ensures var t := CancelRun(s, run).store;
            && (forall r :: r in s.runs && r != run ==> t.runs[r] == s.runs[r])
            && (forall x :: x in s.tasks && s.tasks[x].run != run ==> t.tasks[x] == s.tasks[x])
            && (forall r :: r in s.recs && s.recs[r].run != run ==> t.recs[r] == s.recs[r])
            && (forall j :: j in s.jobs ==> if ReadyJobOf(s, run, s.jobs[j])
                                            then t.jobs[j] == s.jobs[j].(status := JobStatus.Cancelled)
                                            else t.jobs[j] == s.jobs[j])
  {
  }

  predicate ReadyJobOf(s: Store, run: nat, job: Job) {
    job.status.Ready? && job.dedupe.TaskJob? && job.dedupe.task in s.tasks && s.tasks[job.dedupe.task].run == run
  }

  // --- tasks ---

  /** The same recipient in the same round of the same run. */
  predicate SamePart(a: Task, b: Task) {
    a.run == b.run && a.key.recipient == b.key.recipient && a.key.round == b.key.round
  }

  /**
    Every task belongs to its run's snapshot, ends by the run's deadline and has exactly one job;
    no two tasks of a run share recipient and round.
   */
  lemma TasksAreInOrder(orders: map<nat, Order>, steps: seq<Step>, t: nat)
    requires Exec(Empty(orders), steps).Some? && t in Exec(Empty(orders), steps).value.tasks
    ensures var s := Exec(Empty(orders), steps).value;
            var task := s.tasks[t];
            && task.run in s.runs && task.key.run == task.run && task.key.snapshot == s.runs[task.run].snapshot
            && task.deadline <= s.runs[task.run].deadline
            && (exists j :: j in s.jobs && s.jobs[j].dedupe == TaskJob(t)
                            && forall i :: i in s.jobs && s.jobs[i].dedupe == TaskJob(t) ==> i == j)
            && (forall u :: u in s.tasks && SamePart(s.tasks[u], task) ==> u == t)
  {
    hide Exec, RunsInv, RecsInv, QuietInv;
    InvFrom(orders);
    ExecKeeps(Empty(orders), steps);
    var s := Exec(Empty(orders), steps).value;
    assert TaskOk(s.runs, s.tasks, t, s.tasks[t]) && TaskIndexed(s.tasks, s.keys, t);
    assert DedupeIndexes(s.jobs, s.dedupes, TaskJob(t));
    var j := s.dedupes[TaskJob(t)];
    forall i | i in s.jobs && s.jobs[i].dedupe == TaskJob(t) ensures i == j { assert JobIndexed(s.jobs, s.dedupes, i); }
    forall u | u in s.tasks && SamePart(s.tasks[u], s.tasks[t]) ensures u == t {
      assert TaskOk(s.runs, s.tasks, u, s.tasks[u]) && TaskIndexed(s.tasks, s.keys, u);
    }
  }

  /** The tasks a task was made from: its parent and the results it refers to. */
  predicate MadeFrom(tasks: map<nat, Task>, t: nat, u: nat) {
    t in tasks && (tasks[t].parent == Some(u) || u in tasks[t].refs)
  }

  predicate Lineage(tasks: map<nat, Task>, path: seq<nat>) {
    forall i: nat :: i + 1 < |path| ==> MadeFrom(tasks, path[i], path[i + 1])
  }

  /** Following parents and references, in any way, stays in the run and never comes back. */
  lemma {:induction false} LineageIsAcyclic(s: Store, path: seq<nat>)
    requires Inv(s) && |path| > 1 && Lineage(s.tasks, path)
    ensures path[0] in s.tasks && path[|path| - 1] in s.tasks
    ensures s.tasks[path[|path| - 1]].run == s.tasks[path[0]].run
    ensures path[|path| - 1] < path[0]
    decreases |path|
  {
    var t, u := path[0], path[1];
    assert MadeFrom(s.tasks, path[0], path[0 + 1]);
    assert TaskOk(s.runs, s.tasks, t, s.tasks[t]);
    assert Earlier(s.tasks, t, s.tasks[t].run, u);
    if |path| > 2 {
      forall i: nat | i + 1 < |path[1..]| ensures MadeFrom(s.tasks, path[1..][i], path[1..][i + 1]) {
        assert MadeFrom(s.tasks, path[i + 1], path[i + 1 + 1]);
      }
      LineageIsAcyclic(s, path[1..]);
    }
  }

  // --- dispatch ---

  /** Sent again, at any later time, an envelope is answered with the task it made and adds nothing. */
  lemma RepeatAddsNothing(s: Store, e: Envelope, steps: seq<Step>)
    requires Inv(s) && Dispatch(s, e).receipt.Created?
    requires Exec(Dispatch(s, e).store, steps).Some?
    ensures var t := Exec(Dispatch(s, e).store, steps).value;
            Dispatch(t, e) == Dispatched(t, Existing(Dispatch(s, e).receipt.task))
  {
    hide Exec, Inv, Enqueued;
    var d := Dispatch(s, e);
    assert d.store == WithTask(s, e);
    MadeTask(s, e);
    DispatchKeeps(s, e);
    ExecGrows(d.store, steps);
  }

  lemma MadeTask(s: Store, e: Envelope)
    ensures var t := WithTask(s, e);
            t.runs == s.runs && KeyOf(e) in t.keys && t.keys[KeyOf(e)] == s.next
  {
  }

  /**
    Concurrent dispatches of one key, all checked before any inserts: whatever commits between the
    first insert and a later one, the later one returns the first one's task and adds nothing.
   */
  lemma RaceMakesOneTask(s: Store, e: Envelope, again: Envelope, steps: seq<Step>)
    requires Inv(s) && Checked(s, e).None? && e.message !in s.messages && KeyOf(again) == KeyOf(e)
    requires Exec(Inserted(s, e).store, steps).Some?
    ensures var t := Exec(Inserted(s, e).store, steps).value;
            Inserted(t, again) == Dispatched(t, Existing(s.next))
  {
    hide Exec, Inv, Enqueued;
    assert Dispatch(s, e) == Dispatched(WithTask(s, e), Created(s.next));
    MadeTask(s, e);
    DispatchKeeps(s, e);
    ExecGrows(WithTask(s, e), steps);
  }

  /**
    The dispatcher does not lock the run. Whenever its checks pass, a cancel that commits between
    them and the insert is not seen: the cancelled run gets an open task.
   */
  lemma UnlockedDispatchMissesCancel(s: Store, e: Envelope)
    requires Inv(s) && Checked(s, e).None? && e.message !in s.messages
    ensures CancelRun(s, e.run).result.Success?
    ensures var t := Inserted(CancelRun(s, e.run).store, e).store;
            && t.runs[e.run].status == RunStatus.Cancelled
            && (exists task :: task in t.tasks && t.tasks[task].run == e.run && ActiveTask(t.tasks[task].status))
            && !Inv(t)
  {
    hide RunsInv, TasksInv, JobsInv, RecsInv, TasksCancelled, JobsCancelled, RecsSuperseded, Enqueued;
    CancelKeeps(s, e.run);
    var c := CancelTables(s, e.run);
    WhatInsertAdds(c, e);
    FreshTask(c);
    var t := WithTask(c, e);
    assert t.tasks[c.next].status.Pending?;
    LoudInsert(t.runs, t.tasks, t.recs, c.next);
  }
}
