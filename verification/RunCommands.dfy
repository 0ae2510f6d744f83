/** When each command on runs goes through, what it is answered otherwise, and all that it changes. */
module RunCommands {
  import opened Basics
  import opened RunTables
  import opened RunLifecycle

  predicate InProgress(run: Run) {
    run.status.Queued? || run.status == RunStatus.Running
  }

  /** The order may be analysed now: it is not blocked, nothing runs for it, and four at most in its factory. */
  predicate Startable(s: Store, order: nat)
    requires order in s.orders
  {
    && !s.orders[order].blocked
    && (forall r :: r in s.runs && s.runs[r].order == order ==> !InProgress(s.runs[r]))
    && |set r | r in s.runs && s.runs[r].factory == s.orders[order].factory && InProgress(s.runs[r])| < 5
  }

  function StartRefusal(s: Store, order: nat): Error
    requires order in s.orders
  {
    if s.orders[order].blocked then Error(409, "INVALID_TRANSITION")
    else if exists r :: r in s.runs && s.runs[r].order == order && InProgress(s.runs[r]) then Error(409, "CONFLICT")
    else Error(429, "RATE_LIMITED")
  }

  /** One more run, queued with a snapshot of its own, and a READY job to start it; nothing else changes. */
  ghost predicate OnlyStarts(s: Store, t: Store, run: nat, order: nat, deadline: int)
    requires order in s.orders
  {
    && run !in s.runs && run in t.runs
    && t.runs == s.runs[run := Run(order, s.orders[order].organization, s.orders[order].factory, Queued,
                                   t.runs[run].snapshot, deadline)]
    && (forall r :: r in s.runs ==> s.runs[r].snapshot != t.runs[run].snapshot)
    && StartJob(run) in t.dedupes && t.dedupes[StartJob(run)] !in s.jobs
    && t.dedupes == s.dedupes[StartJob(run) := t.dedupes[StartJob(run)]]
    && t.jobs == s.jobs[t.dedupes[StartJob(run)] := Job(StartJob(run), Ready)]
    && (t.orders, t.tasks, t.recs, t.keys, t.messages) == (s.orders, s.tasks, s.recs, s.keys, s.messages)
  }

  lemma ErrorIsRefusal(s: Store, order: nat)
    requires order in s.orders
    ensures StartError(s, s.orders[order], order) ==
            if Startable(s, order) then None else Some(StartRefusal(s, order))
  {
    var active := ActiveOfOrder(s.runs, order);
    assert ActiveInFactory(s.runs, s.orders[order].factory) ==
           set r | r in s.runs && s.runs[r].factory == s.orders[order].factory && InProgress(s.runs[r]);
    if active == {} {
      forall r | r in s.runs && s.runs[r].order == order ensures !InProgress(s.runs[r]) { assert r !in active; }
    } else {
      var r :| r in active;
      assert InProgress(s.runs[r]);
    }
  }

  lemma StartedIsOnly(s: Store, order: nat, deadline: int)
    requires Inv(s) && order in s.orders
    ensures OnlyStarts(s, Started(s, order, s.orders[order], deadline), s.next, order, deadline)
  {
    assert forall j :: j in s.jobs ==> j < s.next;
    hide TasksInv, RecsInv, QuietInv, OneActive, ActiveInFactory, JobIndexed, DedupeIndexes;
  }

  /**
    A request goes through exactly for a known order, in the version it was made for, that may be
    analysed now. Then it starts the one run it returns; otherwise it changes nothing.
   */
  lemma RequestStartsExactly(s: Store, order: nat, version: nat, deadline: int)
    requires Inv(s)
    ensures var a := RequestAnalysis(s, order, version, deadline);
            if order in s.orders && s.orders[order].version == version && Startable(s, order) then
              a.result.Success? && OnlyStarts(s, a.store, a.result.value, order, deadline)
            else
              a.store == s && a.result == Failure(
                if order !in s.orders then Error(404, "NOT_FOUND")
                else if s.orders[order].version != version then Error(409, "STALE_INPUT")
                else StartRefusal(s, order))
  {
    hide Inv, Startable, StartError, Started, StartRefusal, OnlyStarts;
    if order in s.orders {
      ErrorIsRefusal(s, order);
      StartedIsOnly(s, order, deadline);
    }
  }

  /** A retry goes through exactly for a failed, degraded or cancelled run whose order may be analysed now. */
  lemma RetryStartsExactly(s: Store, run: nat, deadline: int)
    requires Inv(s)
    ensures var a := RetryRun(s, run, deadline);
            if run !in s.runs || s.runs[run].order !in s.orders then
              a == Answer(s, Failure(Error(404, "NOT_FOUND")))
            else
              var order, status := s.runs[run].order, s.runs[run].status;
              if status != RunStatus.Failed && status != RunStatus.Degraded && status != RunStatus.Cancelled then
                a == Answer(s, Failure(Error(409, "INVALID_TRANSITION")))
              else if Startable(s, order) then
                a.result.Success? && OnlyStarts(s, a.store, a.result.value, order, deadline)
              else a == Answer(s, Failure(StartRefusal(s, order)))
  {
    hide Inv, Startable, StartError, Started, StartRefusal, OnlyStarts;
    if run in s.runs && s.runs[run].order in s.orders {
      ErrorIsRefusal(s, s.runs[run].order);
      StartedIsOnly(s, s.runs[run].order, deadline);
    }
  }

  predicate OpenTaskOf(run: nat, task: Task) {
    task.run == run && task.status in {TaskStatus.Pending, TaskStatus.Running}
  }

  predicate OpenRecOf(run: nat, rec: Rec) {
    rec.run == run && rec.status in {RecStatus.Draft, RecStatus.Proposed, RecStatus.Approved}
  }

  /**
    A cancel goes through exactly for a run that is queued, running or awaiting review. Then its
    pending and running tasks are cancelled and its draft, proposed and approved recommendations
    superseded; a refused one changes nothing.
   */
  lemma CancelsExactly(s: Store, run: nat)
    ensures var a := CancelRun(s, run);
            if run !in s.runs then a == Answer(s, Failure(Error(404, "NOT_FOUND")))
            else if s.runs[run].status !in {RunStatus.Queued, RunStatus.Running, RunStatus.AwaitingReview} then
              a == Answer(s, Failure(Error(409, "INVALID_TRANSITION")))
            else
              && a.result == Success(run)
              && a.store.runs == s.runs[run := s.runs[run].(status := RunStatus.Cancelled)]
              && a.store.tasks.Keys == s.tasks.Keys && a.store.recs.Keys == s.recs.Keys
              && (forall t :: t in s.tasks ==>
                    a.store.tasks[t] == if OpenTaskOf(run, s.tasks[t]) then s.tasks[t].(status := TaskStatus.Cancelled)
                                        else s.tasks[t])
              && (forall r :: r in s.recs ==>
                    a.store.recs[r] == if OpenRecOf(run, s.recs[r]) then s.recs[r].(status := Superseded)
                                       else s.recs[r])
              && (a.store.orders, a.store.keys, a.store.messages, a.store.dedupes, a.store.next) ==
                 (s.orders, s.keys, s.messages, s.dedupes, s.next)
  {
    hide JobsCancelled;
  }

  /** The recipients and what they may be asked. */
  predicate MayBeAsked(recipient: Recipient, taskType: string) {
    (recipient.Rm? && (taskType == "assess_material_readiness" || taskType == "validate_plan_materials"))
    || (recipient.Ie? && taskType == "assess_line_capability")
    || (recipient.Planning? && (taskType == "propose_allocation" || taskType == "revise_allocation"))
    || (recipient.Quality? && taskType == "assess_quality_status")
  }

  /** The envelope is about its run, as the run is. */
  predicate AboutItsRun(s: Store, e: Envelope) {
    && e.run in s.runs
    && e.organization == s.runs[e.run].organization && e.factory == s.runs[e.run].factory
    && e.order == s.runs[e.run].order && e.snapshot == s.runs[e.run].snapshot
    && e.key == Some(TaskKey(e.run, e.recipient, e.snapshot, e.round))
  }

  ghost predicate RefersToItsRun(s: Store, e: Envelope) {
    forall t :: t in e.refs || e.parent == Some(t) ==> t in s.tasks && s.tasks[t].run == e.run
  }

  ghost predicate PartTaken(s: Store, key: TaskKey) {
    exists t :: t in s.tasks && s.tasks[t].key == key
  }

  /** One more pending task, with a READY job to execute it; nothing else changes. */
  ghost predicate OnlyAdds(s: Store, t: Store, task: nat, e: Envelope) {
    var key := TaskKey(e.run, e.recipient, e.snapshot, e.round);
    && task !in s.tasks && t.tasks == s.tasks[task := Task(e.run, key, e.parent, e.refs, Pending, e.deadline)]
    && TaskJob(task) in t.dedupes && t.dedupes[TaskJob(task)] !in s.jobs
    && t.dedupes == s.dedupes[TaskJob(task) := t.dedupes[TaskJob(task)]]
    && t.jobs == s.jobs[t.dedupes[TaskJob(task)] := Job(TaskJob(task), Ready)]
    && t.keys == s.keys[key := task] && t.messages == s.messages + {e.message}
    && (t.orders, t.runs, t.recs) == (s.orders, s.runs, s.recs)
  }

  lemma WithTaskOnlyAdds(s: Store, e: Envelope)
    requires Inv(s)
    ensures OnlyAdds(s, WithTask(s, e), s.next, e)
  {
    assert s.next !in s.tasks by { FreshTask(s); }
    assert forall j :: j in s.jobs ==> j < s.next;
    hide RunsInv, TasksInv, RecsInv, QuietInv, JobIndexed, DedupeIndexes;
  }

  /**
    An envelope makes a task exactly when it is about its run, its part has no task yet, the run is
    in progress, the recipient may be asked that, the deadline is within the run's, everything
    referred to is a task of the run, and its message id is new.
   */
  lemma DispatchAddsExactly(s: Store, e: Envelope)
    requires Inv(s)
    ensures var d, key := Dispatch(s, e), TaskKey(e.run, e.recipient, e.snapshot, e.round);
            var invalid := Dispatched(s, Denied(Error(422, "VALIDATION_ERROR")));
            if !AboutItsRun(s, e) then d == invalid
            else if PartTaken(s, key) then
              d.store == s && d.receipt.Existing? && d.receipt.task in s.tasks && s.tasks[d.receipt.task].key == key
            else if !InProgress(s.runs[e.run]) then d == Dispatched(s, Denied(Error(409, "CONFLICT")))
            else if && MayBeAsked(e.recipient, e.taskType) && e.deadline <= s.runs[e.run].deadline
                    && RefersToItsRun(s, e)
            then
              if e.message in s.messages then d == Dispatched(s, Denied(Error(409, "CONFLICT")))
              else d.receipt.Created? && OnlyAdds(s, d.store, d.receipt.task, e)
            else d == invalid
  {
    KeysAreTasks(s, KeyOf(e));
    WithTaskOnlyAdds(s, e);
    RefsAreReferenced(s, e);
    AskedIsAllowed(e.recipient, e.taskType);
    hide Inv, WithTask, OnlyAdds, AllOfRun, AllowedTaskTypes, MayBeAsked, Referenced, RefersToItsRun, PartTaken;
  }

  lemma AskedIsAllowed(recipient: Recipient, taskType: string)
    ensures taskType in AllowedTaskTypes(recipient) <==> MayBeAsked(recipient, taskType)
  {
  }

  lemma KeysAreTasks(s: Store, key: TaskKey)
    requires Inv(s)
    ensures key in s.keys <==> PartTaken(s, key)
    ensures key in s.keys ==> s.keys[key] in s.tasks && s.tasks[s.keys[key]].key == key
  {
    hide RunsInv, JobsInv, RecsInv, QuietInv, OwnersInv;
    if key in s.keys { assert KeyIndexes(s.tasks, s.keys, key); }
    if t :| t in s.tasks && s.tasks[t].key == key { assert TaskIndexed(s.tasks, s.keys, t); }
  }

  lemma RefsAreReferenced(s: Store, e: Envelope)
    ensures AllOfRun(s, Referenced(e), e.run) <==> RefersToItsRun(s, e)
  {
    assert forall t :: t in Referenced(e) <==> t in e.refs || e.parent == Some(t);
  }

  // --- every run can go on ---

  /** In every state reached each run has exactly one job to start it. */
  lemma RunsHaveStartJobs(orders: map<nat, Order>, steps: seq<Step>, run: nat)
    requires Exec(Empty(orders), steps).Some? && run in Exec(Empty(orders), steps).value.runs
    ensures var s := Exec(Empty(orders), steps).value;
            exists j :: j in s.jobs && s.jobs[j].dedupe == StartJob(run)
                        && forall i :: i in s.jobs && s.jobs[i].dedupe == StartJob(run) ==> i == j
  {
    hide Exec, RunsInv, TasksInv, RecsInv, QuietInv;
    InvFrom(orders);
    ExecKeeps(Empty(orders), steps);
    var s := Exec(Empty(orders), steps).value;
    assert StartJob(run) in s.dedupes;
    assert DedupeIndexes(s.jobs, s.dedupes, StartJob(run));
    forall i | i in s.jobs && s.jobs[i].dedupe == StartJob(run) ensures i == s.dedupes[StartJob(run)] {
      assert JobIndexed(s.jobs, s.dedupes, i);
    }
  }
}
