/**
  Every run of commands on analysis runs, in any order and mixed with what the orchestrator, the
  executor, the approvals service and the queue may do in between.
 */
module RunLifecycle {
  import opened Basics
  import opened RunTables

  datatype Step =
    | Request(order: nat, version: nat, deadline: int)
    | Retry(run: nat, deadline: int)
    | Cancel(run: nat)
    | Send(envelope: Envelope)
    // the environment
    | OrderChanges(order: nat, version: nat, blocked: bool)
    | RunStarts(run: nat)
    | RunCloses(run: nat, outcome: RunStatus, recommends: bool)   // cancels what is open
    | TaskMoves(task: nat, moved: TaskStatus)
    | RecMoves(rec: nat, decided: RecStatus)
    | JobMoves(job: nat, became: JobStatus)

  /**
    The environment's part: a run leaves the active statuses once and for all and only a locked,
    active run is closed or given a recommendation; a task that is no longer active, and a
    recommendation that is no longer live, stay as they are.
   */
  predicate Enabled(s: Store, step: Step) {
    match step
    case OrderChanges(order, _, _) => order in s.orders
    case RunStarts(run) => run in s.runs && s.runs[run].status.Queued?
    case RunCloses(run, status, _) =>
      run in s.runs && Active(s.runs[run].status) && !Active(status) && status != RunStatus.Cancelled
    case TaskMoves(task, status) => task in s.tasks && ActiveTask(s.tasks[task].status)
    case RecMoves(rec, status) => rec in s.recs && LiveRec(s.recs[rec].status)
    case JobMoves(job, _) => job in s.jobs && (s.jobs[job].status.Ready? || s.jobs[job].status.Leased?)
    case _ => true
  }

  function WithStatus(s: Store, run: nat, status: RunStatus): Store
    requires run in s.runs
  {
    s.(runs := s.runs[run := s.runs[run].(status := status)])
  }

  /** The other live recommendations of the order are superseded by the new one. */
  function Recommended(s: Store, run: nat): Store
    requires run in s.runs
  {
    var kept := map r | r in s.recs ::
      if s.recs[r].run in s.runs && s.runs[s.recs[r].run].order == s.runs[run].order && LiveRec(s.recs[r].status)
      then s.recs[r].(status := Superseded) else s.recs[r];
    s.(recs := kept[s.next := Rec(run, Proposed)], next := s.next + 1)
  }

  function Next(s: Store, step: Step): Store
    requires Enabled(s, step)
  {
    match step
    case Request(order, version, deadline) => RequestAnalysis(s, order, version, deadline).store
    case Retry(run, deadline) => RetryRun(s, run, deadline).store
    case Cancel(run) => CancelRun(s, run).store
    case Send(e) => Dispatch(s, e).store
    case OrderChanges(order, version, blocked) =>
      s.(orders := s.orders[order := s.orders[order].(version := version, blocked := blocked)])
    case RunStarts(run) => WithStatus(s, run, RunStatus.Running)
    case RunCloses(run, status, recommends) =>
      var closed := WithStatus(s, run, status).(tasks := TasksCancelled(s.tasks, run));
      if recommends then Recommended(closed, run) else closed
    case TaskMoves(task, status) => s.(tasks := s.tasks[task := s.tasks[task].(status := status)])
    case RecMoves(rec, status) => s.(recs := s.recs[rec := s.recs[rec].(status := status)])
    case JobMoves(job, status) => s.(jobs := s.jobs[job := s.jobs[job].(status := status)])
  }

  function Exec(s: Store, steps: seq<Step>): Option<Store>
    decreases |steps|
  {
    if steps == [] then Some(s)
    else if Enabled(s, steps[0]) then Exec(Next(s, steps[0]), steps[1..])
    else None
  }

  function Empty(orders: map<nat, Order>): Store {
    Store(orders, map[], map[], map[], map[], map[], {}, map[], 0)
  }

  // --- the invariant, table by table ---

  ghost predicate OneActive(runs: map<nat, Run>) {
    forall i, j :: i in runs && j in runs && i != j && Active(runs[i].status) && Active(runs[j].status) ==>
      runs[i].order != runs[j].order
  }

  ghost predicate RunsInv(runs: map<nat, Run>, next: nat) {
    && (forall r :: r in runs ==> r < next && runs[r].snapshot < next)
    && OneActive(runs)
    && (forall f :: |ActiveInFactory(runs, f)| <= MAX_ACTIVE_RUNS_PER_FACTORY)
  }

  predicate TaskOk(runs: map<nat, Run>, tasks: map<nat, Task>, t: nat, task: Task) {
    && task.run in runs && task.key.run == task.run && task.key.snapshot == runs[task.run].snapshot
    && task.deadline <= runs[task.run].deadline
    && (task.parent.Some? ==> Earlier(tasks, t, task.run, task.parent.value))
    && forall ref :: ref in task.refs ==> Earlier(tasks, t, task.run, ref)
  }

  /** A task of the same run, created before `t`. */
  predicate Earlier(tasks: map<nat, Task>, t: nat, run: nat, ref: nat) {
    ref < t && ref in tasks && tasks[ref].run == run
  }

  predicate TaskIndexed(tasks: map<nat, Task>, keys: map<TaskKey, nat>, t: nat) {
    t in tasks && tasks[t].key in keys && keys[tasks[t].key] == t
  }

  predicate KeyIndexes(tasks: map<nat, Task>, keys: map<TaskKey, nat>, k: TaskKey) {
    k in keys && keys[k] in tasks && tasks[keys[k]].key == k
  }

  ghost predicate TasksInv(runs: map<nat, Run>, tasks: map<nat, Task>, keys: map<TaskKey, nat>, next: nat) {
    && (forall t :: t in tasks ==> t < next && TaskOk(runs, tasks, t, tasks[t]))
    && (forall t :: t in tasks ==> TaskIndexed(tasks, keys, t))
    && (forall k :: k in keys ==> KeyIndexes(tasks, keys, k))
  }

  predicate JobIndexed(jobs: map<nat, Job>, dedupes: map<Dedupe, nat>, j: nat) {
    j in jobs && jobs[j].dedupe in dedupes && dedupes[jobs[j].dedupe] == j
  }

  predicate DedupeIndexes(jobs: map<nat, Job>, dedupes: map<Dedupe, nat>, d: Dedupe) {
    d in dedupes && dedupes[d] in jobs && jobs[dedupes[d]].dedupe == d
  }

  ghost predicate JobsInv(tasks: map<nat, Task>, jobs: map<nat, Job>, dedupes: map<Dedupe, nat>, next: nat) {
    && (forall j :: j in jobs ==> j < next && JobIndexed(jobs, dedupes, j))
    && (forall d :: d in dedupes ==> DedupeIndexes(jobs, dedupes, d))
    && (forall t :: t in tasks ==> TaskJob(t) in dedupes)
  }

  ghost predicate RecsInv(runs: map<nat, Run>, recs: map<nat, Rec>, next: nat) {
    forall r :: r in recs ==> r < next && recs[r].run in runs
  }

  /** Nothing of a cancelled run is open any more. */
  ghost predicate QuietInv(runs: map<nat, Run>, tasks: map<nat, Task>, recs: map<nat, Rec>) {
    && (forall t :: t in tasks && tasks[t].run in runs && runs[tasks[t].run].status == RunStatus.Cancelled ==>
          !ActiveTask(tasks[t].status))
    && (forall r :: r in recs && recs[r].run in runs && runs[recs[r].run].status == RunStatus.Cancelled ==>
          !LiveRec(recs[r].status))
  }

  /** Every run has a start job, and no job is for a run or task there is not. */
  ghost predicate OwnersInv(runs: map<nat, Run>, tasks: map<nat, Task>, dedupes: map<Dedupe, nat>) {
    && (forall r :: r in runs <==> StartJob(r) in dedupes)
    && (forall t :: TaskJob(t) in dedupes ==> t in tasks)
  }

  ghost predicate Inv(s: Store) {
    TablesInv(s) && OwnersInv(s.runs, s.tasks, s.dedupes)
  }

  ghost predicate TablesInv(s: Store) {
    && RunsInv(s.runs, s.next) && TasksInv(s.runs, s.tasks, s.keys, s.next)
    && JobsInv(s.tasks, s.jobs, s.dedupes, s.next) && RecsInv(s.runs, s.recs, s.next)
    && QuietInv(s.runs, s.tasks, s.recs)
  }

  // --- what leaves the tables alike ---

  predicate RunsAlike(a: map<nat, Run>, b: map<nat, Run>) {
    forall r :: r in a ==> r in b && b[r] == a[r].(status := b[r].status)
  }

  predicate TasksAlike(a: map<nat, Task>, b: map<nat, Task>) {
    a.Keys == b.Keys && forall t :: t in a ==> b[t] == a[t].(status := b[t].status)
  }

  lemma TasksKept(runs: map<nat, Run>, tasks: map<nat, Task>, keys: map<TaskKey, nat>, next: nat,
                  runs2: map<nat, Run>, tasks2: map<nat, Task>, next2: nat)
    requires TasksInv(runs, tasks, keys, next) && RunsAlike(runs, runs2) && TasksAlike(tasks, tasks2) && next <= next2
    ensures TasksInv(runs2, tasks2, keys, next2)
  {
    forall t | t in tasks2 ensures TaskOk(runs2, tasks2, t, tasks2[t]) {
      assert TaskOk(runs, tasks, t, tasks[t]);
    }
  }

  predicate JobsAlike(a: map<nat, Job>, b: map<nat, Job>) {
    a.Keys == b.Keys && forall j :: j in a ==> b[j].dedupe == a[j].dedupe
  }

  lemma JobsKept(tasks: map<nat, Task>, jobs: map<nat, Job>, dedupes: map<Dedupe, nat>, next: nat,
                 tasks2: map<nat, Task>, jobs2: map<nat, Job>, next2: nat)
    requires JobsInv(tasks, jobs, dedupes, next) && tasks2.Keys <= tasks.Keys && next <= next2 && JobsAlike(jobs, jobs2)
    ensures JobsInv(tasks2, jobs2, dedupes, next2)
  {
    forall j | j in jobs2 ensures JobIndexed(jobs2, dedupes, j) { assert JobIndexed(jobs, dedupes, j); }
    forall d | d in dedupes ensures DedupeIndexes(jobs2, dedupes, d) { assert DedupeIndexes(jobs, dedupes, d); }
  }

  /** One more job, for `dedupe`. */
  lemma JobAdded(tasks: map<nat, Task>, jobs: map<nat, Job>, dedupes: map<Dedupe, nat>, next: nat,
                 tasks2: map<nat, Task>, dedupe: Dedupe)
    requires JobsInv(tasks, jobs, dedupes, next) && dedupe !in dedupes
    requires forall t :: t in tasks2 ==> t in tasks || dedupe == TaskJob(t)
    ensures JobsInv(tasks2, jobs[next := Job(dedupe, Ready)], dedupes[dedupe := next], next + 1)
  {
    var jobs2, dedupes2 := jobs[next := Job(dedupe, Ready)], dedupes[dedupe := next];
    forall j | j in jobs2 ensures j < next + 1 && JobIndexed(jobs2, dedupes2, j) {
      if j != next { assert JobIndexed(jobs, dedupes, j); }
    }
    forall d | d in dedupes2 ensures DedupeIndexes(jobs2, dedupes2, d) {
      if d != dedupe { assert DedupeIndexes(jobs, dedupes, d); }
    }
  }

  lemma EnqueueKeeps(s: Store, tasks: map<nat, Task>, dedupe: Dedupe)
    requires JobsInv(tasks, s.jobs, s.dedupes, s.next)
    requires forall t :: t in s.tasks ==> t in tasks || dedupe == TaskJob(t)
    ensures var t := Enqueued(s, dedupe); JobsInv(s.tasks, t.jobs, t.dedupes, t.next)
  {
    if dedupe !in s.dedupes { JobAdded(tasks, s.jobs, s.dedupes, s.next, s.tasks, dedupe); }
  }

  lemma RecsKept(runs: map<nat, Run>, recs: map<nat, Rec>, next: nat,
                 runs2: map<nat, Run>, recs2: map<nat, Rec>, next2: nat)
    requires RecsInv(runs, recs, next) && RunsAlike(runs, runs2) && next <= next2
    requires forall r :: r in recs2 ==>
        (r in recs && recs2[r].run == recs[r].run) || (r < next2 && recs2[r].run in runs2)
    ensures RecsInv(runs2, recs2, next2)
  {
  }

  predicate NoLouderTask(tasks: map<nat, Task>, t: nat, task: Task) {
    t in tasks && task.run == tasks[t].run && (ActiveTask(task.status) ==> ActiveTask(tasks[t].status))
  }

  predicate NoLouderRec(recs: map<nat, Rec>, r: nat, rec: Rec) {
    r in recs && rec.run == recs[r].run && (LiveRec(rec.status) ==> LiveRec(recs[r].status))
  }

  predicate Uncancelled(runs: map<nat, Run>, run: nat) {
    run in runs && runs[run].status != RunStatus.Cancelled
  }

  /** Runs are not cancelled, and what is not of an uncancelled run does not come to life. */
  lemma QuietKept(runs: map<nat, Run>, tasks: map<nat, Task>, recs: map<nat, Rec>,
                  runs2: map<nat, Run>, tasks2: map<nat, Task>, recs2: map<nat, Rec>)
    requires QuietInv(runs, tasks, recs)
    requires forall r :: r in runs2 ==> Uncancelled(runs2, r) || (r in runs && !Uncancelled(runs, r))
    requires forall t :: t in tasks2 ==> NoLouderTask(tasks, t, tasks2[t]) || Uncancelled(runs2, tasks2[t].run)
    requires forall r :: r in recs2 ==> NoLouderRec(recs, r, recs2[r]) || Uncancelled(runs2, recs2[r].run)
    ensures QuietInv(runs2, tasks2, recs2)
  {
  }

  lemma QuietCancel(runs: map<nat, Run>, tasks: map<nat, Task>, recs: map<nat, Rec>, run: nat)
    requires QuietInv(runs, tasks, recs) && run in runs
    ensures var after := runs[run := runs[run].(status := RunStatus.Cancelled)];
            QuietInv(after, TasksCancelled(tasks, run), RecsSuperseded(recs, run))
  {
  }

  lemma BulkUpdatesAreAlike(tasks: map<nat, Task>, jobs: map<nat, Job>, ids: set<nat>, run: nat)
    ensures TasksAlike(tasks, TasksCancelled(tasks, run)) && JobsAlike(jobs, JobsCancelled(jobs, ids))
  {
  }

  /** A run may leave the active statuses, or stay in them. */
  lemma StatusKeepsRuns(runs: map<nat, Run>, next: nat, run: nat, status: RunStatus)
    requires RunsInv(runs, next) && run in runs && (Active(status) ==> Active(runs[run].status))
    ensures RunsInv(runs[run := runs[run].(status := status)], next)
  {
    var runs2 := runs[run := runs[run].(status := status)];
    forall f ensures |ActiveInFactory(runs2, f)| <= MAX_ACTIVE_RUNS_PER_FACTORY {
      SubsetSize(ActiveInFactory(runs2, f), ActiveInFactory(runs, f));
    }
  }

  lemma {:induction false} SubsetSize(a: set<nat>, b: set<nat>)
    requires a <= b
    ensures |a| <= |b|
  {
    if x :| x in a { SubsetSize(a - {x}, b - {x}); }
  }

  function NewRun(id: nat, order: Order, next: nat, deadline: int): Run {
    Run(id, order.organization, order.factory, Queued, next + 1, deadline)
  }

  lemma StartKeepsCap(runs: map<nat, Run>, next: nat, run: Run, f: nat)
    requires next !in runs && |ActiveInFactory(runs, f)| <= MAX_ACTIVE_RUNS_PER_FACTORY
    requires f == run.factory ==> |ActiveInFactory(runs, f)| < MAX_ACTIVE_RUNS_PER_FACTORY
    ensures |ActiveInFactory(runs[next := run], f)| <= MAX_ACTIVE_RUNS_PER_FACTORY
  {
    var before, after := ActiveInFactory(runs, f), ActiveInFactory(runs[next := run], f);
    if f == run.factory {
      SubsetSize(after, before + {next});
    } else {
      assert after == before;
    }
  }

  lemma StartKeepsOneActive(runs: map<nat, Run>, next: nat, run: Run)
    requires OneActive(runs) && next !in runs && ActiveOfOrder(runs, run.order) == {}
    ensures OneActive(runs[next := run])
  {
    forall r | r in runs && Active(runs[r].status) ensures runs[r].order != run.order {
      assert r !in ActiveOfOrder(runs, run.order);
    }
  }

  lemma StartKeepsRuns(s: Store, id: nat, order: Order, deadline: int)
    requires RunsInv(s.runs, s.next) && StartError(s, order, id).None?
    ensures RunsInv(s.runs[s.next := NewRun(id, order, s.next, deadline)], s.next + 2)
  {
    hide ActiveInFactory, ActiveOfOrder, OneActive;
    var run := NewRun(id, order, s.next, deadline);
    var runs := s.runs[s.next := run];
    StartKeepsOneActive(s.runs, s.next, run);
    forall f ensures |ActiveInFactory(runs, f)| <= MAX_ACTIVE_RUNS_PER_FACTORY {
      StartKeepsCap(s.runs, s.next, run, f);
    }
  }

  // --- every step keeps the invariant ---

  /** Adding a run that is not cancelled, and then its start job. */
  lemma NewRunKeeps(s: Store, run: Run, next: nat)
    requires TablesInv(s) && s.next !in s.runs && run.status != RunStatus.Cancelled && s.next <= next
    requires RunsInv(s.runs[s.next := run], next)
    ensures TablesInv(s.(runs := s.runs[s.next := run], next := next))
  {
    hide RunsInv, TasksInv, JobsInv, RecsInv, QuietInv;
    var runs := s.runs[s.next := run];
    TasksKept(s.runs, s.tasks, s.keys, s.next, runs, s.tasks, next);
    JobsKept(s.tasks, s.jobs, s.dedupes, s.next, s.tasks, s.jobs, next);
    RecsKept(s.runs, s.recs, s.next, runs, s.recs, next);
    QuietKept(s.runs, s.tasks, s.recs, runs, s.tasks, s.recs);
  }

  lemma NewJobKeeps(s: Store, dedupe: Dedupe)
    requires TablesInv(s)
    ensures TablesInv(Enqueued(s, dedupe))
  {
    hide RunsInv, TasksInv, JobsInv, RecsInv, QuietInv;
    var t := Enqueued(s, dedupe);
    EnqueueKeeps(s, s.tasks, dedupe);
    MoreIds(s.runs, s.tasks, s.keys, s.next, t.next);
    RecsKept(s.runs, s.recs, s.next, s.runs, s.recs, t.next);
  }

  lemma StartKeeps(s: Store, id: nat, deadline: int)
    requires Inv(s) && id in s.orders
    ensures Inv(StartRun(s, id, deadline).store)
  {
    hide RunsInv, TasksInv, JobsInv, RecsInv, QuietInv, StartError, Enqueued;
    if StartError(s, s.orders[id], id).None? {
      var run := NewRun(id, s.orders[id], s.next, deadline);
      FreshRun(s);
      StartKeepsRuns(s, id, s.orders[id], deadline);
      NewRunKeeps(s, run, s.next + 2);
      NewJobKeeps(s.(runs := s.runs[s.next := run], next := s.next + 2), StartJob(s.next));
      NewRunIsStarted(s, id, deadline);
    }
  }

  lemma NewRunIsStarted(s: Store, id: nat, deadline: int)
    requires OwnersInv(s.runs, s.tasks, s.dedupes) && id in s.orders
    ensures var t := Started(s, id, s.orders[id], deadline);
            OwnersInv(t.runs, t.tasks, t.dedupes)
  {
  }

  lemma FreshRun(s: Store)
    requires RunsInv(s.runs, s.next)
    ensures s.next !in s.runs
  {
  }

  lemma MoreIds(runs: map<nat, Run>, tasks: map<nat, Task>, keys: map<TaskKey, nat>, next: nat, next2: nat)
    requires RunsInv(runs, next) && TasksInv(runs, tasks, keys, next) && next <= next2
    ensures RunsInv(runs, next2) && TasksInv(runs, tasks, keys, next2)
  {
  }

  lemma CancelKeeps(s: Store, run: nat)
    requires Inv(s) && run in s.runs
    ensures Inv(CancelTables(s, run))
  {
    hide RunsInv, TasksInv, JobsInv, RecsInv, QuietInv, TasksCancelled, JobsCancelled, RecsSuperseded;
    var runs := s.runs[run := s.runs[run].(status := RunStatus.Cancelled)];
    var tasks := TasksCancelled(s.tasks, run);
    var jobs := JobsCancelled(s.jobs, TasksOf(s.tasks, run));
    StatusKeepsRuns(s.runs, s.next, run, RunStatus.Cancelled);
    BulkUpdatesAreAlike(s.tasks, s.jobs, TasksOf(s.tasks, run), run);
    TasksKept(s.runs, s.tasks, s.keys, s.next, runs, tasks, s.next);
    JobsKept(s.tasks, s.jobs, s.dedupes, s.next, tasks, jobs, s.next);
    RecsKept(s.runs, s.recs, s.next, runs, RecsSuperseded(s.recs, run), s.next) by { SupersedeFacts(s.recs, run); }
    QuietCancel(s.runs, s.tasks, s.recs, run);
  }

  lemma SupersedeFacts(recs: map<nat, Rec>, run: nat)
    ensures forall r :: r in RecsSuperseded(recs, run) ==> r in recs && RecsSuperseded(recs, run)[r].run == recs[r].run
  {
  }

  lemma CloseKeeps(s: Store, run: nat, status: RunStatus)
    requires Inv(s) && run in s.runs && Active(s.runs[run].status) && !Active(status) && status != RunStatus.Cancelled
    ensures Inv(WithStatus(s, run, status).(tasks := TasksCancelled(s.tasks, run)))
  {
    hide RunsInv, TasksInv, JobsInv, RecsInv, QuietInv, TasksCancelled;
    var runs, tasks := s.runs[run := s.runs[run].(status := status)], TasksCancelled(s.tasks, run);
    StatusKeepsRuns(s.runs, s.next, run, status);
    BulkUpdatesAreAlike(s.tasks, s.jobs, {}, run);
    TasksKept(s.runs, s.tasks, s.keys, s.next, runs, tasks, s.next);
    JobsKept(s.tasks, s.jobs, s.dedupes, s.next, tasks, s.jobs, s.next);
    RecsKept(s.runs, s.recs, s.next, runs, s.recs, s.next);
    CancelledTasksAreQuieter(s.tasks, run);
    QuietKept(s.runs, s.tasks, s.recs, runs, tasks, s.recs);
  }

  lemma CancelledTasksAreQuieter(tasks: map<nat, Task>, run: nat)
    ensures var after := TasksCancelled(tasks, run);
            forall t :: t in after ==> NoLouderTask(tasks, t, after[t])
  {
  }

  lemma RecommendKeeps(s: Store, run: nat)
    requires Inv(s) && run in s.runs && s.runs[run].status != RunStatus.Cancelled
    ensures Inv(Recommended(s, run))
  {
    hide RunsInv, TasksInv, JobsInv, RecsInv, QuietInv;
    var t := Recommended(s, run);
    MoreIds(s.runs, s.tasks, s.keys, s.next, t.next);
    JobsKept(s.tasks, s.jobs, s.dedupes, s.next, s.tasks, s.jobs, t.next);
    RecsKept(s.runs, s.recs, s.next, s.runs, t.recs, t.next);
    QuietKept(s.runs, s.tasks, s.recs, s.runs, s.tasks, t.recs);
  }

  lemma RunStartsKeeps(s: Store, run: nat)
    requires Inv(s) && run in s.runs && s.runs[run].status.Queued?
    ensures Inv(WithStatus(s, run, RunStatus.Running))
  {
    hide RunsInv, TasksInv, JobsInv, RecsInv, QuietInv;
    var runs := s.runs[run := s.runs[run].(status := RunStatus.Running)];
    StatusKeepsRuns(s.runs, s.next, run, RunStatus.Running);
    TasksKept(s.runs, s.tasks, s.keys, s.next, runs, s.tasks, s.next);
    RecsKept(s.runs, s.recs, s.next, runs, s.recs, s.next);
    QuietKept(s.runs, s.tasks, s.recs, runs, s.tasks, s.recs);
  }

  lemma TaskMovesKeeps(s: Store, task: nat, status: TaskStatus)
    requires Inv(s) && task in s.tasks && ActiveTask(s.tasks[task].status)
    ensures Inv(s.(tasks := s.tasks[task := s.tasks[task].(status := status)]))
  {
    hide RunsInv, TasksInv, JobsInv, RecsInv, QuietInv;
    var tasks := s.tasks[task := s.tasks[task].(status := status)];
    TasksKept(s.runs, s.tasks, s.keys, s.next, s.runs, tasks, s.next);
    JobsKept(s.tasks, s.jobs, s.dedupes, s.next, tasks, s.jobs, s.next);
    QuietKept(s.runs, s.tasks, s.recs, s.runs, tasks, s.recs);
  }

  lemma RecMovesKeeps(s: Store, rec: nat, status: RecStatus)
    requires Inv(s) && rec in s.recs && LiveRec(s.recs[rec].status)
    ensures Inv(s.(recs := s.recs[rec := s.recs[rec].(status := status)]))
  {
    hide RunsInv, TasksInv, JobsInv, RecsInv, QuietInv;
    var recs := s.recs[rec := s.recs[rec].(status := status)];
    RecsKept(s.runs, s.recs, s.next, s.runs, recs, s.next) by { hide QuietInv; assert rec in s.recs; }
    QuietKept(s.runs, s.tasks, s.recs, s.runs, s.tasks, recs);
  }

  lemma JobMovesKeeps(s: Store, job: nat, status: JobStatus)
    requires Inv(s) && job in s.jobs
    ensures Inv(s.(jobs := s.jobs[job := s.jobs[job].(status := status)]))
  {
    hide RunsInv, TasksInv, JobsInv, RecsInv, QuietInv;
    JobsKept(s.tasks, s.jobs, s.dedupes, s.next, s.tasks, s.jobs[job := s.jobs[job].(status := status)], s.next);
  }

  /** What the checks of a dispatch establish, when they pass on the tables it inserts into. */
  predicate Insertable(s: Store, e: Envelope) {
    && e.run in s.runs && s.runs[e.run].snapshot == e.snapshot && e.deadline <= s.runs[e.run].deadline
    && AllOfRun(s, Referenced(e), e.run)
  }

  lemma InsertKeepsTables(s: Store, e: Envelope)
    requires RunsInv(s.runs, s.next) && TasksInv(s.runs, s.tasks, s.keys, s.next) &&
        JobsInv(s.tasks, s.jobs, s.dedupes, s.next)
    requires RecsInv(s.runs, s.recs, s.next)
    requires Insertable(s, e) && KeyOf(e) !in s.keys
    ensures var t := WithTask(s, e);
            RunsInv(t.runs, t.next) && TasksInv(t.runs, t.tasks, t.keys, t.next) &&
                JobsInv(t.tasks, t.jobs, t.dedupes, t.next)
            && RecsInv(t.runs, t.recs, t.next)
  {
    hide RunsInv, TasksInv, JobsInv, RecsInv, Insertable;
    var task := Task(e.run, KeyOf(e), e.parent, e.refs, Pending, e.deadline);
    var mid := s.(tasks := s.tasks[s.next := task], keys := s.keys[KeyOf(e) := s.next],
                  messages := s.messages + {e.message}, next := s.next + 1);
    NewTaskKeeps(s, e, task);
    JobsKept(s.tasks, s.jobs, s.dedupes, s.next, s.tasks, s.jobs, mid.next);
    EnqueueKeeps(mid, s.tasks, TaskJob(s.next));
    var last := Enqueued(mid, TaskJob(s.next)).next;
    MoreRunIds(s.runs, s.next, mid.next);
    MoreIds(s.runs, mid.tasks, mid.keys, mid.next, last);
    RecsKept(s.runs, s.recs, s.next, s.runs, s.recs, last);
  }

  lemma MoreRunIds(runs: map<nat, Run>, next: nat, next2: nat)
    requires RunsInv(runs, next) && next <= next2
    ensures RunsInv(runs, next2)
  {
  }

  lemma NewTaskKeeps(s: Store, e: Envelope, task: Task)
    requires TasksInv(s.runs, s.tasks, s.keys, s.next)
    requires Insertable(s, e) && KeyOf(e) !in s.keys
    requires task == Task(e.run, KeyOf(e), e.parent, e.refs, Pending, e.deadline)
    ensures TasksInv(s.runs, s.tasks[s.next := task], s.keys[KeyOf(e) := s.next], s.next + 1)
  {
    var tasks := s.tasks[s.next := task];
    forall t | t in tasks ensures TaskOk(s.runs, tasks, t, tasks[t]) {
      if t == s.next {
        if e.parent.Some? { assert e.parent.value in Referenced(e); }
        forall ref | ref in task.refs ensures Earlier(tasks, t, task.run, ref) { assert ref in Referenced(e); }
      } else {
        assert TaskOk(s.runs, s.tasks, t, s.tasks[t]);
      }
    }
  }

  /**
    A dispatch that inserts, whatever its checks once saw, keeps the invariant exactly when the
    run is not cancelled at that moment.
   */
  lemma InsertExactly(s: Store, e: Envelope)
    requires Inv(s) && Insertable(s, e) && Inserted(s, e).receipt.Created?
    ensures Inv(Inserted(s, e).store) <==> s.runs[e.run].status != RunStatus.Cancelled
  {
    hide RunsInv, TasksInv, JobsInv, RecsInv, QuietInv, WithTask;
    var t := WithTask(s, e);
    InsertKeepsTables(s, e);
    WhatInsertAdds(s, e);
    FreshTask(s);
    if s.runs[e.run].status != RunStatus.Cancelled {
      QuietKept(s.runs, s.tasks, s.recs, t.runs, t.tasks, t.recs);
    } else {
      LoudInsert(s.runs, t.tasks, s.recs, s.next);
    }
  }

  lemma WhatInsertAdds(s: Store, e: Envelope)
    ensures var t := WithTask(s, e);
            && t.runs == s.runs && t.recs == s.recs
            && (forall d :: d in t.dedupes <==> d in s.dedupes || d == TaskJob(s.next))
            && t.tasks == s.tasks[s.next := Task(e.run, KeyOf(e), e.parent, e.refs, Pending, e.deadline)]
  {
  }

  lemma LoudInsert(runs: map<nat, Run>, tasks: map<nat, Task>, recs: map<nat, Rec>, t: nat)
    requires t in tasks && tasks[t].run in runs && runs[tasks[t].run].status == RunStatus.Cancelled
    requires ActiveTask(tasks[t].status)
    ensures !QuietInv(runs, tasks, recs)
  {
  }

  lemma FreshTask(s: Store)
    requires TasksInv(s.runs, s.tasks, s.keys, s.next)
    ensures s.next !in s.tasks
  {
  }

  lemma DispatchKeeps(s: Store, e: Envelope)
    requires Inv(s)
    ensures Inv(Dispatch(s, e).store)
  {
    hide Inv, Inserted;
    if Checked(s, e).None? { InsertedKeeps(s, e); }
  }

  lemma InsertedKeeps(s: Store, e: Envelope)
    requires Inv(s) && Insertable(s, e) && s.runs[e.run].status != RunStatus.Cancelled
    ensures Inv(Inserted(s, e).store)
  {
    hide Inv;
    if Inserted(s, e).receipt.Created? { InsertExactly(s, e); }
  }

  lemma CommandKeeps(s: Store, step: Step)
    requires Inv(s) && (step.Request? || step.Retry? || step.Cancel? || step.Send?)
    ensures Inv(Next(s, step))
  {
    hide Inv, StartRun, CancelTables, Dispatch;
    match step
    case Request(order, version, deadline) =>
      if order in s.orders { StartKeeps(s, order, deadline); }
    case Retry(run, deadline) =>
      if run in s.runs && s.runs[run].order in s.orders { StartKeeps(s, s.runs[run].order, deadline); }
    case Cancel(run) =>
      if run in s.runs { CancelKeeps(s, run); }
    case Send(e) => DispatchKeeps(s, e);
  }

  lemma OrderChangesKeeps(s: Store, orders: map<nat, Order>)
    requires Inv(s)
    ensures Inv(s.(orders := orders))
  {
    hide RunsInv, TasksInv, JobsInv, RecsInv, QuietInv;
  }

  lemma StepKeeps(s: Store, step: Step)
    requires Inv(s) && Enabled(s, step)
    ensures Inv(Next(s, step))
  {
    hide Inv, RequestAnalysis, RetryRun, CancelRun, Dispatch, TasksCancelled, Recommended;
    match step {
      case OrderChanges(order, version, blocked) =>
        OrderChangesKeeps(s, s.orders[order := s.orders[order].(version := version, blocked := blocked)]);
      case RunStarts(run) => RunStartsKeeps(s, run);
      case RunCloses(run, status, recommends) =>
        CloseKeeps(s, run, status);
        if recommends { RecommendKeeps(WithStatus(s, run, status).(tasks := TasksCancelled(s.tasks, run)), run); }
      case TaskMoves(task, status) => TaskMovesKeeps(s, task, status);
      case RecMoves(rec, status) => RecMovesKeeps(s, rec, status);
      case JobMoves(job, status) => JobMovesKeeps(s, job, status);
      case _ => CommandKeeps(s, step);
    }
  }

  lemma {:induction false} ExecKeeps(s: Store, steps: seq<Step>)
    requires Inv(s) && Exec(s, steps).Some?
    ensures Inv(Exec(s, steps).value)
    decreases |steps|
  {
    hide Inv, Enabled, Next;
    if steps != [] {
      StepKeeps(s, steps[0]);
      ExecKeeps(Next(s, steps[0]), steps[1..]);
    }
  }

  lemma InvFrom(orders: map<nat, Order>)
    ensures Inv(Empty(orders))
  {
  }
}
