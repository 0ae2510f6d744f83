/**
  Analysis runs, their tasks, jobs and recommendations: the tables, and what each command makes of
  them in one transaction. Ids are drawn from one counter, so a larger id was created later.
 */
module RunTables {
  import opened Basics

  const MAX_ACTIVE_RUNS_PER_FACTORY: nat := 5

  datatype RunStatus = Queued | Running | AwaitingReview | Completed | Degraded | Failed | Cancelled
  datatype TaskStatus = Pending | Running | Succeeded | Failed | Cancelled
  datatype JobStatus = Ready | Leased | Done | Failed | Cancelled
  datatype RecStatus = Draft | Proposed | Approved | Rejected | Expired | Applied | Superseded

  datatype Recipient = Planning | Rm | Ie | Quality

  /** Run, recipient, snapshot and round, as spelled out in a task's idempotency key. */
  datatype TaskKey = TaskKey(run: nat, recipient: Recipient, snapshot: nat, round: nat)

  datatype Dedupe = TaskJob(task: nat) | StartJob(run: nat)

  datatype Order = Order(organization: nat, factory: nat, version: nat, blocked: bool)
  datatype Run = Run(order: nat, organization: nat, factory: nat, status: RunStatus, snapshot: nat, deadline: int)
  datatype Task = Task(run: nat, key: TaskKey, parent: Option<nat>, refs: seq<nat>, status: TaskStatus, deadline: int)
  datatype Job = Job(dedupe: Dedupe, status: JobStatus)
  datatype Rec = Rec(run: nat, status: RecStatus)

  /** The tables, and the unique indexes on task key, message id and job dedupe key. */
  datatype Store = Store(
    orders: map<nat, Order>,
    runs: map<nat, Run>,
    tasks: map<nat, Task>,
    jobs: map<nat, Job>,
    recs: map<nat, Rec>,
    keys: map<TaskKey, nat>,
    messages: set<nat>,
    dedupes: map<Dedupe, nat>,
    next: nat)

  datatype Error = Error(status: int, code: string)

  predicate Active(status: RunStatus) {
    status.Queued? || status == RunStatus.Running
  }

  predicate Cancellable(status: RunStatus) {
    Active(status) || status.AwaitingReview?
  }

  predicate Retryable(status: RunStatus) {
    status == RunStatus.Failed || status.Degraded? || status == RunStatus.Cancelled
  }

  predicate ActiveTask(status: TaskStatus) {
    status.Pending? || status == TaskStatus.Running
  }

  predicate LiveRec(status: RecStatus) {
    status.Draft? || status.Proposed? || status.Approved?
  }

  // --- enqueue ---

  function Enqueued(s: Store, dedupe: Dedupe): Store {
    if dedupe in s.dedupes then s
    else s.(jobs := s.jobs[s.next := Job(dedupe, Ready)], dedupes := s.dedupes[dedupe := s.next], next := s.next + 1)
  }

  // --- starting a run ---

  function ActiveOfOrder(runs: map<nat, Run>, order: nat): set<nat> {
    set r | r in runs && runs[r].order == order && Active(runs[r].status)
  }

  function ActiveInFactory(runs: map<nat, Run>, factory: nat): set<nat> {
    set r | r in runs && runs[r].factory == factory && Active(runs[r].status)
  }

  function StartError(s: Store, order: Order, id: nat): Option<Error> {
    if order.blocked then Some(Error(409, "INVALID_TRANSITION"))
    else if ActiveOfOrder(s.runs, id) != {} then Some(Error(409, "CONFLICT"))
    else if |ActiveInFactory(s.runs, order.factory)| >= MAX_ACTIVE_RUNS_PER_FACTORY
        then Some(Error(429, "RATE_LIMITED"))
    else None
  }

  /** The new run is `s.next`, its snapshot the id after it. */
  function Started(s: Store, id: nat, order: Order, deadline: int): Store {
    var run := Run(id, order.organization, order.factory, Queued, s.next + 1, deadline);
    Enqueued(s.(runs := s.runs[s.next := run], next := s.next + 2), StartJob(s.next))
  }

  datatype Answer = Answer(store: Store, result: Result<nat, Error>)

  function StartRun(s: Store, id: nat, deadline: int): Answer
    requires id in s.orders
  {
    var error := StartError(s, s.orders[id], id);
    if error.Some? then Answer(s, Failure(error.value))
    else Answer(Started(s, id, s.orders[id], deadline), Success(s.next))
  }

  function RequestAnalysis(s: Store, id: nat, expectedVersion: nat, deadline: int): Answer {
    if id !in s.orders then Answer(s, Failure(Error(404, "NOT_FOUND")))
    else if s.orders[id].version != expectedVersion then Answer(s, Failure(Error(409, "STALE_INPUT")))
    else StartRun(s, id, deadline)
  }

  function RetryRun(s: Store, run: nat, deadline: int): Answer {
    if run !in s.runs || s.runs[run].order !in s.orders then Answer(s, Failure(Error(404, "NOT_FOUND")))
    else if !Retryable(s.runs[run].status) then Answer(s, Failure(Error(409, "INVALID_TRANSITION")))
    else StartRun(s, s.runs[run].order, deadline)
  }

  // --- cancelling a run ---

  function TasksOf(tasks: map<nat, Task>, run: nat): set<nat> {
    set t | t in tasks && tasks[t].run == run
  }

  function TasksCancelled(tasks: map<nat, Task>, run: nat): map<nat, Task> {
    map t | t in tasks ::
      if tasks[t].run == run && ActiveTask(tasks[t].status) then tasks[t].(status := TaskStatus.Cancelled) else tasks[t]
  }

  /** READY agent jobs of these tasks are cancelled; a leased one is left to its worker. */
  function JobsCancelled(jobs: map<nat, Job>, tasks: set<nat>): map<nat, Job> {
    map j | j in jobs ::
      if jobs[j].status.Ready? && jobs[j].dedupe.TaskJob? && jobs[j].dedupe.task in tasks
      then jobs[j].(status := JobStatus.Cancelled) else jobs[j]
  }

  function RecsSuperseded(recs: map<nat, Rec>, run: nat): map<nat, Rec> {
    map r | r in recs ::
      if recs[r].run == run && LiveRec(recs[r].status) then recs[r].(status := Superseded) else recs[r]
  }

  function CancelTables(s: Store, run: nat): Store
    requires run in s.runs
  {
    s.(tasks := TasksCancelled(s.tasks, run),
       jobs := JobsCancelled(s.jobs, TasksOf(s.tasks, run)),
       recs := RecsSuperseded(s.recs, run),
       runs := s.runs[run := s.runs[run].(status := RunStatus.Cancelled)])
  }

  function CancelRun(s: Store, run: nat): Answer {
    if run !in s.runs then Answer(s, Failure(Error(404, "NOT_FOUND")))
    else if !Cancellable(s.runs[run].status) then Answer(s, Failure(Error(409, "INVALID_TRANSITION")))
    else Answer(CancelTables(s, run), Success(run))
  }

  // --- dispatching a task ---

  /** `key` is None for a text that spells no task key; `refs` are the agent results referred to. */
  datatype Envelope = Envelope(
    message: nat, run: nat, parent: Option<nat>, organization: nat, factory: nat, order: nat, snapshot: nat,
    recipient: Recipient, taskType: string, key: Option<TaskKey>, round: nat, deadline: int, refs: seq<nat>)

  datatype Receipt = Created(task: nat) | Existing(task: nat) | Denied(error: Error)

  function AllowedTaskTypes(recipient: Recipient): set<string> {
    match recipient
    case Rm => {"assess_material_readiness", "validate_plan_materials"}
    case Ie => {"assess_line_capability"}
    case Planning => {"propose_allocation", "revise_allocation"}
    case Quality => {"assess_quality_status"}
  }

  function KeyOf(e: Envelope): TaskKey {
    TaskKey(e.run, e.recipient, e.snapshot, e.round)
  }

  predicate Matches(e: Envelope, run: Run) {
    e.organization == run.organization && e.factory == run.factory && e.order == run.order && e.snapshot == run.snapshot
  }

  function Referenced(e: Envelope): seq<nat> {
    if e.parent.Some? then e.refs + [e.parent.value] else e.refs
  }

  predicate AllOfRun(s: Store, ids: seq<nat>, run: nat) {
    forall t :: t in ids ==> t in s.tasks && s.tasks[t].run == run
  }

  /** What the checks before the INSERT answer, if they end the request. */
  function Checked(s: Store, e: Envelope): Option<Receipt> {
    if e.run !in s.runs then Some(Denied(Error(422, "VALIDATION_ERROR")))
    else
      var run := s.runs[e.run];
      if !Matches(e, run) || e.key != Some(KeyOf(e)) then Some(Denied(Error(422, "VALIDATION_ERROR")))
      else if KeyOf(e) in s.keys then Some(Existing(s.keys[KeyOf(e)]))
      else if !Active(run.status) then Some(Denied(Error(409, "CONFLICT")))
      else if e.taskType !in AllowedTaskTypes(e.recipient) || e.deadline > run.deadline ||
          !AllOfRun(s, Referenced(e), e.run)
      then Some(Denied(Error(422, "VALIDATION_ERROR")))
      else None
  }

  datatype Dispatched = Dispatched(store: Store, receipt: Receipt)

  function WithTask(s: Store, e: Envelope): Store {
    var task := Task(e.run, KeyOf(e), e.parent, e.refs, Pending, e.deadline);
    Enqueued(s.(tasks := s.tasks[s.next := task], keys := s.keys[KeyOf(e) := s.next],
                messages := s.messages + {e.message}, next := s.next + 1),
             TaskJob(s.next))
  }

  /** INSERT ... ON CONFLICT DO NOTHING and, if it inserted, the job; otherwise the existing task. */
  function Inserted(s: Store, e: Envelope): Dispatched {
    if KeyOf(e) in s.keys then Dispatched(s, Existing(s.keys[KeyOf(e)]))
    else if e.message in s.messages then Dispatched(s, Denied(Error(409, "CONFLICT")))
    else Dispatched(WithTask(s, e), Created(s.next))
  }

  function Dispatch(s: Store, e: Envelope): Dispatched {
    var early := Checked(s, e);
    if early.Some? then Dispatched(s, early.value) else Inserted(s, e)
  }

  // --- the commands, on tables updated in place ---

  class Database {
    var orders: map<nat, Order>
    var runs: map<nat, Run>
    var tasks: map<nat, Task>
    var jobs: map<nat, Job>
    var recs: map<nat, Rec>
    var keys: map<TaskKey, nat>
    var messages: set<nat>
    var dedupes: map<Dedupe, nat>
    var next: nat

    function Contents(): Store
      reads this
    {
      Store(orders, runs, tasks, jobs, recs, keys, messages, dedupes, next)
    }

    constructor (orders: map<nat, Order>)
      ensures Contents() == Store(orders, map[], map[], map[], map[], map[], {}, map[], 0)
    {
      this.orders, runs, tasks, jobs, recs := orders, map[], map[], map[], map[];
      keys, messages, dedupes, next := map[], {}, map[], 0;
    }

    method Enqueue(dedupe: Dedupe) returns (job: Option<nat>)
      modifies this
      ensures Contents() == Enqueued(old(Contents()), dedupe)
      ensures job == if dedupe in old(dedupes) then None else Some(old(next))
    {
      if dedupe in dedupes { return None; }
      job := Some(next);
      jobs, dedupes, next := jobs[next := Job(dedupe, Ready)], dedupes[dedupe := next], next + 1;
    }

    /** The order is locked by the caller. */
    method Start(id: nat, deadline: int) returns (result: Result<nat, Error>)
      requires id in orders
      modifies this
      ensures var answer := StartRun(old(Contents()), id, deadline);
              Contents() == answer.store && result == answer.result
    {
      hide Enqueued, ActiveOfOrder, ActiveInFactory;
      var order := orders[id];
      if order.blocked { return Failure(Error(409, "INVALID_TRANSITION")); }
      var active := ActiveOfOrder(runs, id);
      if active != {} { return Failure(Error(409, "CONFLICT")); }
      var inFactory := ActiveInFactory(runs, order.factory);
      if |inFactory| >= MAX_ACTIVE_RUNS_PER_FACTORY { return Failure(Error(429, "RATE_LIMITED")); }
      var run := next;
      runs := runs[run := Run(id, order.organization, order.factory, Queued, 0, deadline)];
      next := next + 1;
      var snapshot := next;
      next := next + 1;
      runs := runs[run := runs[run].(snapshot := snapshot)];
      assert runs == old(runs)[run := Run(id, order.organization, order.factory, Queued, snapshot, deadline)];
      var job := Enqueue(StartJob(run));
      return Success(run);
    }

    method Request(id: nat, expectedVersion: nat, deadline: int) returns (result: Result<nat, Error>)
      modifies this
      ensures var answer := RequestAnalysis(old(Contents()), id, expectedVersion, deadline);
              Contents() == answer.store && result == answer.result
    {
      if id !in orders { return Failure(Error(404, "NOT_FOUND")); }
      if orders[id].version != expectedVersion { return Failure(Error(409, "STALE_INPUT")); }
      result := Start(id, deadline);
    }

    method Retry(run: nat, deadline: int) returns (result: Result<nat, Error>)
      modifies this
      ensures var answer := RetryRun(old(Contents()), run, deadline);
              Contents() == answer.store && result == answer.result
    {
      if run !in runs || runs[run].order !in orders { return Failure(Error(404, "NOT_FOUND")); }
      if !Retryable(runs[run].status) { return Failure(Error(409, "INVALID_TRANSITION")); }
      result := Start(runs[run].order, deadline);
    }

    method Cancel(run: nat) returns (result: Result<nat, Error>)
      modifies this
      ensures var answer := CancelRun(old(Contents()), run);
              Contents() == answer.store && result == answer.result
    {
      if run !in runs { return Failure(Error(404, "NOT_FOUND")); }
      if !Cancellable(runs[run].status) { return Failure(Error(409, "INVALID_TRANSITION")); }
      var taskIds := TasksOf(tasks, run);
      tasks := TasksCancelled(tasks, run);
      if taskIds != {} { jobs := JobsCancelled(jobs, taskIds); }
      recs := RecsSuperseded(recs, run);
      runs := runs[run := runs[run].(status := RunStatus.Cancelled)];
      return Success(run);
    }

    method AreOfRun(referenced: seq<nat>, run: nat) returns (known: bool)
      ensures known <==> AllOfRun(Contents(), referenced, run)
    {
      var found := set t | t in tasks && t in referenced && tasks[t].run == run;
      known := forall t :: t in referenced ==> t in found;
    }

    method DispatchTask(e: Envelope) returns (receipt: Receipt)
      modifies this
      ensures var answer := Dispatch(old(Contents()), e);
              Contents() == answer.store && receipt == answer.receipt
    {
      hide Enqueued, AllowedTaskTypes, AllOfRun;
      if e.run !in runs { return Denied(Error(422, "VALIDATION_ERROR")); }
      var run := runs[e.run];
      if !Matches(e, run) { return Denied(Error(422, "VALIDATION_ERROR")); }
      var key := TaskKey(e.run, e.recipient, e.snapshot, e.round);
      if e.key != Some(key) { return Denied(Error(422, "VALIDATION_ERROR")); }
      if key in keys { return Existing(keys[key]); }
      if !Active(run.status) { return Denied(Error(409, "CONFLICT")); }
      if e.taskType !in AllowedTaskTypes(e.recipient) { return Denied(Error(422, "VALIDATION_ERROR")); }
      if e.deadline > run.deadline { return Denied(Error(422, "VALIDATION_ERROR")); }
      var referenced := e.refs;
      if e.parent.Some? { referenced := referenced + [e.parent.value]; }
      var known := AreOfRun(referenced, e.run);
      if !known { return Denied(Error(422, "VALIDATION_ERROR")); }
      if e.message in messages { return Denied(Error(409, "CONFLICT")); }
      var task := next;
      tasks := tasks[task := Task(e.run, key, e.parent, e.refs, Pending, e.deadline)];
      keys, messages, next := keys[key := task], messages + {e.message}, next + 1;
      var job := Enqueue(TaskJob(task));
      return Created(task);
    }
  }
}
