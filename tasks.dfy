/**
 * The in-memory task registry of `cheesepie/tasks.py`: tasks keyed by id, the runner
 * queue drained by the background worker, cancel hooks, resumers for tasks that
 * survive a restart, and the listing and bulk-cancel operations.
 *
 * Timestamps are the ticks of a logical clock: every `_now_iso()` call reads the
 * clock and advances it by one, so the stamps of a run are distinct and ordered as the
 * calls. The source's stamps are `utcnow().isoformat()` strings, which two calls can
 * repeat and which do not always sort in call order, so the model's stamps are an
 * idealisation of them. Runners, resumers and cancel hooks are callables in
 * the source; here a runner is a name or the resumer closure's captured arguments,
 * and a hook is only present or absent.
 */
module Tasks {
  import opened Wrappers
  import opened Text
  import opened JsonValues
  import opened Collections

  type Dict = map<string, Json>

  /** `str(status).upper() in TERMINAL_STATES` */
  predicate IsTerminal(status: string) {
    var s := Upper(status);
    s == "DONE" || s == "FAILED" || s == "CANCELLED"
  }

  datatype Task = Task(
    id: string, title: string, kind: string, status: string,
    progress: int, total: int, message: string,
    createdAt: nat, startedAt: Option<nat>, finishedAt: Option<nat>,
    meta: Dict, cancel: bool, payload: Option<Dict>)

  /** What the worker will call: a runner given at enqueue time, or a resumer with its payload. */
  datatype Runner = Given(name: string) | Resuming(kind: string, payload: Dict)

  /**
   * The module-level state: `TASKS` (with its insertion order), `TASK_RUNNERS`,
   * the ids that have a `TASK_CANCELS` hook, the kinds in `TASK_RESUMERS`,
   * `TASK_QUEUE`, the clock and `_RESUME_STARTED`.
   */
  datatype Registry = Registry(
    tasks: map<string, Task>, order: seq<string>, runners: map<string, Runner>,
    cancels: set<string>, resumers: set<string>, queue: seq<string>,
    clock: nat, resumeStarted: bool)

  /** Every task is stored under its own id, and `order` lists each key once. */
  ghost predicate WellFormed(r: Registry) {
    Keyed(r.tasks, r.order)
  }

  ghost predicate Keyed(tasks: map<string, Task>, order: seq<string>) {
    Distinct(order)
    && (forall k :: k in tasks <==> k in order)
    && (forall k :: k in tasks ==> tasks[k].id == k)
  }

  /** Storing a task under its own id keeps the keying; a new id joins the order at its end. */
  lemma StoreKeyed(tasks: map<string, Task>, order: seq<string>, t: Task)
    requires Keyed(tasks, order)
    ensures Keyed(tasks[t.id := t], OrderWith(order, tasks, t.id))
  {
    if t.id !in tasks {
      var o := order + [t.id];
      forall i, j | 0 <= i < j < |o| ensures o[i] != o[j] {
        if j == |order| {
          assert o[i] in order;
        }
      }
    }
  }

  const Empty := Registry(map[], [], map[], {}, {}, [], 0, false)

  // ---------------------------------------------------------------- creation

  /** The dict `_create_task` builds; `now` is the clock at the call. */
  function NewTask(tid: string, title: string, kind: string, total: int, meta: Option<Dict>,
                   hasRunner: bool, payload: Option<Dict>, startImmediately: bool, now: nat): Task {
    Task(tid, title, kind, InitialStatus(hasRunner, startImmediately),
         0, total, "", now,
         if startImmediately && !hasRunner then Some(now + 1) else None, None,
         if meta.Some? then meta.value else map[], false, payload)
  }

  function InitialStatus(hasRunner: bool, startImmediately: bool): string {
    if hasRunner then "QUEUED" else if startImmediately then "RUNNING" else "QUEUED"
  }

  function StampsOf(hasRunner: bool, startImmediately: bool): nat {
    if startImmediately && !hasRunner then 2 else 1
  }

  /** `TASKS[tid] = task`: a new key goes to the end of the insertion order. */
  function OrderWith(order: seq<string>, tasks: map<string, Task>, tid: string): seq<string> {
    if tid in tasks then order else order + [tid]
  }

  /** `TASK_RUNNERS[tid] = runner` when there is one. */
  function RunnersWith(runners: map<string, Runner>, tid: string, runner: Option<Runner>): map<string, Runner> {
    if runner.Some? then runners[tid := runner.value] else runners
  }

  /** `TASK_QUEUE.append(tid)` when there is a runner. */
  function QueueWith(queue: seq<string>, tid: string, runner: Option<Runner>): seq<string> {
    if runner.Some? then queue + [tid] else queue
  }

  /** `TASK_CANCELS[tid] = on_cancel` when there is one. */
  function CancelsWith(cancels: set<string>, tid: string, onCancel: bool): set<string> {
    if onCancel then cancels + {tid} else cancels
  }

  /** `_create_task` with the fresh id `tid` (a `uuid4` in the source). */
  function Create(r: Registry, tid: string, title: string, kind: string, total: int, meta: Option<Dict>,
                  runner: Option<Runner>, payload: Option<Dict>, startImmediately: bool,
                  onCancel: bool): Registry {
    var t := NewTask(tid, title, kind, total, meta, runner.Some?, payload, startImmediately, r.clock);
    Registry(r.tasks[tid := t], OrderWith(r.order, r.tasks, tid), RunnersWith(r.runners, tid, runner),
             CancelsWith(r.cancels, tid, onCancel), r.resumers, QueueWith(r.queue, tid, runner),
             r.clock + StampsOf(runner.Some?, startImmediately), r.resumeStarted)
  }

  // ---------------------------------------------------------------- updates

  /**
   * The keyword arguments of `_update_task`: each field is present or absent;
   * `startedAt`/`finishedAt` may be given as `None`.
   */
  datatype Update = Update(
    status: Option<string>, message: Option<string>, progress: Option<int>, total: Option<int>,
    startedAt: Option<Option<nat>>, finishedAt: Option<Option<nat>>, meta: Option<Dict>)

  function Get<T>(o: Option<T>, default: T): T {
    if o.Some? then o.value else default
  }

  /** The fields after the merge of `meta` (only when non-empty) and the assignments. */
  function Assign(t: Task, u: Update): Task {
    t.(meta := if u.meta.Some? && u.meta.value != map[] then t.meta + u.meta.value else t.meta,
       status := Get(u.status, t.status),
       message := Get(u.message, t.message),
       progress := Get(u.progress, t.progress),
       total := Get(u.total, t.total),
       startedAt := Get(u.startedAt, t.startedAt),
       finishedAt := Get(u.finishedAt, t.finishedAt))
  }

  /** Whether `_update_task` stamps `finished_at`, which reads the clock. */
  predicate Stamps(t: Task, u: Update) {
    IsTerminal(Assign(t, u).status) && Assign(t, u).finishedAt.None?
  }

  function UpdatedTask(t: Task, u: Update, now: nat): Task {
    var a := Assign(t, u);
    if Stamps(t, u) then a.(finishedAt := Some(now)) else a
  }

  /** `_update_task(tid, **fields)`: the new state and the returned flag. */
  function UpdateReg(r: Registry, tid: string, u: Update): (Registry, bool) {
    if tid !in r.tasks then (r, false)
    else
      var t := r.tasks[tid];
      (r.(tasks := r.tasks[tid := UpdatedTask(t, u, r.clock)],
          clock := if Stamps(t, u) then r.clock + 1 else r.clock), true)
  }

  /** `update(status=…, message=…)` as `resume_pending_tasks` and the worker call it. */
  function StatusUpdate(status: string, message: string): Update {
    Update(Some(status), Some(message), None, None, None, None, None)
  }

  /** `TaskContext.set_progress(progress, total)` */
  function ProgressUpdate(progress: int, total: Option<int>): Update {
    Update(None, None, Some(progress), total, None, None, None)
  }

  /** `TaskContext.cancelled()` */
  predicate Cancelled(r: Registry, tid: string) {
    tid in r.tasks && r.tasks[tid].cancel
  }

  /** `get_task` */
  function GetTask(r: Registry, tid: string): Option<Task> {
    if tid in r.tasks then Some(r.tasks[tid]) else None
  }

  // ---------------------------------------------------------------- cancellation

  /** `cancel_task`: the new state, the result, and whether a cancel hook is called. */
  function CancelReg(r: Registry, tid: string): (Registry, bool, bool) {
    if tid !in r.tasks then (r, false, false)
    else (r.(tasks := r.tasks[tid := r.tasks[tid].(cancel := true)]), true, tid in r.cancels)
  }

  /** `[t['id'] for t in TASKS.values() if t.get('id')]` */
  function IdsOf(tasks: map<string, Task>, order: seq<string>): (ids: seq<string>)
    ensures forall i :: 0 <= i < |ids| ==> ids[i] != ""
  {
    if order == [] then []
    else
      var k := order[|order| - 1];
      IdsOf(tasks, order[..|order| - 1])
        + (if k in tasks && tasks[k].id != "" then [tasks[k].id] else [])
  }

  /** The loop of `cancel_all_tasks` from position `k` of `ids`: state, cancelled, skipped. */
  function CancelAllFrom(r: Registry, ids: seq<string>, k: nat, activeOnly: bool): (Registry, nat, nat)
    requires k <= |ids|
    decreases |ids| - k
  {
    if k == |ids| then (r, 0, 0)
    else
      var tid := ids[k];
      if tid !in r.tasks then CancelAllFrom(r, ids, k + 1, activeOnly)
      else if activeOnly && IsTerminal(r.tasks[tid].status) then
        var x := CancelAllFrom(r, ids, k + 1, activeOnly);
        (x.0, x.1, x.2 + 1)
      else
        var x := CancelAllFrom(CancelReg(r, tid).0, ids, k + 1, activeOnly);
        (x.0, x.1 + 1, x.2)
  }

  function CancelAll(r: Registry, activeOnly: bool): (Registry, nat, nat) {
    CancelAllFrom(r, IdsOf(r.tasks, r.order), 0, activeOnly)
  }

  // ---------------------------------------------------------------- listing

  /** `list(TASKS.values())` */
  function ValuesOf(tasks: map<string, Task>, order: seq<string>): (vs: seq<Task>)
    ensures |vs| <= |order|
    ensures forall t :: t in vs <==> exists k :: k in order && k in tasks && tasks[k] == t
  {
    if order == [] then []
    else
      var k := order[|order| - 1];
      var init := order[..|order| - 1];
      var rest := ValuesOf(tasks, init);
      assert forall x :: x in order <==> x in init || x == k;
      rest + (if k in tasks then [tasks[k]] else [])
  }

  function NewestFirst(t: Task): int { 0 - t.createdAt as int }

  predicate Active(t: Task) { !IsTerminal(t.status) }

  /** The tasks newest first, without the terminal ones when `activeOnly`. */
  function Listing(r: Registry, activeOnly: bool): seq<Task> {
    var vals := SortBy(ValuesOf(r.tasks, r.order), NewestFirst);
    if activeOnly then Filter(vals, Active) else vals
  }

  /** `list_tasks(active_only, limit)` */
  function ListOf(r: Registry, activeOnly: bool, limit: int): seq<Task> {
    var kept := Listing(r, activeOnly);
    if limit != 0 then kept[..Min(|kept|, Max(1, limit))] else kept
  }

  function Min(a: int, b: int): int { if a <= b then a else b }
  function Max(a: int, b: int): int { if a >= b then a else b }

  // ---------------------------------------------------------------- resume after restart

  /** What `resume_pending_tasks` does with one task. */
  datatype Action = Skip | CancelWith(message: string) | Requeue(payload: Dict)

  function ResumeAction(t: Task, resumers: set<string>): Action {
    if t.id == "" || IsTerminal(t.status) then Skip
    else if t.cancel then CancelWith("Cancelled before restart")
    else if t.kind !in resumers then CancelWith("No resume handler for task kind")
    else if t.payload.None? || t.payload.value == map[] then CancelWith("Missing task payload for resume")
    else Requeue(t.payload.value)
  }

  const RequeueUpdate := Update(Some("QUEUED"), Some("Resuming after restart"), None, None,
                                Some(None), Some(None), None)

  /** `_enqueue_existing_task` */
  function EnqueueExisting(r: Registry, tid: string, runner: Runner): Registry {
    r.(runners := r.runners[tid := runner], queue := r.queue + [tid])
  }

  /** One pass of the resume loop, on a task stored under `tid`. */
  function ResumeStep(r: Registry, tid: string): Registry {
    if tid !in r.tasks then r
    else
      var t := r.tasks[tid];
      match ResumeAction(t, r.resumers)
      case Skip => r
      case CancelWith(msg) => UpdateReg(r, tid, StatusUpdate("CANCELLED", msg)).0
      case Requeue(p) => EnqueueExisting(UpdateReg(r, tid, RequeueUpdate).0, tid, Resuming(t.kind, p))
  }

  function OldestFirst(t: Task): int { t.createdAt }

  /** The snapshot `resume_pending_tasks` walks: the tasks, oldest first. */
  function VisitOrder(r: Registry): (vs: seq<Task>)
    ensures SortedBy(vs, OldestFirst)
    ensures multiset(vs) == multiset(ValuesOf(r.tasks, r.order))
  {
    SortBy(ValuesOf(r.tasks, r.order), OldestFirst)
  }

  function ResumeFrom(r: Registry, visit: seq<Task>, k: nat): Registry
    requires k <= |visit|
    decreases |visit| - k
  {
    if k == |visit| then r else ResumeFrom(ResumeStep(r, visit[k].id), visit, k + 1)
  }

  /** `resume_pending_tasks`: runs once per process. */
  function Resume(r: Registry): Registry {
    if r.resumeStarted then r
    else ResumeFrom(r.(resumeStarted := true), VisitOrder(r), 0)
  }

  /** `register_task_resumer` */
  function RegisterResumer(r: Registry, kind: string): Registry {
    if kind == "" then r else r.(resumers := r.resumers + {kind})
  }

  /** `set_task_cancel_hook`, with `hook` telling whether a callable was passed. */
  function SetCancelHook(r: Registry, tid: string, hook: bool): Registry {
    if tid == "" || !hook then r else r.(cancels := r.cancels + {tid})
  }

  // ---------------------------------------------------------------- the worker

  /** One iteration of the worker's inner loop under the lock. */
  datatype Pop = Idle | Skipped(tid: string) | Started(tid: string)

  function StartNext(r: Registry): (Registry, Pop) {
    if r.queue == [] then (r, Idle)
    else
      var tid := r.queue[0];
      var r1 := r.(queue := r.queue[1..]);
      if tid !in r.tasks || tid !in r.runners then (r1, Skipped(tid))
      else
        var t := r.tasks[tid];
        var t' := t.(status := "RUNNING", startedAt := if t.startedAt.Some? then t.startedAt else Some(r.clock));
        (r1.(tasks := r.tasks[tid := t'], clock := if t.startedAt.Some? then r.clock else r.clock + 1),
         Started(tid))
  }

  /** How a runner call ended: it returned, or it raised an exception with this text. */
  datatype Outcome = Returned | Raised(error: string)

  /** What the worker does after the runner of `tid` ends. */
  function FinishRun(r: Registry, tid: string, outcome: Outcome): Registry {
    match outcome
    case Returned =>
      if tid in r.tasks && !IsTerminal(r.tasks[tid].status) then
        r.(tasks := r.tasks[tid := r.tasks[tid].(status := "DONE", finishedAt := Some(r.clock))],
           clock := r.clock + 1)
      else r
    case Raised(e) =>
      UpdateReg(r.(clock := r.clock + 1), tid,
                Update(Some("FAILED"), Some(e), None, None, None, Some(Some(r.clock)), None)).0
  }

  // ---------------------------------------------------------------- the registry object

  /** The module globals of `tasks.py`, updated in place under `TASK_LOCK`. */
  class TaskRegistry {
    var tasks: map<string, Task>
    var order: seq<string>
    var runners: map<string, Runner>
    var cancels: set<string>
    var resumers: set<string>
    var queue: seq<string>
    var clock: nat
    var resumeStarted: bool

    function Model(): Registry
      reads this
    {
      Registry(tasks, order, runners, cancels, resumers, queue, clock, resumeStarted)
    }

    ghost predicate Valid()
      reads this
    {
      Keyed(tasks, order)
    }

    constructor ()
      ensures Model() == Empty && Valid()
    {
      tasks, order, runners := map[], [], map[];
      cancels, resumers, queue := {}, {}, [];
      clock, resumeStarted := 0, false;
    }

    /** `_now_iso()` */
    method Now() returns (t: nat)
      modifies this`clock
      ensures t == old(clock) && clock == old(clock) + 1
    {
      t := clock;
      clock := clock + 1;
    }

    /** `_create_task` with the fresh id `tid`. */
    method CreateTask(tid: string, title: string, kind: string, total: int, meta: Option<Dict>,
                      runner: Option<Runner>, payload: Option<Dict>, startImmediately: bool,
                      onCancel: bool) returns (task: Task)
      requires Valid()
      modifies this
      ensures Valid()
      ensures Model() == Create(old(Model()), tid, title, kind, total, meta, runner, payload,
                                startImmediately, onCancel)
      ensures tid in tasks && task == tasks[tid]
    {
      task := NewTask(tid, title, kind, total, meta, runner.Some?, payload, startImmediately, clock);
      StoreKeyed(tasks, order, task);
      tasks, order, runners, queue, cancels, clock :=
        tasks[tid := task], OrderWith(order, tasks, tid), RunnersWith(runners, tid, runner),
        QueueWith(queue, tid, runner), CancelsWith(cancels, tid, onCancel),
        clock + StampsOf(runner.Some?, startImmediately);
    }

    /** `enqueue_task`: a task the worker runs. */
    method EnqueueTask(tid: string, title: string, kind: string, runner: Runner, total: int,
                       meta: Option<Dict>, payload: Option<Dict>, onCancel: bool) returns (task: Task)
      requires Valid()
      modifies this
      ensures Valid()
      ensures Model() == Create(old(Model()), tid, title, kind, total, meta, Some(runner), payload,
                                false, onCancel)
      ensures tid in tasks && task == tasks[tid]
    {
      task := CreateTask(tid, title, kind, total, meta, Some(runner), payload, false, onCancel);
    }

    /** `register_task`: a task updated from outside, with no runner. */
    method RegisterTask(tid: string, title: string, kind: string, total: int, meta: Option<Dict>,
                        startImmediately: bool, onCancel: bool) returns (task: Task)
      requires Valid()
      modifies this
      ensures Valid()
      ensures Model() == Create(old(Model()), tid, title, kind, total, meta, None, None,
                                startImmediately, onCancel)
      ensures tid in tasks && task == tasks[tid]
    {
      task := CreateTask(tid, title, kind, total, meta, None, None, startImmediately, onCancel);
    }

    /** `_update_task` / `update_task` / `TaskContext.update` */
    method UpdateTask(tid: string, u: Update) returns (ok: bool)
      requires Valid()
      modifies this`tasks, this`clock
      ensures Valid()
      ensures (Model(), ok) == UpdateReg(old(Model()), tid, u)
    {
      if tid !in tasks {
        return false;
      }
      var t := Assign(tasks[tid], u);
      if IsTerminal(t.status) && t.finishedAt.None? {
        var now := Now();
        t := t.(finishedAt := Some(now));
      }
      StoreKeyed(tasks, order, t);
      tasks := tasks[tid := t];
      ok := true;
    }

    /** `cancel_task`; `hooked` tells whether the registered cancel hook is called. */
    method CancelTask(tid: string) returns (ok: bool, hooked: bool)
      requires Valid()
      modifies this`tasks
      ensures Valid()
      ensures (Model(), ok, hooked) == CancelReg(old(Model()), tid)
    {
      if tid !in tasks {
        return false, false;
      }
      tasks := tasks[tid := tasks[tid].(cancel := true)];
      ok, hooked := true, tid in cancels;
    }

    /** `cancel_all_tasks(active_only)` */
    method CancelAllTasks(activeOnly: bool) returns (cancelled: nat, skipped: nat)
      requires Valid()
      modifies this
      ensures Valid()
      ensures (Model(), cancelled, skipped) == CancelAll(old(Model()), activeOnly)
    {
      ghost var goal := CancelAll(Model(), activeOnly);
      var ids := IdsOf(tasks, order);
      cancelled, skipped := 0, 0;
      var i := 0;
      while i < |ids|
        invariant i <= |ids| && Valid()
        invariant var x := CancelAllFrom(Model(), ids, i, activeOnly);
          x.0 == goal.0 && cancelled + x.1 == goal.1 && skipped + x.2 == goal.2
      {
        var tid := ids[i];
        if tid in tasks {
          if activeOnly && IsTerminal(tasks[tid].status) {
            skipped := skipped + 1;
          } else {
            var ok, _ := CancelTask(tid);
            cancelled := cancelled + 1;
          }
        }
        i := i + 1;
      }
    }

    /** `_enqueue_existing_task` */
    method EnqueueExistingTask(tid: string, runner: Runner)
      requires Valid()
      modifies this`runners, this`queue
      ensures Valid()
      ensures Model() == EnqueueExisting(old(Model()), tid, runner)
    {
      runners := runners[tid := runner];
      queue := queue + [tid];
    }

    /** `register_task_resumer` */
    method RegisterTaskResumer(kind: string)
      requires Valid()
      modifies this`resumers
      ensures Valid()
      ensures Model() == RegisterResumer(old(Model()), kind)
    {
      if kind != "" {
        resumers := resumers + {kind};
      }
    }

    /** `set_task_cancel_hook` */
    method SetTaskCancelHook(tid: string, hook: bool)
      requires Valid()
      modifies this`cancels
      ensures Valid()
      ensures Model() == SetCancelHook(old(Model()), tid, hook)
    {
      if tid != "" && hook {
        cancels := cancels + {tid};
      }
    }

    /** The body of the resume loop for a task stored under `tid`. */
    method ResumeOne(tid: string)
      requires Valid()
      modifies this
      ensures Valid()
      ensures Model() == ResumeStep(old(Model()), tid)
    {
      if tid !in tasks {
        return;
      }
      var t := tasks[tid];
      match ResumeAction(t, resumers)
      case Skip =>
      case CancelWith(msg) =>
        var ok := UpdateTask(tid, StatusUpdate("CANCELLED", msg));
      case Requeue(p) =>
        var ok := UpdateTask(tid, RequeueUpdate);
        EnqueueExistingTask(tid, Resuming(t.kind, p));
    }

    /** `resume_pending_tasks` */
    method ResumePendingTasks()
      requires Valid()
      modifies this
      ensures Valid()
      ensures Model() == Resume(old(Model()))
    {
      if resumeStarted {
        return;
      }
      var visit := VisitOrder(Model());
      resumeStarted := true;
      ghost var goal := ResumeFrom(Model(), visit, 0);
      var k := 0;
      while k < |visit|
        invariant k <= |visit| && Valid()
        invariant ResumeFrom(Model(), visit, k) == goal
      {
        ResumeOne(visit[k].id);
        k := k + 1;
      }
    }

    /** `get_task` */
    function Get(tid: string): (t: Option<Task>)
      reads this
      ensures t.Some? <==> tid in tasks
      ensures t.Some? ==> t.value == tasks[tid]
    {
      GetTask(Model(), tid)
    }

    /** `TaskContext.cancelled()` */
    predicate IsCancelled(tid: string)
      reads this
    {
      Cancelled(Model(), tid)
    }

    /** The locked part of one worker iteration: pop the queue, mark that task RUNNING. */
    method StartNextTask() returns (p: Pop)
      requires Valid()
      modifies this
      ensures Valid()
      ensures (Model(), p) == StartNext(old(Model()))
    {
      if queue == [] {
        return Idle;
      }
      var tid := queue[0];
      queue := queue[1..];
      if tid !in tasks || tid !in runners {
        return Skipped(tid);
      }
      var t := tasks[tid];
      var started := t.startedAt;
      if started.None? {
        var now := Now();
        started := Some(now);
      }
      tasks := tasks[tid := t.(status := "RUNNING", startedAt := started)];
      p := Started(tid);
    }

    /** The worker's bookkeeping once the runner of `tid` returns or raises. */
    method FinishTask(tid: string, outcome: Outcome)
      requires Valid()
      modifies this
      ensures Valid()
      ensures Model() == FinishRun(old(Model()), tid, outcome)
    {
      match outcome
      case Returned =>
        if tid in tasks && !IsTerminal(tasks[tid].status) {
          var now := Now();
          tasks := tasks[tid := tasks[tid].(status := "DONE", finishedAt := Some(now))];
        }
      case Raised(e) =>
        var now := Now();
        var ok := UpdateTask(tid, Update(Some("FAILED"), Some(e), None, None, None, Some(Some(now)), None));
    }
  }
}
