/**
 * What the registry of tasks promises: creation, updates and the finish stamp, cancellation,
 * the listing, resuming after a restart and the worker's two steps, each proved on the
 * value-level operations that the `TaskRegistry` methods are tied to.
 */
module TaskFacts {
  import opened Wrappers
  import opened Text
  import opened Collections
  import opened Tasks

  /** The status names `tasks.py` writes, and which of them are terminal. */
  lemma StatusNames()
    ensures IsTerminal("DONE") && IsTerminal("FAILED") && IsTerminal("CANCELLED")
    ensures !IsTerminal("QUEUED") && !IsTerminal("RUNNING")
  {
    UpperKeeps("DONE");
    UpperKeeps("FAILED");
    UpperKeeps("CANCELLED");
    UpperKeeps("QUEUED");
    UpperKeeps("RUNNING");
  }

  /** Every task in a terminal state carries a finish stamp. */
  ghost predicate Stamped(r: Registry) {
    forall k :: k in r.tasks && IsTerminal(r.tasks[k].status) ==> r.tasks[k].finishedAt.Some?
  }

  /** Only the entry under `tid` may differ, and the keys stay the same. */
  ghost predicate OnlyTouches(r: Registry, r': Registry, tid: string) {
    r'.tasks.Keys == r.tasks.Keys
    && forall k :: k in r.tasks && k != tid ==> r'.tasks[k] == r.tasks[k]
  }

  // ---------------------------------------------------------------- creation

  /**
   * The dict `_create_task` builds: a task with a runner is QUEUED; one without is
   * RUNNING, with a start stamp after its creation stamp, only when started immediately.
   */
  lemma NewTaskMeaning(tid: string, title: string, kind: string, total: int, meta: Option<Dict>,
                       hasRunner: bool, payload: Option<Dict>, startImmediately: bool, now: nat)
    ensures var t := NewTask(tid, title, kind, total, meta, hasRunner, payload, startImmediately, now);
      t.id == tid && t.createdAt == now && t.progress == 0 && !t.cancel && t.finishedAt.None?
      && !IsTerminal(t.status)
      && (t.status == "RUNNING" <==> !hasRunner && startImmediately)
      && (t.status != "RUNNING" ==> t.status == "QUEUED")
      && (t.startedAt.Some? <==> t.status == "RUNNING")
      && (t.startedAt.Some? ==> t.startedAt.value > t.createdAt)
  {
    StatusNames();
  }

  /**
   * `_create_task` stores the new task under its id, after every existing one in the
   * insertion order when the id is new, changes no other task and keeps the registry
   * keyed by id; a task with a runner joins the end of the queue.
   */
  lemma CreateMeaning(r: Registry, tid: string, title: string, kind: string, total: int,
                      meta: Option<Dict>, runner: Option<Runner>, payload: Option<Dict>,
                      startImmediately: bool, onCancel: bool)
    requires WellFormed(r) && Stamped(r)
    ensures var r' := Create(r, tid, title, kind, total, meta, runner, payload, startImmediately, onCancel);
      WellFormed(r') && Stamped(r')
      && r'.tasks.Keys == r.tasks.Keys + {tid}
      && r'.tasks[tid] == NewTask(tid, title, kind, total, meta, runner.Some?, payload, startImmediately, r.clock)
      && (forall k :: k in r.tasks && k != tid ==> r'.tasks[k] == r.tasks[k])
      && (tid !in r.tasks ==> r'.order == r.order + [tid])
      && r'.clock > r.clock
    ensures var r' := Create(r, tid, title, kind, total, meta, runner, payload, startImmediately, onCancel);
      (runner.Some? ==> r'.queue == r.queue + [tid] && tid in r'.runners && r'.runners[tid] == runner.value)
      && (runner.None? ==> r'.queue == r.queue && r'.runners == r.runners)
      && (onCancel ==> tid in r'.cancels)
  {
    var t := NewTask(tid, title, kind, total, meta, runner.Some?, payload, startImmediately, r.clock);
    NewTaskMeaning(tid, title, kind, total, meta, runner.Some?, payload, startImmediately, r.clock);
    StoreKeyed(r.tasks, r.order, t);
  }

  /** A task enqueued on an idle worker is the next one started, and it becomes RUNNING. */
  lemma EnqueuedStartsNext(r: Registry, tid: string, title: string, kind: string, runner: Runner,
                           total: int, meta: Option<Dict>, payload: Option<Dict>, onCancel: bool)
    requires r.queue == []
    ensures var r1 := Create(r, tid, title, kind, total, meta, Some(runner), payload, false, onCancel);
      var (r2, p) := StartNext(r1);
      p == Started(tid) && r2.queue == [] && r2.tasks[tid].status == "RUNNING"
      && r2.tasks[tid].startedAt == Some(r1.clock) && r2.tasks[tid].createdAt < r1.clock
  {
    var r1 := Create(r, tid, title, kind, total, meta, Some(runner), payload, false, onCancel);
    assert r1.queue == [tid];
  }

  // ---------------------------------------------------------------- updates

  /**
   * `_update_task` on one task: `meta` is merged key by key (new values win), the
   * other given fields are replaced, identity fields are kept, and a task that ends up
   * in a terminal state always has a finish stamp, keeping an existing one unless the
   * update gives a new one.
   */
  lemma UpdatedTaskMeaning(t: Task, u: Update, now: nat)
    ensures var t' := UpdatedTask(t, u, now);
      t'.id == t.id && t'.title == t.title && t'.kind == t.kind && t'.createdAt == t.createdAt
      && t'.cancel == t.cancel && t'.payload == t.payload
      && (u.status.Some? ==> t'.status == u.status.value)
      && (u.status.None? ==> t'.status == t.status)
      && (u.progress.Some? ==> t'.progress == u.progress.value)
      && (u.total.Some? ==> t'.total == u.total.value)
      && (u.message.Some? ==> t'.message == u.message.value)
      && (IsTerminal(t'.status) ==> t'.finishedAt.Some?)
      && (u.finishedAt.Some? && u.finishedAt.value.Some? ==> t'.finishedAt == u.finishedAt.value)
      && (u.finishedAt.None? && t.finishedAt.Some? ==> t'.finishedAt == t.finishedAt)
      && (!IsTerminal(t'.status) ==> t'.finishedAt == Get(u.finishedAt, t.finishedAt))
    ensures var t' := UpdatedTask(t, u, now);
      var given := u.meta.Some? && u.meta.value != map[];
      (forall k :: k in t'.meta <==> k in t.meta || (given && k in u.meta.value))
      && (forall k :: given && k in u.meta.value ==> t'.meta[k] == u.meta.value[k])
      && (forall k :: k in t.meta && !(given && k in u.meta.value) ==> t'.meta[k] == t.meta[k])
  {
  }

  /** `_update_task` on the registry: unknown ids change nothing, known ones only their task. */
  lemma UpdateRegMeaning(r: Registry, tid: string, u: Update)
    requires WellFormed(r)
    ensures var (r', ok) := UpdateReg(r, tid, u);
      (ok <==> tid in r.tasks)
      && (!ok ==> r' == r)
      && (ok ==> r'.tasks[tid] == UpdatedTask(r.tasks[tid], u, r.clock))
      && WellFormed(r') && OnlyTouches(r, r', tid)
      && r' == r.(tasks := r'.tasks, clock := r'.clock) && r'.clock >= r.clock
      && (Stamped(r) ==> Stamped(r'))
  {
    if tid in r.tasks {
      var t' := UpdatedTask(r.tasks[tid], u, r.clock);
      UpdatedTaskMeaning(r.tasks[tid], u, r.clock);
      StoreKeyed(r.tasks, r.order, t');
    }
  }

  /**
   * `TaskContext.set_progress` changes progress (and total when given) and nothing else,
   * provided a terminal task already has its finish stamp.
   */
  lemma ProgressMeaning(t: Task, progress: int, total: Option<int>, now: nat)
    requires IsTerminal(t.status) ==> t.finishedAt.Some?
    ensures var t' := UpdatedTask(t, ProgressUpdate(progress, total), now);
      t' == t.(progress := progress, total := Get(total, t.total))
  {
  }

  // ---------------------------------------------------------------- cancellation

  /** `cancel_task` raises the flag and leaves the status to the runner of that task. */
  lemma CancelRegMeaning(r: Registry, tid: string)
    requires WellFormed(r)
    ensures var (r', ok, hooked) := CancelReg(r, tid);
      (ok <==> tid in r.tasks) && (hooked <==> ok && tid in r.cancels)
      && (Cancelled(r', tid) <==> tid in r.tasks)
      && (!ok ==> r' == r)
      && (ok ==> r'.tasks[tid] == r.tasks[tid].(cancel := true))
      && WellFormed(r') && OnlyTouches(r, r', tid) && r' == r.(tasks := r'.tasks)
      && (Stamped(r) ==> Stamped(r'))
  {
    if tid in r.tasks {
      StoreKeyed(r.tasks, r.order, r.tasks[tid].(cancel := true));
    }
  }

  /** The flag each task has after the bulk cancel over `ids`. */
  function CancelFlag(t: Task, listed: bool, activeOnly: bool): bool {
    t.cancel || (listed && !(activeOnly && IsTerminal(t.status)))
  }

  /** One pass of the bulk-cancel loop, on the id `tid`. */
  function CancelOne(r: Registry, tid: string, activeOnly: bool): Registry {
    if tid in r.tasks && !(activeOnly && IsTerminal(r.tasks[tid].status)) then CancelReg(r, tid).0 else r
  }

  lemma CancelOneMeaning(r: Registry, tid: string, activeOnly: bool)
    ensures var r1 := CancelOne(r, tid, activeOnly);
      r1 == r.(tasks := r1.tasks) && r1.tasks.Keys == r.tasks.Keys
      && forall key :: key in r.tasks ==>
           r1.tasks[key] == r.tasks[key].(cancel := CancelFlag(r.tasks[key], key == tid, activeOnly))
  {
  }

  lemma {:induction false} CancelAllFromState(r: Registry, ids: seq<string>, k: nat, activeOnly: bool)
    requires k <= |ids|
    ensures var x := CancelAllFrom(r, ids, k, activeOnly);
      x.0 == r.(tasks := x.0.tasks) && x.0.tasks.Keys == r.tasks.Keys
      && forall key :: key in r.tasks ==>
           x.0.tasks[key] == r.tasks[key].(cancel := CancelFlag(r.tasks[key], key in ids[k..], activeOnly))
    decreases |ids| - k
  {
    if k < |ids| {
      var tid := ids[k];
      var r1 := CancelOne(r, tid, activeOnly);
      CancelOneMeaning(r, tid, activeOnly);
      assert CancelAllFrom(r, ids, k, activeOnly).0 == CancelAllFrom(r1, ids, k + 1, activeOnly).0;
      CancelAllFromState(r1, ids, k + 1, activeOnly);
      forall key | key in r.tasks
        ensures key in ids[k..] <==> key == tid || key in ids[k + 1..]
      {
        assert ids[k..] == [tid] + ids[k + 1..];
      }
    }
  }

  lemma {:induction false} CancelAllFromCounts(r: Registry, ids: seq<string>, k: nat, activeOnly: bool)
    requires k <= |ids|
    ensures var x := CancelAllFrom(r, ids, k, activeOnly);
      x.1 + x.2 <= |ids| - k
      && ((forall i :: k <= i < |ids| ==> ids[i] in r.tasks) ==> x.1 + x.2 == |ids| - k)
      && (!activeOnly ==> x.2 == 0)
    decreases |ids| - k
  {
    if k < |ids| {
      var r1 := CancelOne(r, ids[k], activeOnly);
      CancelOneMeaning(r, ids[k], activeOnly);
      CancelAllFromCounts(r1, ids, k + 1, activeOnly);
    }
  }

  /** Under the keying, the ids `cancel_all_tasks` walks are the non-empty keys, each once. */
  lemma {:induction false} IdsOfMeaning(tasks: map<string, Task>, order: seq<string>)
    requires Distinct(order) && forall k :: k in tasks ==> tasks[k].id == k
    ensures Distinct(IdsOf(tasks, order))
    ensures forall x :: x in IdsOf(tasks, order) <==> x in order && x in tasks && x != ""
  {
    if order != [] {
      var init := order[..|order| - 1];
      var last := order[|order| - 1];
      assert Distinct(init);
      IdsOfMeaning(tasks, init);
      assert last !in init by {
        forall i | 0 <= i < |init| ensures init[i] != last {
          assert init[i] == order[i];
        }
      }
      assert forall x :: x in order <==> x in init || x == last;
    }
  }

  /**
   * `cancel_all_tasks(active_only)`: every task with an id gets its cancel flag, except
   * terminal ones when `active_only` holds, which are only counted as skipped; statuses
   * and everything else are left alone, and every id is counted once.
   */
  lemma CancelAllMeaning(r: Registry, activeOnly: bool)
    requires WellFormed(r)
    ensures var (r', cancelled, skipped) := CancelAll(r, activeOnly);
      r' == r.(tasks := r'.tasks) && r'.tasks.Keys == r.tasks.Keys && WellFormed(r')
      && (forall key :: key in r.tasks ==>
            r'.tasks[key] == r.tasks[key].(cancel := CancelFlag(r.tasks[key], key != "", activeOnly)))
      && cancelled + skipped == |IdsOf(r.tasks, r.order)|
      && (!activeOnly ==> skipped == 0)
  {
    var ids := IdsOf(r.tasks, r.order);
    IdsOfMeaning(r.tasks, r.order);
    CancelAllFromState(r, ids, 0, activeOnly);
    CancelAllFromCounts(r, ids, 0, activeOnly);
    assert ids[0..] == ids;
    var r' := CancelAll(r, activeOnly).0;
    forall k | k in r'.tasks ensures r'.tasks[k].id == k {
      assert r.tasks[k].id == k;
    }
  }

  // ---------------------------------------------------------------- listing

  /** The listing before the limit: newest first, only stored tasks, all that match. */
  predicate Matches(t: Task, activeOnly: bool) {
    activeOnly ==> Active(t)
  }

  lemma ListingMeaning(r: Registry, activeOnly: bool)
    requires WellFormed(r)
    ensures var l := Listing(r, activeOnly);
      SortedBy(l, NewestFirst)
      && (forall t :: t in l <==> (exists k :: k in r.tasks && r.tasks[k] == t) && Matches(t, activeOnly))
  {
    ListingSorted(r, activeOnly);
    ListingMembers(r, activeOnly);
  }

  lemma ListingSorted(r: Registry, activeOnly: bool)
    ensures SortedBy(Listing(r, activeOnly), NewestFirst)
  {
    if activeOnly {
      FilterSorted(SortBy(ValuesOf(r.tasks, r.order), NewestFirst), Active, NewestFirst);
    }
  }

  lemma ListingMembers(r: Registry, activeOnly: bool)
    requires WellFormed(r)
    ensures forall t :: t in Listing(r, activeOnly) <==>
      (exists k :: k in r.tasks && r.tasks[k] == t) && Matches(t, activeOnly)
  {
    SortByMembers(ValuesOf(r.tasks, r.order), NewestFirst);
  }

  /**
   * `list_tasks`: newest first, only stored tasks, only non-terminal ones when
   * `active_only`, at most `max(1, limit)` of them when a limit is given, and then the
   * newest ones of the unlimited listing; with no limit every matching task is listed.
   */
  lemma ListOfMeaning(r: Registry, activeOnly: bool, limit: int)
    requires WellFormed(r)
    ensures forall i, j :: 0 <= i < j < |ListOf(r, activeOnly, limit)| ==>
      ListOf(r, activeOnly, limit)[i].createdAt >= ListOf(r, activeOnly, limit)[j].createdAt
    ensures forall t :: t in ListOf(r, activeOnly, limit) ==> exists k :: k in r.tasks && r.tasks[k] == t
    ensures activeOnly ==> forall t :: t in ListOf(r, activeOnly, limit) ==> !IsTerminal(t.status)
    ensures limit != 0 ==> |ListOf(r, activeOnly, limit)| <= Max(1, limit)
    ensures ListOf(r, activeOnly, limit) == ListOf(r, activeOnly, 0)[..|ListOf(r, activeOnly, limit)|]
    ensures forall k :: k in r.tasks && Matches(r.tasks[k], activeOnly) ==> r.tasks[k] in ListOf(r, activeOnly, 0)
  {
    ListingMeaning(r, activeOnly);
    var kept := Listing(r, activeOnly);
    var l := ListOf(r, activeOnly, limit);
    assert l == kept[..|l|];
    forall i, j | 0 <= i < j < |l| ensures l[i].createdAt >= l[j].createdAt {
      assert NewestFirst(kept[i]) <= NewestFirst(kept[j]);
    }
    forall t | t in l ensures t in kept { }
  }

  // ---------------------------------------------------------------- resume after restart

  /**
   * `resume_pending_tasks` decides per task: terminal tasks (and ones without an id)
   * are left alone; the others are cancelled with the first reason that applies, or
   * re-queued when a resumer for their kind and a non-empty payload exist.
   */
  lemma ResumeActionMeaning(t: Task, resumers: set<string>)
    ensures var a := ResumeAction(t, resumers);
      (a.Skip? <==> t.id == "" || IsTerminal(t.status))
      && (a.Requeue? <==> t.id != "" && !IsTerminal(t.status) && !t.cancel && t.kind in resumers
                          && t.payload.Some? && t.payload.value != map[])
      && (a.Requeue? ==> a.payload == t.payload.value)
      && (a.CancelWith? && t.cancel ==> a.message == "Cancelled before restart")
      && (a.CancelWith? && !t.cancel && t.kind !in resumers ==> a.message == "No resume handler for task kind")
      && (a.CancelWith? && !t.cancel && t.kind in resumers ==> a.message == "Missing task payload for resume")
  {
  }

  /**
   * Resolved for the restart: terminal, or waiting in the queue with a runner, so that
   * the worker will pick it up.
   */
  ghost predicate Settled(r: Registry, key: string) {
    key in r.tasks ==> key == "" || IsTerminal(r.tasks[key].status) || (key in r.queue && key in r.runners)
  }

  /** One pass of the resume loop settles its task and no other task changes. */
  lemma ResumeStepMeaning(r: Registry, tid: string)
    requires WellFormed(r)
    ensures tid in r.tasks ==>
      var t := r.tasks[tid];
      var t' := ResumeStep(r, tid).tasks[tid];
      match ResumeAction(t, r.resumers)
      case Skip => ResumeStep(r, tid) == r
      case CancelWith(m) => t'.status == "CANCELLED" && t'.message == m && t'.finishedAt.Some?
                            && ResumeStep(r, tid).queue == r.queue
      case Requeue(p) => t'.status == "QUEUED" && t'.message == "Resuming after restart"
                         && t'.startedAt.None? && t'.finishedAt.None?
                         && ResumeStep(r, tid).queue == r.queue + [tid]
                         && ResumeStep(r, tid).runners[tid] == Resuming(t.kind, p)
  {
    StatusNames();
    if tid in r.tasks {
      var t := r.tasks[tid];
      match ResumeAction(t, r.resumers)
      case Skip =>
      case CancelWith(m) =>
        UpdatedTaskMeaning(t, StatusUpdate("CANCELLED", m), r.clock);
      case Requeue(p) =>
        UpdatedTaskMeaning(t, RequeueUpdate, r.clock);
    }
  }

  /** One pass of the resume loop settles its task, keeps settled ones so and touches no other. */
  lemma ResumeStepKeeps(r: Registry, tid: string)
    requires WellFormed(r)
    ensures var r' := ResumeStep(r, tid);
      WellFormed(r') && OnlyTouches(r, r', tid) && Settled(r', tid)
      && r'.resumeStarted == r.resumeStarted && r'.resumers == r.resumers
      && (forall key :: Settled(r, key) ==> Settled(r', key))
  {
    StatusNames();
    ResumeStepMeaning(r, tid);
    if tid in r.tasks {
      var t := r.tasks[tid];
      match ResumeAction(t, r.resumers)
      case Skip =>
      case CancelWith(m) =>
        UpdateRegMeaning(r, tid, StatusUpdate("CANCELLED", m));
      case Requeue(p) =>
        UpdateRegMeaning(r, tid, RequeueUpdate);
    }
    var r' := ResumeStep(r, tid);
    assert forall x :: x in r.queue ==> x in r'.queue;
    assert forall x :: x in r.runners ==> x in r'.runners;
    forall key | Settled(r, key) ensures Settled(r', key) {
      if key in r.tasks && key != tid {
        assert r'.tasks[key] == r.tasks[key];
      }
    }
  }

  /** The resume loop keeps every terminal task stamped. */
  lemma ResumeStepStamped(r: Registry, tid: string)
    requires WellFormed(r) && Stamped(r)
    ensures Stamped(ResumeStep(r, tid))
  {
    if tid in r.tasks {
      match ResumeAction(r.tasks[tid], r.resumers)
      case Skip =>
      case CancelWith(m) =>
        UpdateRegMeaning(r, tid, StatusUpdate("CANCELLED", m));
      case Requeue(p) =>
        UpdateRegMeaning(r, tid, RequeueUpdate);
    }
  }

  lemma {:induction false} ResumeFromStamped(r: Registry, visit: seq<Task>, k: nat)
    requires WellFormed(r) && Stamped(r) && k <= |visit|
    ensures Stamped(ResumeFrom(r, visit, k))
    decreases |visit| - k
  {
    if k < |visit| {
      ResumeStepStamped(r, visit[k].id);
      ResumeStepKeeps(r, visit[k].id);
      ResumeFromStamped(ResumeStep(r, visit[k].id), visit, k + 1);
    }
  }

  lemma {:induction false} ResumeFromMeaning(r: Registry, visit: seq<Task>, k: nat)
    requires WellFormed(r) && k <= |visit|
    ensures var r' := ResumeFrom(r, visit, k);
      WellFormed(r') && r'.tasks.Keys == r.tasks.Keys && r'.resumeStarted == r.resumeStarted
      && (forall key :: Settled(r, key) ==> Settled(r', key))
      && (forall i :: k <= i < |visit| ==> Settled(r', visit[i].id))
      && (forall key :: key in r.tasks && IsTerminal(r.tasks[key].status) ==> r'.tasks[key] == r.tasks[key])
    decreases |visit| - k
  {
    if k < |visit| {
      var r1 := ResumeStep(r, visit[k].id);
      ResumeStepKeeps(r, visit[k].id);
      ResumeFromMeaning(r1, visit, k + 1);
      forall key | key in r.tasks && IsTerminal(r.tasks[key].status)
        ensures r1.tasks[key] == r.tasks[key]
      {
        if key == visit[k].id {
          assert ResumeAction(r.tasks[key], r.resumers) == Skip;
        }
      }
    }
  }

  /**
   * `resume_pending_tasks` after a restart: afterwards every task is terminal or queued
   * with a runner, terminal tasks are untouched, and no task appears or disappears.
   */
  lemma ResumeMeaning(r: Registry)
    requires WellFormed(r) && !r.resumeStarted
    ensures var r' := Resume(r);
      WellFormed(r') && r'.resumeStarted && r'.tasks.Keys == r.tasks.Keys
      && (forall key :: Settled(r', key))
      && (forall key :: key in r.tasks && IsTerminal(r.tasks[key].status) ==> r'.tasks[key] == r.tasks[key])
      && (Stamped(r) ==> Stamped(r'))
  {
    var r0 := r.(resumeStarted := true);
    var visit := VisitOrder(r);
    ResumeFromMeaning(r0, visit, 0);
    if Stamped(r) {
      ResumeFromStamped(r0, visit, 0);
    }
    var r' := Resume(r);
    forall key | key in r.tasks ensures Settled(r', key) {
      var vals := ValuesOf(r.tasks, r.order);
      assert r.tasks[key] in vals;
      assert r.tasks[key] in multiset(vals);
      assert r.tasks[key] in multiset(visit);
      var i :| 0 <= i < |visit| && visit[i] == r.tasks[key];
      assert Settled(r', visit[i].id);
    }
  }

  lemma {:induction false} ResumeFromFlag(r: Registry, visit: seq<Task>, k: nat)
    requires k <= |visit|
    ensures ResumeFrom(r, visit, k).resumeStarted == r.resumeStarted
    decreases |visit| - k
  {
    if k < |visit| {
      ResumeFromFlag(ResumeStep(r, visit[k].id), visit, k + 1);
    }
  }

  /** The resume pass runs once per process: a second call changes nothing. */
  lemma ResumeOnce(r: Registry)
    ensures Resume(r).resumeStarted
    ensures Resume(Resume(r)) == Resume(r)
  {
    if !r.resumeStarted {
      ResumeFromFlag(r.(resumeStarted := true), VisitOrder(r), 0);
    }
  }

  // ---------------------------------------------------------------- the worker

  /**
   * One worker iteration: an empty queue leaves everything alone; otherwise the head is
   * removed, and it is started (RUNNING, keeping an earlier start stamp) exactly when
   * it is a known task with a runner.
   */
  lemma StartNextMeaning(r: Registry)
    requires WellFormed(r)
    ensures var (r', p) := StartNext(r);
      (p == Idle <==> r.queue == []) && (p == Idle ==> r' == r)
      && (p != Idle ==> p.tid == r.queue[0] && r'.queue == r.queue[1..])
      && (p.Started? <==> r.queue != [] && r.queue[0] in r.tasks && r.queue[0] in r.runners)
      && (p.Skipped? ==> r' == r.(queue := r.queue[1..]))
      && WellFormed(r') && r'.runners == r.runners
      && (Stamped(r) ==> Stamped(r'))
    ensures var (r', p) := StartNext(r);
      p.Started? ==>
        OnlyTouches(r, r', p.tid)
        && r'.tasks[p.tid] == r.tasks[p.tid].(status := "RUNNING", startedAt := r'.tasks[p.tid].startedAt)
        && r'.tasks[p.tid].startedAt.Some?
        && (r.tasks[p.tid].startedAt.Some? ==> r'.tasks[p.tid].startedAt == r.tasks[p.tid].startedAt)
  {
    StatusNames();
    if r.queue != [] {
      var tid := r.queue[0];
      if tid in r.tasks && tid in r.runners {
        var t := r.tasks[tid];
        StoreKeyed(r.tasks, r.order, StartNext(r).0.tasks[tid]);
      }
    }
  }

  /**
   * After the runner of `tid` ends, its task is terminal: a runner that returned leaves
   * a status it set itself, and otherwise its task becomes DONE; a runner that raised
   * makes it FAILED with the exception text. Either way the finish stamp is set.
   */
  lemma FinishRunMeaning(r: Registry, tid: string, outcome: Outcome)
    requires WellFormed(r)
    ensures var r' := FinishRun(r, tid, outcome);
      tid in r.tasks ==>
        IsTerminal(r'.tasks[tid].status) && (Stamped(r) ==> r'.tasks[tid].finishedAt.Some?)
        && (outcome.Returned? && IsTerminal(r.tasks[tid].status) ==> r' == r)
        && (outcome.Returned? && !IsTerminal(r.tasks[tid].status) ==>
              r'.tasks[tid] == r.tasks[tid].(status := "DONE", finishedAt := Some(r.clock)))
        && (outcome.Raised? ==>
              r'.tasks[tid].status == "FAILED" && r'.tasks[tid].message == outcome.error
              && r'.tasks[tid].finishedAt == Some(r.clock))
    ensures tid !in r.tasks ==> FinishRun(r, tid, outcome).tasks == r.tasks
  {
    StatusNames();
    match outcome
    case Returned =>
    case Raised(e) =>
      var u := Update(Some("FAILED"), Some(e), None, None, None, Some(Some(r.clock)), None);
      if tid in r.tasks {
        UpdatedTaskMeaning(r.tasks[tid], u, r.clock + 1);
      }
  }

  /** Finishing a run keeps every terminal task stamped with a finish time. */
  lemma FinishRunStamped(r: Registry, tid: string, outcome: Outcome)
    requires WellFormed(r) && Stamped(r)
    ensures Stamped(FinishRun(r, tid, outcome))
  {
    StatusNames();
    match outcome
    case Returned =>
    case Raised(e) =>
      UpdateRegMeaning(r.(clock := r.clock + 1), tid,
                       Update(Some("FAILED"), Some(e), None, None, None, Some(Some(r.clock)), None));
  }

  /** Finishing a run changes only that run's task and keeps the registry keyed and stamped. */
  lemma FinishRunKeeps(r: Registry, tid: string, outcome: Outcome)
    requires WellFormed(r)
    ensures var r' := FinishRun(r, tid, outcome);
      WellFormed(r') && OnlyTouches(r, r', tid) && r'.queue == r.queue && r'.runners == r.runners
  {
    StatusNames();
    match outcome
    case Returned =>
      if tid in r.tasks && !IsTerminal(r.tasks[tid].status) {
        StoreKeyed(r.tasks, r.order, r.tasks[tid].(status := "DONE", finishedAt := Some(r.clock)));
      }
    case Raised(e) =>
      UpdateRegMeaning(r.(clock := r.clock + 1), tid,
                       Update(Some("FAILED"), Some(e), None, None, None, Some(Some(r.clock)), None));
  }
}
