/**
 * The bookkeeping of `api_import_encode_days` in `cheesepie/importer.py`: the job's total, the
 * per-day outcome of the encode loop, the job's progress and final status, and `_snapshot_plan`,
 * the merge of the days processed so far over the plan the client sent.
 *
 * Whether a list file exists, whether the job's cancel flag is set when a day is about to start,
 * and what the encoder reports are inputs (`Env`): the model runs no encoder and reads no file.
 */
module ImporterEncode {
  import opened Wrappers
  import opened Text
  import opened Collections
  import opened ImporterFiles
  import Reconcile = ImporterReconcile

  // ---------------------------------------------------------------------------
  // The plan as sent back by the client
  // ---------------------------------------------------------------------------

  /** A day of the submitted plan: `day`, `status`, `segments` (`None` when the key is absent) and `list_path`. */
  datatype PlanDay = PlanDay(day: Option<int>, status: string, segments: Option<int>, listPath: string)

  datatype PlanCam = PlanCam(camera: int, days: seq<PlanDay>)

  /** `int(d.get('day') or 0)` */
  function DayNumber(d: PlanDay): int {
    match d.day
    case Some(k) => k
    case None => 0
  }

  /** `int(d.get('segments') or 0) if 'segments' in d else 0` */
  function SegmentsOrZero(d: PlanDay): int {
    match d.segments
    case Some(k) => k
    case None => 0
  }

  /** `str(d.get('status', '')).upper() == 'MISSING'` */
  predicate MarkedMissing(d: PlanDay) {
    Upper(d.status) == "MISSING"
  }

  /** A day the job's total counts: it has segments and is not marked missing. */
  predicate Counted(d: PlanDay) {
    SegmentsOrZero(d) > 0 && !MarkedMissing(d)
  }

  /** The counted days of `days[k..]`. */
  function CountFrom(days: seq<PlanDay>, k: nat): (r: nat)
    requires k <= |days|
    ensures r <= |days| - k
    decreases |days| - k
  {
    if k == |days| then 0 else (if Counted(days[k]) then 1 else 0) + CountFrom(days, k + 1)
  }

  /** The job's `total`: the counted days of the cameras from `ci` on. */
  function TotalFrom(plan: seq<PlanCam>, ci: nat): nat
    requires ci <= |plan|
    decreases |plan| - ci
  {
    if ci == |plan| then 0 else CountFrom(plan[ci].days, 0) + TotalFrom(plan, ci + 1)
  }

  function EncodeTotal(plan: seq<PlanCam>): nat {
    TotalFrom(plan, 0)
  }

  // ---------------------------------------------------------------------------
  // One day of the encode loop
  // ---------------------------------------------------------------------------

  /** What the encoder reports for a day: its exit code, its message, and whether it stopped on the cancel flag. */
  datatype Encoder = Encoder(code: int, message: string, cancelled: bool)

  /**
   * The outside world as the loop sees it: whether a list file exists, whether the job's cancel
   * flag is set before day `k` of camera `ci` starts, and what the encoder reports for that day.
   */
  datatype Env = Env(listExists: string -> bool, cancelFlag: (nat, nat) -> bool, encoder: (nat, nat) -> Encoder)

  /** The request's output naming: the output directory, experiment, treatment and batch. */
  datatype OutNaming = OutNaming(baseDir: string, experiment: string, treatment: string, batch: int)

  /** `segments` as the loop reads it: when the key is absent, 0 for a day marked missing and 1 otherwise. */
  function EncodeSegments(d: PlanDay): int {
    match d.segments
    case Some(k) => k
    case None => if MarkedMissing(d) then 0 else 1
  }

  predicate EndsWithTxt(name: string) {
    |name| >= 4 && name[|name| - 4..] == ".txt"
  }

  /** The video's name: the list's name with `.txt` replaced by `.mp4`, else the day's stem with `.mp4`. */
  function OutName(o: OutNaming, cam: int, d: PlanDay): string {
    var name := PathName(d.listPath);
    if EndsWithTxt(name) then name[..|name| - 4] + ".mp4"
    else Reconcile.DayStem(o.experiment, o.treatment, o.batch, cam, DayNumber(d)) + ".mp4"
  }

  function OutPath(o: OutNaming, cam: int, d: PlanDay): string {
    o.baseDir + "/" + OutName(o, cam, d)
  }

  datatype DayState = Missing | Failed | Running | Cancelled | Done

  /** A day of the job's result; `listPath`, `message` and `ffmpeg` are `None` where the entry has no such key. */
  datatype DayEntry = DayEntry(day: Option<int>, status: DayState, segments: int, output: string,
                               listPath: Option<string>, message: Option<string>, ffmpeg: Option<string>)

  /** What one pass of the day loop leaves: the day's final entry, whether `prog` advances, whether the loop stops. */
  datatype Step = Step(entry: DayEntry, counts: bool, stop: bool)

  /** A day is finished when it ends `DONE` or `FAILED`: exactly the days that advance `prog`. */
  predicate Finished(e: DayEntry) {
    e.status == Done || e.status == Failed
  }

  function DayStep(o: OutNaming, cam: int, d: PlanDay, listExists: bool, cancelled: bool, enc: Encoder): Step
  {
    var segs := EncodeSegments(d);
    var out := OutPath(o, cam, d);
    if segs <= 0 then Step(DayEntry(d.day, Missing, 0, out, Some(d.listPath), None, None), false, false)
    else if !listExists then
      Step(DayEntry(d.day, Failed, segs, out, Some(d.listPath), Some("list not found"), None), true, false)
    else if cancelled then Step(DayEntry(d.day, Cancelled, segs, out, None, None, None), false, true)
    else
      var st := if enc.cancelled then Cancelled else if enc.code == 0 then Done else Failed;
      Step(DayEntry(d.day, st, segs, out, Some(d.listPath), None, Some(enc.message)), !enc.cancelled, enc.cancelled)
  }

  /** How a day ends: the encode loop's classification of one day. */
  lemma DayStepMeaning(o: OutNaming, cam: int, d: PlanDay, listExists: bool, cancelled: bool, enc: Encoder)
    ensures var r := DayStep(o, cam, d, listExists, cancelled, enc);
      && r.entry.day == d.day && r.entry.output == OutPath(o, cam, d)
      && (r.entry.status == Done <==> EncodeSegments(d) > 0 && listExists && !cancelled && !enc.cancelled && enc.code == 0)
      && (r.entry.status == Missing <==> EncodeSegments(d) <= 0)
      && (r.entry.status == Cancelled <==> EncodeSegments(d) > 0 && listExists && (cancelled || enc.cancelled))
      && r.entry.status != Running
      && (r.stop <==> r.entry.status == Cancelled)
      && (r.counts <==> Finished(r.entry))
      && r.entry.segments == (if EncodeSegments(d) <= 0 then 0 else EncodeSegments(d))
      && (r.entry.message == Some("list not found") <==> EncodeSegments(d) > 0 && !listExists)
  {
  }

  /** The steps of a camera's days, by day index; an index past the last day has no entry to make. */
  function DaySteps(o: OutNaming, env: Env, ci: nat, cam: int, days: seq<PlanDay>): nat -> Step {
    (k: nat) => if k < |days| then DayStep(o, cam, days[k], env.listExists(days[k].listPath), env.cancelFlag(ci, k), env.encoder(ci, k))
         else Step(DayEntry(None, Missing, 0, "", None, None, None), false, false)
  }

  /** The finished entries of a result. */
  function FinishedCount(es: seq<DayEntry>): (r: nat)
    ensures r <= |es|
  {
    if es == [] then 0 else (if Finished(es[0]) then 1 else 0) + FinishedCount(es[1..])
  }

  /** The loop over the days `k` to `n`: its entries, how far `prog` moves, whether it ended on a cancel. */
  datatype Run = Run(days: seq<DayEntry>, progress: nat, stopped: bool)

  function RunSteps(steps: nat -> Step, n: nat, k: nat): Run
    requires k <= n
    decreases n - k
  {
    if k == n then Run([], 0, false)
    else
      var s := steps(k);
      if s.stop then Run([s.entry], 0, true)
      else
        var rest := RunSteps(steps, n, k + 1);
        Run([s.entry] + rest.days, (if s.counts then 1 else 0) + rest.progress, rest.stopped)
  }

  /** One camera's loop. */
  function RunDays(o: OutNaming, env: Env, ci: nat, cam: int, days: seq<PlanDay>): Run {
    RunSteps(DaySteps(o, env, ci, cam, days), |days|, 0)
  }

  /** A step stops exactly on a cancel and advances `prog` exactly on a finished day. */
  predicate Sound(s: Step) {
    (s.stop <==> s.entry.status == Cancelled) && (s.counts <==> Finished(s.entry))
  }

  /** Entry `j` is the entry of step `k + j`; every step is taken when none stops. */
  lemma {:induction false} RunStepsEntries(steps: nat -> Step, n: nat, k: nat)
    requires k <= n
    ensures var r := RunSteps(steps, n, k);
      && |r.days| <= n - k && (!r.stopped ==> |r.days| == n - k)
      && forall j :: 0 <= j < |r.days| ==> r.days[j] == steps(k + j).entry
    decreases n - k
  {
    if k < n && !steps(k).stop {
      RunStepsEntries(steps, n, k + 1);
      var rest := RunSteps(steps, n, k + 1);
      assert forall j :: 1 <= j < 1 + |rest.days| ==> ([steps(k).entry] + rest.days)[j] == rest.days[j - 1];
    }
  }

  /** With sound steps, the loop stops on the first cancelled day and only there. */
  lemma {:induction false} RunStepsStop(steps: nat -> Step, n: nat, k: nat)
    requires k <= n
    requires forall j :: k <= j < n ==> Sound(steps(j))
    ensures var r := RunSteps(steps, n, k);
      && (r.stopped <==> r.days != [] && r.days[|r.days| - 1].status == Cancelled)
      && (forall j :: 0 <= j < |r.days| - 1 ==> r.days[j].status != Cancelled)
    decreases n - k
  {
    if k < n && !steps(k).stop {
      RunStepsStop(steps, n, k + 1);
      var rest := RunSteps(steps, n, k + 1);
      assert forall j :: 1 <= j < 1 + |rest.days| ==> ([steps(k).entry] + rest.days)[j] == rest.days[j - 1];
    }
  }

  /** With sound steps, `prog` counts the finished days. */
  lemma {:induction false} RunStepsProgress(steps: nat -> Step, n: nat, k: nat)
    requires k <= n
    requires forall j :: k <= j < n ==> Sound(steps(j))
    ensures RunSteps(steps, n, k).progress == FinishedCount(RunSteps(steps, n, k).days)
    decreases n - k
  {
    if k < n {
      var s := steps(k);
      assert Sound(s);
      if !s.stop {
        RunStepsProgress(steps, n, k + 1);
        var rest := RunSteps(steps, n, k + 1);
        assert ([s.entry] + rest.days)[1..] == rest.days;
      } else {
        assert [s.entry][1..] == [];
      }
    }
  }

  /** Every step of a camera is sound and makes the entry of its own day. */
  lemma DayStepsSound(o: OutNaming, env: Env, ci: nat, cam: int, days: seq<PlanDay>, k: nat)
    requires k < |days|
    ensures Sound(DaySteps(o, env, ci, cam, days)(k))
    ensures DaySteps(o, env, ci, cam, days)(k).entry.day == days[k].day
  {
    DayStepMeaning(o, cam, days[k], env.listExists(days[k].listPath), env.cancelFlag(ci, k), env.encoder(ci, k));
  }

  /**
   * A camera's entries follow its days in order, one each, until a cancel: the loop stops on the
   * first cancelled day, and `prog` moves once per finished day.
   */
  lemma RunDaysMeaning(o: OutNaming, env: Env, ci: nat, cam: int, days: seq<PlanDay>)
    ensures var r := RunDays(o, env, ci, cam, days);
      && |r.days| <= |days|
      && (!r.stopped ==> |r.days| == |days|)
      && (forall j :: 0 <= j < |r.days| ==> r.days[j].day == days[j].day)
      && (r.stopped <==> r.days != [] && r.days[|r.days| - 1].status == Cancelled)
      && (forall j :: 0 <= j < |r.days| - 1 ==> r.days[j].status != Cancelled)
      && r.progress == FinishedCount(r.days)
  {
    var steps := DaySteps(o, env, ci, cam, days);
    forall j | 0 <= j < |days| ensures Sound(steps(j)) && steps(j).entry.day == days[j].day {
      DayStepsSound(o, env, ci, cam, days, j);
    }
    RunStepsEntries(steps, |days|, 0);
    RunStepsStop(steps, |days|, 0);
    RunStepsProgress(steps, |days|, 0);
  }

  /** One pass of the loop from day `k`: its step, then the rest unless it stops. */
  lemma RunStepsUnfold(steps: nat -> Step, n: nat, k: nat)
    requires k < n
    ensures steps(k).stop ==> RunSteps(steps, n, k) == Run([steps(k).entry], 0, true)
    ensures !steps(k).stop ==> RunSteps(steps, n, k) == Run([steps(k).entry] + RunSteps(steps, n, k + 1).days,
      (if steps(k).counts then 1 else 0) + RunSteps(steps, n, k + 1).progress, RunSteps(steps, n, k + 1).stopped)
  {
  }

  /** The camera loop of `_run_encode_job`, one pass: the days of one plan entry until a cancel ends them. */
  method EncodeCamera(o: OutNaming, env: Env, ci: nat, c: PlanCam) returns (r: Run)
    ensures r == RunDays(o, env, ci, c.camera, c.days)
  {
    ghost var steps := DaySteps(o, env, ci, c.camera, c.days);
    ghost var n := |c.days|;
    var outDays: seq<DayEntry> := [];
    var prog := 0;
    var k := 0;
    var stopped := false;
    while k < |c.days| && !stopped
      invariant 0 <= k <= |c.days|
      invariant !stopped ==> outDays + RunSteps(steps, n, k).days == RunSteps(steps, n, 0).days
      invariant !stopped ==> prog + RunSteps(steps, n, k).progress == RunSteps(steps, n, 0).progress
      invariant !stopped ==> RunSteps(steps, n, k).stopped == RunSteps(steps, n, 0).stopped
      invariant stopped ==> Run(outDays, prog, true) == RunSteps(steps, n, 0)
      decreases |c.days| - k, if stopped then 0 else 1
    {
      var d := c.days[k];
      var s := EncodeDay(o, c.camera, d, env.listExists(d.listPath), env.cancelFlag(ci, k), env.encoder(ci, k));
      assert s == steps(k);
      RunStepsUnfold(steps, n, k);
      if s.stop {
        outDays := outDays + [s.entry];
        stopped := true;
      } else {
        ConsAppend(outDays, s.entry, RunSteps(steps, n, k + 1).days);
        outDays := outDays + [s.entry];
        if s.counts {
          prog := prog + 1;
        }
        k := k + 1;
      }
    }
    if !stopped {
      assert RunSteps(steps, n, k) == Run([], 0, false);
    }
    r := Run(outDays, prog, stopped);
  }

  /** `xs + ([x] + ys) == (xs + [x]) + ys` */
  lemma ConsAppend<T>(xs: seq<T>, x: T, ys: seq<T>)
    ensures xs + ([x] + ys) == (xs + [x]) + ys
  {
  }

  /**
   * One day: a `MISSING` entry without segments, `FAILED` when the list is not there, a
   * `RUNNING` entry while the encoder works, replaced by its final state.
   */
  method EncodeDay(o: OutNaming, cam: int, d: PlanDay, listExists: bool, cancelled: bool, enc: Encoder) returns (s: Step)
    ensures s == DayStep(o, cam, d, listExists, cancelled, enc)
  {
    var segments := EncodeSegments(d);
    var outPath := OutPath(o, cam, d);
    if segments <= 0 {
      return Step(DayEntry(d.day, Missing, 0, outPath, Some(d.listPath), None, None), false, false);
    }
    if !listExists {
      return Step(DayEntry(d.day, Failed, segments, outPath, Some(d.listPath), Some("list not found"), None), true, false);
    }
    var outDays := [DayEntry(d.day, Running, segments, outPath, Some(d.listPath), None, None)];
    if cancelled {
      outDays := outDays[|outDays| - 1 := DayEntry(d.day, Cancelled, segments, outPath, None, None, None)];
      return Step(outDays[0], false, true);
    }
    var st := if enc.cancelled then Cancelled else if enc.code == 0 then Done else Failed;
    outDays := outDays[|outDays| - 1 := DayEntry(d.day, st, segments, outPath, Some(d.listPath), None, Some(enc.message))];
    s := Step(outDays[0], !enc.cancelled, enc.cancelled);
  }

  // ---------------------------------------------------------------------------
  // The whole job
  // ---------------------------------------------------------------------------

  /** A camera's entry in `results`. */
  datatype CamResult = CamResult(camera: int, days: seq<DayEntry>)

  datatype Cameras = Cameras(results: seq<CamResult>, progress: nat, cancelled: bool)

  /** The camera loop from camera `ci` on. A cancel ends only its own camera's days; the next camera still runs. */
  function RunCameras(o: OutNaming, env: Env, plan: seq<PlanCam>, ci: nat): Cameras
    requires ci <= |plan|
    decreases |plan| - ci
  {
    if ci == |plan| then Cameras([], 0, false)
    else
      var r := RunDays(o, env, ci, plan[ci].camera, plan[ci].days);
      var rest := RunCameras(o, env, plan, ci + 1);
      Cameras([CamResult(plan[ci].camera, r.days)] + rest.results, r.progress + rest.progress, r.stopped || rest.cancelled)
  }

  datatype JobStatus = Queued | JobRunning | JobDone | JobCancelled

  /** The job record once the thread is done: status, `progress`, `total` and the final `plan` snapshot. */
  datatype Job = Job(status: JobStatus, progress: nat, total: nat, plan: seq<SnapCam>)

  function JobOf(o: OutNaming, env: Env, plan: seq<PlanCam>): Job {
    var r := RunCameras(o, env, plan, 0);
    Job(if r.cancelled then JobCancelled else JobDone, r.progress, EncodeTotal(plan), SnapshotOf(r.results, None, plan))
  }

  /** The client's plan stored as it was sent: every day unprocessed, its status untouched. */
  function AsSent(plan: seq<PlanCam>): (r: seq<SnapCam>)
    ensures |r| == |plan|
    ensures forall c :: 0 <= c < |plan| ==> r[c].camera == plan[c].camera && |r[c].days| == |plan[c].days|
    ensures forall c, j :: 0 <= c < |plan| && 0 <= j < |plan[c].days| ==> r[c].days[j] == Unprocessed(plan[c].days[j])
  {
    MapSeq((bc: PlanCam) => SnapCam(bc.camera, MapSeq((bd: PlanDay) => Unprocessed(bd), bc.days)), plan)
  }

  /** The job as queued: `QUEUED`, no progress, the total, and the plan as sent. */
  function QueuedJob(plan: seq<PlanCam>): (r: Job)
    ensures r.status == Queued && r.progress == 0 && r.total == EncodeTotal(plan)
    ensures r.plan == AsSent(plan)
  {
    Job(Queued, 0, EncodeTotal(plan), AsSent(plan))
  }

  /** `_run_encode_job`, run to the end with every snapshot but the last one left out. */
  method RunEncodeJob(o: OutNaming, env: Env, plan: seq<PlanCam>) returns (job: Job)
    ensures job == JobOf(o, env, plan)
  {
    var total := EncodeTotal(plan);
    job := Job(JobRunning, 0, total, AsSent(plan));
    var results: seq<CamResult> := [];
    var prog := 0;
    var cancelled := false;
    var ci := 0;
    while ci < |plan|
      invariant 0 <= ci <= |plan|
      invariant results + RunCameras(o, env, plan, ci).results == RunCameras(o, env, plan, 0).results
      invariant prog + RunCameras(o, env, plan, ci).progress == RunCameras(o, env, plan, 0).progress
      invariant (cancelled || RunCameras(o, env, plan, ci).cancelled) == RunCameras(o, env, plan, 0).cancelled
    {
      var r := EncodeCamera(o, env, ci, plan[ci]);
      ConsAppend(results, CamResult(plan[ci].camera, r.days), RunCameras(o, env, plan, ci + 1).results);
      results := results + [CamResult(plan[ci].camera, r.days)];
      prog := prog + r.progress;
      cancelled := cancelled || r.stopped;
      ci := ci + 1;
    }
    assert results == RunCameras(o, env, plan, 0).results;
    var snap := Snapshot(results, None, plan);
    job := Job(if cancelled then JobCancelled else JobDone, prog, total, snap);
  }

  // ---------------------------------------------------------------------------
  // _snapshot_plan
  // ---------------------------------------------------------------------------

  /** A day of a snapshot: a processed entry, or the submitted day with its status set to `MISSING` or `PENDING`. */
  datatype SnapDay = Processed(entry: DayEntry) | Unprocessed(day: PlanDay)

  datatype SnapCam = SnapCam(camera: int, days: seq<SnapDay>)

  /** `dmap[int(de.get('day'))] = de`, skipping an entry without a day number. */
  function Put(m: map<int, DayEntry>, e: DayEntry): map<int, DayEntry> {
    match e.day
    case Some(k) => m[k := e]
    case None => m
  }

  function DayMapOf(m: map<int, DayEntry>, es: seq<DayEntry>): map<int, DayEntry>
    decreases |es|
  {
    if es == [] then m else DayMapOf(Put(m, es[0]), es[1..])
  }

  /** `processed`: for each camera of `results`, the day map of its last entry. */
  function ProcessedOf(results: seq<CamResult>): map<int, map<int, DayEntry>> {
    if results == [] then map[]
    else ProcessedOf(results[..|results| - 1])[results[|results| - 1].camera := DayMapOf(map[], results[|results| - 1].days)]
  }

  /** The current camera's days merged over what `results` already holds for it. */
  function WithCurrent(p: map<int, map<int, DayEntry>>, cur: Option<CamResult>): map<int, map<int, DayEntry>> {
    match cur
    case None => p
    case Some(c) => p[c.camera := DayMapOf(DoneMap(p, c.camera), c.days)]
  }

  function DoneMap(p: map<int, map<int, DayEntry>>, cam: int): map<int, DayEntry> {
    if cam in p then p[cam] else map[]
  }

  /** A submitted day is pending in a snapshot exactly when it is counted in the total. */
  function Normalised(bd: PlanDay): PlanDay {
    bd.(status := if MarkedMissing(bd) || SegmentsOrZero(bd) <= 0 then "MISSING" else "PENDING")
  }

  function SnapDayOf(done: map<int, DayEntry>, bd: PlanDay): SnapDay {
    if DayNumber(bd) in done then Processed(done[DayNumber(bd)]) else Unprocessed(Normalised(bd))
  }

  function SnapCamOf(p: map<int, map<int, DayEntry>>, bc: PlanCam): SnapCam {
    SnapCam(bc.camera, MapSeq(bd => SnapDayOf(DoneMap(p, bc.camera), bd), bc.days))
  }

  function SnapshotOf(results: seq<CamResult>, cur: Option<CamResult>, base: seq<PlanCam>): seq<SnapCam> {
    var p := WithCurrent(ProcessedOf(results), cur);
    MapSeq(bc => SnapCamOf(p, bc), base)
  }

  /** The day map loop: `dmap[int(de.get('day'))] = de` for each entry. */
  method PutAll(m: map<int, DayEntry>, es: seq<DayEntry>) returns (dmap: map<int, DayEntry>)
    ensures dmap == DayMapOf(m, es)
  {
    dmap := m;
    var i := 0;
    while i < |es|
      invariant 0 <= i <= |es|
      invariant DayMapOf(dmap, es[i..]) == DayMapOf(m, es)
    {
      assert es[i..][1..] == es[i + 1..];
      match es[i].day {
        case Some(k) => dmap := dmap[k := es[i]];
        case None =>
      }
      i := i + 1;
    }
  }

  /** `_snapshot_plan(cur_cam, cur_days)`; `cur` is `None` when called without them. */
  method Snapshot(results: seq<CamResult>, cur: Option<CamResult>, base: seq<PlanCam>) returns (full: seq<SnapCam>)
    ensures full == SnapshotOf(results, cur, base)
  {
    var processed: map<int, map<int, DayEntry>> := map[];
    var i := 0;
    while i < |results|
      invariant 0 <= i <= |results|
      invariant processed == ProcessedOf(results[..i])
    {
      var dmap := PutAll(map[], results[i].days);
      TakeSnoc(results, i);
      assert results[..i + 1][..i] == results[..i];
      processed := processed[results[i].camera := dmap];
      i := i + 1;
    }
    TakeAll(results, i);
    if cur.Some? {
      var dmap := if cur.value.camera in processed then processed[cur.value.camera] else map[];
      dmap := PutAll(dmap, cur.value.days);
      processed := processed[cur.value.camera := dmap];
    }
    assert processed == WithCurrent(ProcessedOf(results), cur);
    full := [];
    var c := 0;
    while c < |base|
      invariant 0 <= c <= |base|
      invariant full == MapSeq(bc => SnapCamOf(processed, bc), base[..c])
    {
      var bc := base[c];
      var doneMap := DoneMap(processed, bc.camera);
      var outDays: seq<SnapDay> := [];
      var j := 0;
      while j < |bc.days|
        invariant 0 <= j <= |bc.days|
        invariant outDays == MapSeq(bd => SnapDayOf(doneMap, bd), bc.days[..j])
      {
        MapSnoc(bd => SnapDayOf(doneMap, bd), bc.days, j);
        outDays := outDays + [SnapDayOf(doneMap, bc.days[j])];
        j := j + 1;
      }
      TakeAll(bc.days, j);
      MapSnoc(bc => SnapCamOf(processed, bc), base, c);
      full := full + [SnapCam(bc.camera, outDays)];
      c := c + 1;
    }
    TakeAll(base, c);
  }
}

module ImporterEncodeFacts {
  import opened Wrappers
  import opened Text
  import opened Collections
  import opened ImporterFiles
  import opened ImporterEncode
  import Reconcile = ImporterReconcile

  // ---------------------------------------------------------------------------
  // The job
  // ---------------------------------------------------------------------------

  /**
   * The camera loop runs every camera of the plan, in order, whatever happened to the ones
   * before it; the job is cancelled exactly when some camera's days ended on a cancel.
   */
  lemma {:induction false} RunCamerasMeaning(o: OutNaming, env: Env, plan: seq<PlanCam>, ci: nat)
    requires ci <= |plan|
    ensures var r := RunCameras(o, env, plan, ci);
      && |r.results| == |plan| - ci
      && (forall j :: 0 <= j < |r.results| ==>
            r.results[j] == CamResult(plan[ci + j].camera, RunDays(o, env, ci + j, plan[ci + j].camera, plan[ci + j].days).days))
      && (r.cancelled <==> exists j :: ci <= j < |plan| && RunDays(o, env, j, plan[j].camera, plan[j].days).stopped)
    decreases |plan| - ci
  {
    if ci < |plan| {
      RunCamerasMeaning(o, env, plan, ci + 1);
      var rest := RunCameras(o, env, plan, ci + 1);
      var head := CamResult(plan[ci].camera, RunDays(o, env, ci, plan[ci].camera, plan[ci].days).days);
      assert forall j :: 1 <= j < 1 + |rest.results| ==> ([head] + rest.results)[j] == rest.results[j - 1];
    }
  }

  /** The final status: `CANCELLED` exactly when some camera's loop ended on a cancel, `DONE` otherwise. */
  lemma JobStatusMeaning(o: OutNaming, env: Env, plan: seq<PlanCam>)
    ensures JobOf(o, env, plan).status == JobCancelled <==>
      exists j :: 0 <= j < |plan| && RunDays(o, env, j, plan[j].camera, plan[j].days).stopped
    ensures JobOf(o, env, plan).status == JobCancelled || JobOf(o, env, plan).status == JobDone
  {
    RunCamerasMeaning(o, env, plan, 0);
  }

  /** A day the planner wrote: it has a segment count, and is marked missing whenever that count is not positive. */
  predicate PlannerShaped(d: PlanDay) {
    d.segments.Some? && (d.segments.value <= 0 || !MarkedMissing(d))
  }

  predicate PlanShaped(plan: seq<PlanCam>) {
    forall c, k :: 0 <= c < |plan| && 0 <= k < |plan[c].days| ==> PlannerShaped(plan[c].days[k])
  }

  /** The loop's count over days `k..` is at most the total's count over them when only counted days advance it. */
  lemma {:induction false} RunStepsWithinCount(steps: nat -> Step, days: seq<PlanDay>, k: nat)
    requires k <= |days|
    requires forall j :: k <= j < |days| ==> steps(j).counts ==> Counted(days[j])
    ensures RunSteps(steps, |days|, k).progress <= CountFrom(days, k)
    decreases |days| - k
  {
    if k < |days| && !steps(k).stop {
      RunStepsWithinCount(steps, days, k + 1);
    }
  }

  lemma {:induction false} RunCamerasWithinTotal(o: OutNaming, env: Env, plan: seq<PlanCam>, ci: nat)
    requires ci <= |plan| && PlanShaped(plan)
    ensures RunCameras(o, env, plan, ci).progress <= TotalFrom(plan, ci)
    decreases |plan| - ci
  {
    if ci < |plan| {
      var days := plan[ci].days;
      var steps := DaySteps(o, env, ci, plan[ci].camera, days);
      forall j | 0 <= j < |days| ensures steps(j).counts ==> Counted(days[j]) {
        DayStepMeaning(o, plan[ci].camera, days[j], env.listExists(days[j].listPath), env.cancelFlag(ci, j), env.encoder(ci, j));
        assert PlannerShaped(days[j]);
      }
      RunStepsWithinCount(steps, days, 0);
      RunCamerasWithinTotal(o, env, plan, ci + 1);
    }
  }

  /** For a plan as the planner writes it, `progress` never passes `total`. */
  lemma ProgressWithinTotal(o: OutNaming, env: Env, plan: seq<PlanCam>)
    requires PlanShaped(plan)
    ensures JobOf(o, env, plan).progress <= JobOf(o, env, plan).total
  {
    RunCamerasWithinTotal(o, env, plan, 0);
  }

  /**
   * A day without a `segments` key that is not marked missing is encoded, and advances
   * `progress`, but the total does not count it: for such a plan `progress` passes `total`.
   */
  lemma ProgressBeyondTotal()
    ensures var plan := [PlanCam(1, [PlanDay(Some(1), "", None, "a.txt")])];
      var env := Env(_ => true, (_, _) => false, (_, _) => Encoder(0, "", false));
      var job := JobOf(OutNaming("out", "E", "T", 1), env, plan);
      job.total == 0 && job.progress == 1
  {
    var plan := [PlanCam(1, [PlanDay(Some(1), "", None, "a.txt")])];
    var d := plan[0].days[0];
    assert Upper(d.status) == "";
    assert !Counted(d) && EncodeSegments(d) == 1;
    assert CountFrom(plan[0].days, 1) == 0;
    assert TotalFrom(plan, 1) == 0;
    var o := OutNaming("out", "E", "T", 1);
    var env := Env(_ => true, (_, _) => false, (_, _) => Encoder(0, "", false));
    var steps := DaySteps(o, env, 0, 1, plan[0].days);
    DayStepMeaning(o, 1, d, true, false, Encoder(0, "", false));
    assert steps(0).counts && !steps(0).stop;
    assert RunSteps(steps, 1, 1) == Run([], 0, false);
    assert RunDays(o, env, 0, 1, plan[0].days).progress == 1;
    assert RunCameras(o, env, plan, 1) == Cameras([], 0, false);
  }

  // ---------------------------------------------------------------------------
  // Snapshots
  // ---------------------------------------------------------------------------

  /** Every entry of a day map sits under its own day number. */
  predicate Keyed(m: map<int, DayEntry>) {
    forall k :: k in m ==> m[k].day == Some(k)
  }

  /**
   * Writing entries into a keyed day map: it stays keyed, every numbered entry gets a key, and
   * under a key some entry has the value is one of those entries.
   */
  lemma {:induction false} DayMapOfMeaning(m: map<int, DayEntry>, es: seq<DayEntry>)
    requires Keyed(m)
    ensures var r := DayMapOf(m, es);
      && Keyed(r)
      && (forall k :: k in m ==> k in r)
      && (forall k :: k in r ==> r[k] in es || (k in m && r[k] == m[k]))
      && (forall j :: 0 <= j < |es| && es[j].day.Some? ==> es[j].day.value in r && r[es[j].day.value] in es)
    decreases |es|
  {
    if es != [] {
      var m' := Put(m, es[0]);
      DayMapOfMeaning(m', es[1..]);
      var r := DayMapOf(m', es[1..]);
      assert forall x :: x in es[1..] ==> x in es;
      forall j | 0 <= j < |es| && es[j].day.Some?
        ensures es[j].day.value in r && r[es[j].day.value] in es
      {
        if j > 0 {
          assert es[1..][j - 1] == es[j];
        }
      }
    }
  }

  lemma {:induction false} ProcessedKeyed(results: seq<CamResult>)
    ensures forall c :: c in ProcessedOf(results) ==> Keyed(ProcessedOf(results)[c])
    decreases |results|
  {
    if results != [] {
      ProcessedKeyed(results[..|results| - 1]);
      DayMapOfMeaning(map[], results[|results| - 1].days);
    }
  }

  lemma CurrentKeyed(results: seq<CamResult>, cur: Option<CamResult>)
    ensures forall c :: c in WithCurrent(ProcessedOf(results), cur) ==> Keyed(WithCurrent(ProcessedOf(results), cur)[c])
  {
    ProcessedKeyed(results);
    if cur.Some? {
      DayMapOfMeaning(DoneMap(ProcessedOf(results), cur.value.camera), cur.value.days);
    }
  }

  /** A snapshot has one entry per camera of the plan, in order, each with one day per day of the plan. */
  lemma SnapshotShape(results: seq<CamResult>, cur: Option<CamResult>, base: seq<PlanCam>)
    ensures var full := SnapshotOf(results, cur, base);
      |full| == |base|
      && forall c :: 0 <= c < |base| ==> full[c].camera == base[c].camera && |full[c].days| == |base[c].days|
  {
  }

  /**
   * A day of a snapshot: a processed entry is the one for that very day number; an unprocessed day
   * keeps its fields and is `PENDING` exactly when the total counts it, `MISSING` otherwise; and a
   * day the current camera has an entry for shows one of the current entries.
   */
  lemma SnapshotDay(results: seq<CamResult>, cur: Option<CamResult>, base: seq<PlanCam>, c: nat, j: nat)
    requires c < |base| && j < |base[c].days|
    ensures var sd := SnapshotOf(results, cur, base)[c].days[j];
      var bd := base[c].days[j];
      && (sd.Processed? ==> sd.entry.day == Some(DayNumber(bd)))
      && (sd.Unprocessed? ==> (sd.day.day == bd.day && sd.day.segments == bd.segments && sd.day.listPath == bd.listPath
            && (sd.day.status == "PENDING" <==> Counted(bd)) && (sd.day.status == "MISSING" <==> !Counted(bd))))
      && ((cur.Some? && cur.value.camera == base[c].camera
           && (exists i :: 0 <= i < |cur.value.days| && cur.value.days[i].day == Some(DayNumber(bd))))
          ==> (sd.Processed? && sd.entry in cur.value.days))
  {
    var p := WithCurrent(ProcessedOf(results), cur);
    CurrentKeyed(results, cur);
    var bd := base[c].days[j];
    var done := DoneMap(p, base[c].camera);
    assert SnapshotOf(results, cur, base)[c].days[j] == SnapDayOf(done, bd);
    if cur.Some? && cur.value.camera == base[c].camera {
      ProcessedKeyed(results);
      DayMapOfMeaning(DoneMap(ProcessedOf(results), cur.value.camera), cur.value.days);
    }
  }

  /** The pending days of a snapshot's days from `k` on. */
  function PendingFrom(sd: seq<SnapDay>, k: nat): nat
    requires k <= |sd|
    decreases |sd| - k
  {
    if k == |sd| then 0 else (if sd[k].Unprocessed? && sd[k].day.status == "PENDING" then 1 else 0) + PendingFrom(sd, k + 1)
  }

  function PendingIn(snap: seq<SnapCam>, ci: nat): nat
    requires ci <= |snap|
    decreases |snap| - ci
  {
    if ci == |snap| then 0 else PendingFrom(snap[ci].days, 0) + PendingIn(snap, ci + 1)
  }

  lemma {:induction false} NothingProcessedDays(days: seq<PlanDay>, k: nat)
    requires k <= |days|
    ensures PendingFrom(MapSeq(bd => SnapDayOf(map[], bd), days), k) == CountFrom(days, k)
    decreases |days| - k
  {
    if k < |days| {
      NothingProcessedDays(days, k + 1);
    }
  }

  lemma {:induction false} NothingProcessedCameras(base: seq<PlanCam>, ci: nat)
    requires ci <= |base|
    ensures PendingIn(SnapshotOf([], None, base), ci) == TotalFrom(base, ci)
    decreases |base| - ci
  {
    if ci < |base| {
      assert SnapshotOf([], None, base)[ci].days == MapSeq(bd => SnapDayOf(map[], bd), base[ci].days);
      NothingProcessedDays(base[ci].days, 0);
      NothingProcessedCameras(base, ci + 1);
    }
  }

  /** A day exactly as the planner writes it: `PENDING` with its positive segment count, or `MISSING` with 0. */
  predicate AsPlanned(d: PlanDay) {
    d.segments.Some?
    && ((d.status == "PENDING" && d.segments.value > 0) || (d.status == "MISSING" && d.segments.value == 0))
  }

  predicate PlanAsPlanned(plan: seq<PlanCam>) {
    forall c, k :: 0 <= c < |plan| && 0 <= k < |plan[c].days| ==> AsPlanned(plan[c].days[k])
  }

  /** A day as the planner writes it is one the loop treats as planned, and one a snapshot leaves as it is. */
  lemma AsPlannedDay(d: PlanDay)
    requires AsPlanned(d)
    ensures PlannerShaped(d) && Normalised(d) == d
  {
    assert Upper("PENDING") == "PENDING";
    assert Upper("MISSING") == "MISSING";
  }

  /** For a plan as the planner writes it, the first snapshot shows the plan as sent. */
  lemma {:induction false} SnapshotOfPlanned(base: seq<PlanCam>)
    requires PlanAsPlanned(base)
    ensures SnapshotOf([], None, base) == AsSent(base)
  {
    var snap := SnapshotOf([], None, base);
    var sent := AsSent(base);
    forall c | 0 <= c < |base| ensures snap[c] == sent[c] {
      var days := snap[c].days;
      assert days == MapSeq(bd => SnapDayOf(map[], bd), base[c].days);
      forall j | 0 <= j < |base[c].days| ensures days[j] == sent[c].days[j] {
        AsPlannedDay(base[c].days[j]);
      }
    }
  }

  /**
   * For a plan as the planner writes it, the queued plan's `PENDING` days are exactly the days
   * the total counts.
   */
  lemma QueuedPendingIsTotal(base: seq<PlanCam>)
    requires PlanAsPlanned(base)
    ensures PendingIn(QueuedJob(base).plan, 0) == QueuedJob(base).total
  {
    SnapshotOfPlanned(base);
    NothingProcessedCameras(base, 0);
  }

  /**
   * The queued plan is the client's: a day the client sends as `DONE` with segments stays `DONE`
   * while the total still counts it, so no day of the queued plan is `PENDING` against a total of 1.
   */
  lemma QueuedKeepsClientStatus()
    ensures var job := QueuedJob([PlanCam(1, [PlanDay(Some(1), "DONE", Some(2), "/t/x.txt")])]);
      && job.plan[0].days[0] == Unprocessed(PlanDay(Some(1), "DONE", Some(2), "/t/x.txt"))
      && job.total == 1 && PendingIn(job.plan, 0) == 0
  {
    var plan := [PlanCam(1, [PlanDay(Some(1), "DONE", Some(2), "/t/x.txt")])];
    assert Upper("DONE") == "DONE";
    assert Counted(plan[0].days[0]);
    assert CountFrom(plan[0].days, 1) == 0;
    assert TotalFrom(plan, 1) == 0;
    var job := QueuedJob(plan);
    assert PendingFrom(job.plan[0].days, 1) == 0;
    assert PendingIn(job.plan, 1) == 0;
  }

  // ---------------------------------------------------------------------------
  // Output names
  // ---------------------------------------------------------------------------

  lemma NoSlashInPadInt(i: int, width: nat)
    ensures '/' !in PadInt(i, width)
  {
    var digits := Decimal(if i < 0 then -i else i);
    assert forall j :: 0 <= j < |digits| ==> IsDigit(digits[j]);
  }

  /** `(a + b)[..|a|] == a` and the suffix is `b`. */
  lemma SplitAt<T>(a: seq<T>, b: seq<T>)
    ensures (a + b)[..|a|] == a && (a + b)[|a|..] == b
  {
  }

  lemma DayStemNoSlash(experiment: string, treatment: string, batch: int, cam: int, di: int)
    requires '/' !in experiment && '/' !in treatment
    ensures '/' !in Reconcile.DayStem(experiment, treatment, batch, cam, di) + ".txt"
  {
    NoSlashInPadInt(batch, 3);
    NoSlashInPadInt(cam, 0);
    NoSlashInPadInt(di, 2);
    NoSlashInPadInt(cam, 2);
  }

  /** The video of a `.txt` list is named after the list. */
  lemma OutNameOfTxt(o: OutNaming, cam: int, d: PlanDay, dir: string, stem: string)
    requires '/' !in stem + ".txt"
    requires d.listPath == dir + "/" + (stem + ".txt")
    ensures OutName(o, cam, d) == stem + ".mp4"
  {
    var name := stem + ".txt";
    assert name[|name| - 1] == 't';
    assert dir + "/" + name == dir + ['/'] + name;
    DirSplitLast(dir, name);
    SplitAt(stem, ".txt");
  }

  /**
   * The video of a list the planner wrote is named after the list, which is the name the loop
   * would give the day without one: the two branches of the naming agree.
   */
  lemma OutNameOfPlannedList(o: OutNaming, tmpDir: string, cam: int, d: PlanDay)
    requires '/' !in o.experiment && '/' !in o.treatment
    requires d.listPath == Reconcile.ListPath(Reconcile.Naming(tmpDir, o.experiment, o.treatment, o.batch), cam, DayNumber(d))
    ensures OutName(o, cam, d) == Reconcile.DayStem(o.experiment, o.treatment, o.batch, cam, DayNumber(d)) + ".mp4"
  {
    var stem := Reconcile.DayStem(o.experiment, o.treatment, o.batch, cam, DayNumber(d));
    DayStemNoSlash(o.experiment, o.treatment, o.batch, cam, DayNumber(d));
    OutNameOfTxt(o, cam, d, tmpDir, stem);
  }
}
