/**
 * Tracking jobs (the `/api/track` endpoints): a job runs the tracker over a list of video files one
 * after another, and every run appends JSON event lines to `<file>.log`. The status
 * endpoint reads the last event of every log, derives a per-file status from it, shows
 * the file being worked on as CANCELLED once a cancel has been requested, and folds the
 * per-file statuses into one job status.
 *
 * The worker thread and its subprocesses are not modelled; a job is the snapshot of the
 * fields the status endpoint reads. Reading a log is a parameter: `logs(path)` is `None`
 * when the file does not exist (or cannot be read) and otherwise its lines, each paired
 * with what `json.loads` makes of the stripped line (`None` where it raises).
 */
module Track {
  import opened Wrappers
  import opened Text
  import opened JsonValues
  import opened Collections
  import opened Http

  // ---------------------------------------------------------------------------------
  // The last event of a log (`_parse_last_log_state`)
  // ---------------------------------------------------------------------------------

  /** One line of a log file and the value `json.loads` decodes from it once stripped. */
  datatype LogLine = LogLine(text: string, decoded: Option<Json>)

  /** The fields the status endpoint reads from the last event. */
  datatype LogState = LogState(event: Json, step: Json, index: Json, total: Json, msg: Json)

  /** The state of a file whose log holds no usable event. */
  const Default := LogState(JStr("PENDING"), JNull, JInt(0), JInt(0), JStr(""))

  /** A line that is neither blank nor rejected by the JSON decoder. */
  predicate Usable(l: LogLine) {
    Strip(l.text) != "" && l.decoded.Some?
  }

  /** The value decoded from the last usable line, if there is one. */
  function LastDecoded(lines: seq<LogLine>): Option<Json> {
    if lines == [] then None
    else if Usable(lines[|lines| - 1]) then lines[|lines| - 1].decoded
    else LastDecoded(lines[..|lines| - 1])
  }

  /**
   * The state built from the last decoded value (`null` where there is none): a falsy value
   * gives the default, and so does a truthy value that is not an object, because `.get` on
   * it raises inside the `try` that returns the default.
   */
  function StateOf(last: Json): LogState {
    if !Truthy(last) || !last.JObj? then Default
    else
      LogState(
        Or(GetOr(last, "event", JNull), JStr("PENDING")),
        GetOr(last, "step", JNull),
        Or(GetOr(last, "index", JNull), JInt(0)),
        Or(GetOr(last, "total", JNull), JInt(0)),
        Or(GetOr(last, "msg", JNull), JStr("")))
  }

  /** The state of a log that may be missing. */
  function LogStateOf(log: Option<seq<LogLine>>): LogState {
    match log
    case None => Default
    case Some(lines) => StateOf(LastDecoded(lines).GetOr(JNull))
  }

  /** `_parse_last_log_state`: scan every line, keep the last decoded value, then read its fields. */
  method ParseLastLogState(log: Option<seq<LogLine>>) returns (state: LogState)
    ensures state == LogStateOf(log)
  {
    state := Default;
    if log.None? {
      return;
    }
    var lines := log.value;
    var last: Json := JNull;
    var i := 0;
    while i < |lines|
      invariant 0 <= i <= |lines|
      invariant last == LastDecoded(lines[..i]).GetOr(JNull)
    {
      var line := Strip(lines[i].text);
      if line != "" && lines[i].decoded.Some? {
        last := lines[i].decoded.value;
      }
      assert lines[..i + 1][..i] == lines[..i];
      i := i + 1;
    }
    assert lines[..i] == lines;
    if !Truthy(last) || !last.JObj? {
      return;
    }
    state := LogState(
      Or(GetOr(last, "event", JNull), state.event),
      GetOr(last, "step", JNull),
      Or(GetOr(last, "index", JNull), JInt(0)),
      Or(GetOr(last, "total", JNull), JInt(0)),
      Or(GetOr(last, "msg", JNull), JStr("")));
  }

  /** The last usable line decides: nothing usable means none, otherwise no usable line follows it. */
  lemma {:induction false} LastDecodedMeaning(lines: seq<LogLine>)
    ensures LastDecoded(lines).None? <==> forall i :: 0 <= i < |lines| ==> !Usable(lines[i])
    ensures LastDecoded(lines).Some? ==>
      exists i :: 0 <= i < |lines| && Usable(lines[i]) && lines[i].decoded == LastDecoded(lines) &&
        forall j :: i < j < |lines| ==> !Usable(lines[j])
  {
    if lines != [] {
      var init := lines[..|lines| - 1];
      LastDecodedMeaning(init);
      assert forall i :: 0 <= i < |init| ==> init[i] == lines[i];
    }
  }

  /** Whatever line wins, it is the one after which no usable line follows. */
  lemma LastLineWins(lines: seq<LogLine>, i: nat)
    requires i < |lines| && Usable(lines[i])
    requires forall j :: i < j < |lines| ==> !Usable(lines[j])
    ensures LogStateOf(Some(lines)) == StateOf(lines[i].decoded.value)
  {
    LastDecodedMeaning(lines);
    var k :| 0 <= k < |lines| && Usable(lines[k]) && lines[k].decoded == LastDecoded(lines) &&
      forall j :: k < j < |lines| ==> !Usable(lines[j]);
    assert k == i;
  }

  /** A missing log, or one without a usable line, reads as the default state. */
  lemma NothingUsable(log: Option<seq<LogLine>>)
    requires log.Some? ==> forall i :: 0 <= i < |log.value| ==> !Usable(log.value[i])
    ensures LogStateOf(log) == Default
  {
    if log.Some? {
      LastDecodedMeaning(log.value);
    }
  }

  /** Each field falls back to its default exactly when the event leaves it falsy or missing. */
  lemma StateFallbacks(fields: seq<(string, Json)>)
    ensures var s := StateOf(JObj(fields));
      && (s.event == JStr("PENDING") || (Lookup(fields, "event") == Some(s.event) && Truthy(s.event)))
      && (Lookup(fields, "event").Some? && Truthy(Lookup(fields, "event").value) ==> Lookup(fields, "event") == Some(s.event))
      && (s.step == JNull || Lookup(fields, "step") == Some(s.step))
      && (Lookup(fields, "step").Some? ==> Lookup(fields, "step") == Some(s.step))
      && (s.index == JInt(0) || (Lookup(fields, "index") == Some(s.index) && Truthy(s.index)))
      && (s.total == JInt(0) || (Lookup(fields, "total") == Some(s.total) && Truthy(s.total)))
      && (s.msg == JStr("") || (Lookup(fields, "msg") == Some(s.msg) && Truthy(s.msg)))
  {
  }

  /** Whatever the log holds, the state's event is never blank and its counters are set. */
  lemma StateShapes(log: Option<seq<LogLine>>)
    ensures var s := LogStateOf(log);
      Truthy(s.event) && (s.index == JInt(0) || Truthy(s.index)) &&
      (s.total == JInt(0) || Truthy(s.total)) && (s.msg == JStr("") || Truthy(s.msg))
  {
  }

  // ---------------------------------------------------------------------------------
  // Per-file and job status (`status_track`)
  // ---------------------------------------------------------------------------------

  /** The statuses a file or a job can report. */
  datatype Status = Pending | Running | Done | Error | Cancelled

  /** The upper-cased event name, `(event or '').upper()`; `None` where `.upper()` raises. */
  function EventName(event: Json): Option<string> {
    if !Truthy(event) then Some("")
    else if event.JStr? then Some(Upper(event.s))
    else None
  }

  /** The status an upper-cased event name stands for. */
  function EventStatus(name: string): Status {
    if name == "RUN_END" then Done
    else if name == "ERROR" then Error
    else if name == "RUN_START" || name == "STEP_START" || name == "STEP_END" then Running
    else Pending
  }

  /** Upper-casing twice changes nothing. */
  lemma UpperTwice(s: string)
    ensures Upper(Upper(s)) == Upper(s)
  {
  }

  /**
   * The event-to-status table: the comparison ignores case, only a RUN_END event gives DONE,
   * only an ERROR event gives ERROR, the three start and step events give RUNNING and every
   * other event, including a missing one, gives PENDING; an event never reads as CANCELLED.
   */
  lemma EventStatusMeaning(event: string)
    ensures EventName(JStr(event)) == Some(Upper(event))
    ensures EventStatus(Upper(event)) == Done <==> Upper(event) == "RUN_END"
    ensures EventStatus(Upper(event)) == Error <==> Upper(event) == "ERROR"
    ensures EventStatus(Upper(event)) == Running <==>
      Upper(event) in {"RUN_START", "STEP_START", "STEP_END"}
    ensures EventStatus(Upper(event)) == Pending <==>
      Upper(event) !in {"RUN_END", "ERROR", "RUN_START", "STEP_START", "STEP_END"}
    ensures EventStatus(Upper(event)) != Cancelled
    ensures EventName(JStr(Upper(event))) == EventName(JStr(event))
  {
    UpperTwice(event);
  }

  /** A snapshot of the job fields the status endpoint reads. */
  datatype Job = Job(files: seq<string>, done: bool, error: Option<string>, currentIndex: int, cancelRequested: bool)

  /** The status shown for the file at `idx`, given the status of its last event. */
  function ItemStatus(event: Status, job: Job, idx: int): Status {
    if job.cancelRequested && idx == job.currentIndex && !job.done && event != Done && event != Error then Cancelled
    else event
  }

  /** A file shows CANCELLED exactly when it is the current file of a running job asked to stop, and its event has not ended it. */
  lemma CancelledIff(name: string, job: Job, idx: int)
    ensures ItemStatus(EventStatus(name), job, idx) == Cancelled <==>
      job.cancelRequested && idx == job.currentIndex && !job.done &&
      EventStatus(name) != Done && EventStatus(name) != Error
    ensures ItemStatus(EventStatus(name), job, idx) != Cancelled ==>
      ItemStatus(EventStatus(name), job, idx) == EventStatus(name)
  {
  }

  /** One entry of the answer's `items`. */
  datatype Item = Item(file: string, state: LogState, status: Status)

  /** The entry for the file at `idx`; a non-string event makes `.upper()` raise. */
  function ItemOf(job: Job, idx: nat, logs: string -> Option<seq<LogLine>>): Result<Item, Failure>
    requires idx < |job.files|
  {
    var f := job.files[idx];
    var st := LogStateOf(logs(f + ".log"));
    match EventName(st.event)
    case None => Err(Crash)
    case Some(name) => Ok(Item(f, st, ItemStatus(EventStatus(name), job, idx)))
  }

  /** The entry of every file, in order. */
  function Entries(job: Job, logs: string -> Option<seq<LogLine>>): seq<Result<Item, Failure>> {
    seq(|job.files|, i requires 0 <= i < |job.files| => ItemOf(job, i, logs))
  }

  /** The entries of all files, or the crash of the first file whose event is not a string. */
  function Items(job: Job, logs: string -> Option<seq<LogLine>>): Result<seq<Item>, Failure> {
    Collect(Entries(job, logs))
  }

  /** `all(x['status'] == 'DONE' for x in items)`, evaluated left to right. */
  function AllDone(items: seq<Item>): bool {
    if items == [] then true else items[0].status == Done && AllDone(items[1..])
  }

  /** `any(x['status'] in ('ERROR', 'CANCELLED') for x in items)`, evaluated left to right. */
  function AnyFailed(items: seq<Item>): bool {
    if items == [] then false else items[0].status in {Error, Cancelled} || AnyFailed(items[1..])
  }

  /** The fold of the per-file statuses into the job's status. */
  function Overall(items: seq<Item>): Status {
    if AllDone(items) then Done else if AnyFailed(items) then Error else Running
  }

  lemma {:induction false} AllDoneIff(items: seq<Item>)
    ensures AllDone(items) <==> forall i :: 0 <= i < |items| ==> items[i].status == Done
  {
    if items != [] {
      AllDoneIff(items[1..]);
      assert forall i :: 0 < i < |items| ==> items[i] == items[1..][i - 1];
    }
  }

  lemma {:induction false} AnyFailedIff(items: seq<Item>)
    ensures AnyFailed(items) <==> exists i :: 0 <= i < |items| && items[i].status in {Error, Cancelled}
  {
    if items != [] {
      AnyFailedIff(items[1..]);
      assert forall i :: 0 < i < |items| ==> items[i] == items[1..][i - 1];
    }
  }

  /** DONE iff every file is done; otherwise ERROR iff some file failed or was cancelled; otherwise RUNNING. */
  lemma OverallMeaning(items: seq<Item>)
    ensures Overall(items) == Done <==> forall i :: 0 <= i < |items| ==> items[i].status == Done
    ensures Overall(items) == Error <==>
      (exists i :: 0 <= i < |items| && items[i].status != Done) &&
      (exists i :: 0 <= i < |items| && items[i].status in {Error, Cancelled})
    ensures Overall(items) == Running <==>
      (exists i :: 0 <= i < |items| && items[i].status != Done) &&
      (forall i :: 0 <= i < |items| ==> items[i].status !in {Error, Cancelled})
  {
    AllDoneIff(items);
    AnyFailedIff(items);
  }

  /** A recorded error that is not empty; `not err` treats `None` and `''` alike. */
  predicate HasError(job: Job) {
    job.error.Some? && job.error.value != ""
  }

  /** The answer of `status_track`: the job status, `done`, `error` and the per-file entries. */
  datatype Answer = Answer(status: Status, done: bool, error: Option<string>, items: seq<Item>)

  /** What the status endpoint answers for the job id `jid` (`''` when the argument is missing). */
  function StatusAnswer(jobs: map<string, Job>, jid: string, logs: string -> Option<seq<LogLine>>): Result<Answer, Failure> {
    if jid !in jobs then Err(Failure(404, "Job not found"))
    else
      var job := jobs[jid];
      match Items(job, logs)
      case Err(e) => Err(e)
      case Ok(items) => Ok(Answer(if HasError(job) then Error else Overall(items), job.done, job.error, items))
  }

  /**
   * The entries follow the job's files one to one, each with its log's state and the status
   * derived from it; the answer crashes exactly when some file's event is not a string.
   */
  lemma ItemsMeaning(job: Job, logs: string -> Option<seq<LogLine>>)
    ensures Items(job, logs).Ok? ==>
      var items := Items(job, logs).value;
      |items| == |job.files| &&
      forall i :: 0 <= i < |items| ==>
        items[i].file == job.files[i] &&
        items[i].state == LogStateOf(logs(job.files[i] + ".log")) &&
        EventName(items[i].state.event).Some? &&
        items[i].status == ItemStatus(EventStatus(EventName(items[i].state.event).value), job, i)
    ensures Items(job, logs).Err? <==>
      exists i :: 0 <= i < |job.files| && EventName(LogStateOf(logs(job.files[i] + ".log")).event).None?
    ensures Items(job, logs).Err? ==> Items(job, logs) == Err(Crash)
  {
    var es := Entries(job, logs);
    CollectMeaning(es);
    if Items(job, logs).Ok? {
      var items := Items(job, logs).value;
      forall i | 0 <= i < |items|
        ensures items[i].file == job.files[i]
        ensures items[i].state == LogStateOf(logs(job.files[i] + ".log"))
        ensures EventName(items[i].state.event).Some?
        ensures items[i].status == ItemStatus(EventStatus(EventName(items[i].state.event).value), job, i)
      {
        assert es[i] == ItemOf(job, i, logs) == Ok(items[i]);
      }
    } else {
      var i :| 0 <= i < |es| && es[i] == Err(Items(job, logs).error) && forall j :: 0 <= j < i ==> es[j].Ok?;
      assert es[i] == ItemOf(job, i, logs);
    }
  }

  /** One pass of the file loop of `status_track`: the file's log state and its status, or the crash of `.upper()`. */
  method FileItem(job: Job, idx: nat, logs: string -> Option<seq<LogLine>>) returns (e: Result<Item, Failure>)
    requires idx < |job.files|
    ensures e == ItemOf(job, idx, logs)
  {
    var f := job.files[idx];
    var st := ParseLastLogState(logs(f + ".log"));
    var name := EventName(st.event);
    if name.None? {
      return Err(Crash);
    }
    var status := EventStatus(name.value);
    if job.cancelRequested && idx == job.currentIndex && !job.done && status != Done && status != Error {
      status := Cancelled;
    }
    e := Ok(Item(f, st, status));
  }

  /** The file loop of `status_track`, stopping at the first crash. */
  method ReadItems(job: Job, logs: string -> Option<seq<LogLine>>) returns (r: Result<seq<Item>, Failure>)
    ensures r == Items(job, logs)
  {
    ghost var es := Entries(job, logs);
    var items: seq<Item> := [];
    var idx := 0;
    while idx < |job.files|
      invariant 0 <= idx <= |job.files|
      invariant Collect(es[..idx]) == Ok(items)
    {
      var e := FileItem(job, idx, logs);
      assert es[idx] == e;
      if e.Err? {
        CollectStops(es, idx);
        return Err(e.error);
      }
      CollectSnoc(es, idx);
      items := items + [e.value];
      idx := idx + 1;
    }
    assert es[..idx] == es;
    r := Ok(items);
  }

  /** `status_track`: read every file's log in order, derive its status, then fold. */
  method StatusTrack(jobs: map<string, Job>, jid: string, logs: string -> Option<seq<LogLine>>)
    returns (r: Result<Answer, Failure>)
    ensures r == StatusAnswer(jobs, jid, logs)
  {
    if jid !in jobs {
      return Err(Failure(404, "Job not found"));
    }
    var job := jobs[jid];
    var items := ReadItems(job, logs);
    if items.Err? {
      return Err(items.error);
    }
    var overall := if AllDone(items.value) then Done else if AnyFailed(items.value) then Error else Running;
    r := Ok(Answer(if HasError(job) then Error else overall, job.done, job.error, items.value));
  }

  /** An unknown job is a 404; a recorded error forces ERROR whatever the files say. */
  lemma StatusMeaning(jobs: map<string, Job>, jid: string, logs: string -> Option<seq<LogLine>>)
    ensures StatusAnswer(jobs, jid, logs) == Err(Failure(404, "Job not found")) <==> jid !in jobs
    ensures StatusAnswer(jobs, jid, logs).Ok? && HasError(jobs[jid]) ==>
      StatusAnswer(jobs, jid, logs).value.status == Error
    ensures StatusAnswer(jobs, jid, logs).Ok? && !HasError(jobs[jid]) ==>
      StatusAnswer(jobs, jid, logs).value.status == Overall(StatusAnswer(jobs, jid, logs).value.items)
    ensures StatusAnswer(jobs, jid, logs).Ok? ==>
      StatusAnswer(jobs, jid, logs).value.done == jobs[jid].done &&
      StatusAnswer(jobs, jid, logs).value.error == jobs[jid].error &&
      |StatusAnswer(jobs, jid, logs).value.items| == |jobs[jid].files|
  {
    if jid in jobs {
      ItemsMeaning(jobs[jid], logs);
    }
  }

  // ---------------------------------------------------------------------------------
  // Starting and cancelling (`/api/track/start`, `/retry`, `/cancel`)
  // ---------------------------------------------------------------------------------

  /** The files a start or retry request names: a non-empty list, every entry as `str(x)`. */
  function RequestedFiles(payload: Json): Result<seq<string>, Failure> {
    var data := Or(payload, JObj([]));
    if !data.JObj? then Err(Crash)
    else
      var files := Or(GetOr(data, "files", JNull), JList([]));
      if !files.JList? || files.items == [] then Err(Failure(400, "No files provided"))
      else Ok(MapSeq(PyStr, files.items))
  }

  /** A request is accepted exactly when it names a non-empty list, and then every entry becomes one file. */
  lemma RequestedFilesMeaning(fields: seq<(string, Json)>)
    ensures var r := RequestedFiles(JObj(fields));
      (r.Ok? <==> exists l :: Lookup(fields, "files") == Some(JList(l)) && l != []) &&
      (r.Ok? ==> (|r.value| == |Lookup(fields, "files").value.items| &&
        forall i :: 0 <= i < |r.value| ==> r.value[i] == PyStr(Lookup(fields, "files").value.items[i]))) &&
      (r.Err? ==> r.error == Failure(400, "No files provided"))
  {
    var r := RequestedFiles(JObj(fields));
    if r.Ok? {
      assert JObj(fields) != JObj([]);
    } else if fields != [] {
      assert Or(JObj(fields), JObj([])) == JObj(fields);
    }
  }

  /** The job a start or retry creates: nothing done, no error, at the first file, not cancelled. */
  function NewJob(files: seq<string>): Job {
    Job(files, false, None, 0, false)
  }

  /** `cancel_track`: flag the job; an unknown job is a 404. */
  function CancelJob(jobs: map<string, Job>, jid: string): Result<map<string, Job>, Failure> {
    if jid !in jobs then Err(Failure(404, "Job not found"))
    else Ok(jobs[jid := jobs[jid].(cancelRequested := true)])
  }

  /** Cancelling flags only the named job and leaves every other job as it was. */
  lemma CancelMeaning(jobs: map<string, Job>, jid: string)
    ensures CancelJob(jobs, jid).Err? <==> jid !in jobs
    ensures CancelJob(jobs, jid).Ok? ==>
      var after := CancelJob(jobs, jid).value;
      after.Keys == jobs.Keys && after[jid].cancelRequested &&
      after[jid] == jobs[jid].(cancelRequested := true) &&
      forall k :: k in jobs && k != jid ==> after[k] == jobs[k]
  {
  }

  /** A fresh job whose files have no logs yet shows every file PENDING and the job RUNNING. */
  lemma FreshJobRunning(jobs: map<string, Job>, jid: string, files: seq<string>, logs: string -> Option<seq<LogLine>>)
    requires files != []
    requires jid in jobs && jobs[jid] == NewJob(files)
    requires forall f :: f in files ==> logs(f + ".log").None?
    ensures StatusAnswer(jobs, jid, logs).Ok?
    ensures forall it :: it in StatusAnswer(jobs, jid, logs).value.items ==> it.status == Pending
    ensures StatusAnswer(jobs, jid, logs).value.status == Running
  {
    var job := jobs[jid];
    assert forall i :: 0 <= i < |files| ==> files[i] in files;
    UpperKeeps("PENDING");
    assert EventName(Default.event) == Some("PENDING");
    ItemsMeaning(job, logs);
    var items := Items(job, logs).value;
    OverallMeaning(items);
    assert items[0].status == Pending;
  }

  /**
   * After a cancel the job's current file shows CANCELLED while the job is still running,
   * unless its last event already ended it.
   */
  lemma CancelShows(jobs: map<string, Job>, jid: string, logs: string -> Option<seq<LogLine>>)
    requires jid in jobs && !jobs[jid].done
    requires 0 <= jobs[jid].currentIndex < |jobs[jid].files|
    requires StatusAnswer(CancelJob(jobs, jid).value, jid, logs).Ok?
    ensures var items := StatusAnswer(CancelJob(jobs, jid).value, jid, logs).value.items;
      var cur := jobs[jid].currentIndex;
      cur < |items| && EventName(items[cur].state.event).Some? &&
      var ev := EventStatus(EventName(items[cur].state.event).value);
      (ev != Done && ev != Error ==> items[cur].status == Cancelled) &&
      (ev == Done || ev == Error ==> items[cur].status == ev)
  {
    var after := CancelJob(jobs, jid).value;
    ItemsMeaning(after[jid], logs);
  }
}
