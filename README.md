# CheesePie core in Dafny

CheesePie is a Flask web application for laboratory video of animal behaviour. It imports raw
camera recordings into per-day videos, prepares and tracks them, and serves them for browsing and
analysis. This project models the logic behind those features and proves properties of that model.

- **Configuration** (`config.dfy`) normalises the JSON configuration:
  - animal names, annotation types, visible extensions and the importer's source extensions, each
    with its built-in fallback;
  - facilities with their cameras, experiments, treatments and treatment time defaults.
  Lemmas prove that every published value is well formed and is exactly the normalisation of its
  source entry.
- **Background tasks** (`tasks.dfy`, `tasks_facts.dfy`) model the registry of tasks as a class:
  - the map of tasks, its listing order, progress updates, cancellation and resuming after a restart;
  - lemmas for every operation about the ids, states and progress it keeps.
- **Import** (`importer_time.dfy`, `importer_files.dfy`, `importer_manifest.dfy`,
  `importer_reconcile.dfy`, `importer_encode.dfy`):
  - the calendar arithmetic of day windows;
  - parsing of file names and durations;
  - the concat-list manifest writer and its reader, shown to be inverse on the lists the writer produces;
  - the reconciliation of segments against the day windows;
  - the encode job's loop over cameras and days, with its status and progress bookkeeping.
- **Preprocessing** (`preproc.dfy`) models:
  - the parsing of video names and the listing of a recording's days;
  - copying and saving preprocessing state across target videos, with the colour-mark checks;
  - saving named region sets into a facility.
- **Media** (`media.dfy`, with `http.dfy`) models the HTTP `Range` handling of the video endpoint
  and the chunked streaming of the selected bytes.
- **Tracking** (`track.dfy`) models file validation for track jobs, job records and the reading of
  their JSON-lines logs.
- **Analysis** (`analyze.dfy`) models the pairing of x/y datasets in a track file, the choice of
  the best pair and the clamped window of positions it serves.
- **MATLAB bridge** (`matlab.dfy`) models the `matlab` settings, the sorted function whitelist and
  the checks a call must pass before it reaches the engine.
- **Shared helpers**: `text.dfy` holds the Python string operations (strip, case, split, integer
  formatting and parsing, ordering), `json.dfy` the JSON values, `collections.dfy` the sequence and
  map helpers and `wrappers.dfy` `Option`/`Result`.

The model describes the code as written, including behaviour a reader might not expect:
- `bytes=-N` is read as the range 0..N, not as the last N bytes (`Media.RangeMissingStart`).
- For an empty file, a satisfiable range gets the header `bytes 0-0/0` and `Content-Length: 1` with
  an empty body (`Media.EmptyFileRange`).
- An encode day with no `segments` key that is not marked missing still advances `progress`, which
  the job's `total` does not count. So `progress` can exceed `total` (`ImporterEncodeFacts.ProgressBeyondTotal`).
  For plans written by the planner, `progress` never exceeds `total` (`ImporterEncodeFacts.ProgressWithinTotal`).
- An experiment is skipped only when its name is the empty string. A name made only of white space
  is kept under the empty key (`Config.ExperimentsOf`).

## Model

| member | source | states |
|---|---|---|
| Text.StripIdempotent | cheesepie/config.py:51 | stripping twice is stripping once |
| Text.StripEndsClean | cheesepie/config.py:51 | a stripped string neither starts nor ends with white space |
| Text.IntToStringRoundTrip | cheesepie/importer.py:83 | `int(str(i)) == i` for every integer |
| Text.PadIntRoundTrip | cheesepie/importer.py:146 | a zero-padded non-negative number is all digits and reads back as itself |
| Text.StrLtIrreflexive | cheesepie/matlab.py:43 | no name sorts before itself |
| Text.StrLtTotal | cheesepie/matlab.py:43 | of two different names one sorts before the other |
| Text.StrLtTransitive | cheesepie/matlab.py:43 | the order `sorted` uses on names is transitive |
| Text.StrLtAsymmetric | cheesepie/matlab.py:43 | two names never sort before each other |
| Config.DefaultFps | cheesepie/config.py:59-64 | the default frame rate is always in [1, 300]; it is the setting when that converts and is in range, 300 above the range, 1 below it, and 30 when the setting is absent or does not convert |
| Config.PreviewThumbnails | cheesepie/config.py:110-115 | the thumbnail count is always in [0, 24]; it is the setting when that converts and is in range, 24 above the range, 0 below it, and 8 when absent or not a number |
| Config.NonBlankFrom | cheesepie/config.py:52-53 | every kept string is non-empty and comes from the input |
| Config.NonBlankEmpty | cheesepie/config.py:56 | nothing is kept exactly when every string is empty, which is when the fallback applies |
| Config.AnimalsClean | cheesepie/config.py:48-56 | every kept animal name is non-empty and stripped; none is kept iff every value strips to blank |
| Config.DefaultAnimalNamesClean | cheesepie/config.py:45-47 | the built-in animal names `R`, `G`, `B`, `Y` are clean names |
| Config.CollectAnimals | cheesepie/config.py:48-55 | the loop keeps the stripped `str()` of each value that is not blank, in order |
| Config.DefaultAnimals | cheesepie/config.py:44-56 | the animal list is never empty and holds clean names; it is the configured names when a list gives some, else the built-in list |
| Config.Dotted | cheesepie/config.py:127-128 | a lower-case name with a dot put in front when missing is a valid extension |
| Config.NormaliseExt | cheesepie/config.py:124-129 | a normalised extension is lower case with a leading dot; none is produced iff the value strips to blank |
| Config.ExtsValid | cheesepie/config.py:120-131 | every kept extension is valid; none is kept iff every value strips to blank |
| Config.Extensions | cheesepie/config.py:120-134 | the extensions of a list setting when it yields some, else the fallback |
| Config.CollectExts | cheesepie/config.py:278-287 | the loop keeps the normalised extension of each non-blank value, in order |
| Config.BrowserVisibleExtensions | cheesepie/config.py:118-134 | the visible extensions are never empty, all valid, the configured ones when a list yields some and `.mp4`, `.avi` otherwise |
| Config.ImporterSourceExts | cheesepie/config.py:274-288 | the importer's source extensions are never empty, all valid, the configured ones when a list yields some and `.mp4` otherwise |
| Config.TypeOf | cheesepie/config.py:72-82 | an entry gives a type iff it is a dict with a non-blank name, and the type has a valid mode, a key of at most one character and a non-empty colour |
| Config.TypesOf | cheesepie/config.py:70-82 | every kept type is valid and there are at most as many as entries |
| Config.DefaultTypesValid | cheesepie/config.py:84-88 | the three built-in annotation types are valid |
| Config.DefaultTypes | cheesepie/config.py:67-89 | the annotation types are never empty and all valid; they are the configured ones when a list gives some, else the three built-in ones |
| Config.FrameKeysDomain | cheesepie/config.py:94-98 | `prev` and `next` are always bound; any other frame key comes from a non-null entry |
| Config.FrameKeysUntouched | cheesepie/config.py:98 | a default frame key that no non-null entry names keeps its default |
| Config.JumpsDomain | cheesepie/config.py:95-104 | the four default jumps are always bound; any other key comes from an entry whose value converts |
| Config.JumpsLast | cheesepie/config.py:100-104 | the last convertible entry for a key decides its jump |
| Config.Keyboard | cheesepie/config.py:92-107 | frame keys and jumps are the defaults updated by the dict settings, and every default key stays bound |
| Config.LowerStrippedStr | cheesepie/config.py:178 | a stripped, lower-cased name is blank or a normal name |
| Config.TreatmentEntry | cheesepie/config.py:177-204 | an entry is dropped iff its name is blank; a kept entry's name is normal and its times are accepted, and only dict entries carry times |
| Config.TreatmentDefaultsFrom | cheesepie/config.py:194-200 | every recorded time set belongs to a kept entry of that name with those times |
| Config.TreatmentsOfOk | cheesepie/config.py:176-204 | every kept treatment entry is well formed |
| Config.NormaliseTreatments | cheesepie/config.py:173-206 | the treatment loop gives the first-occurrence de-duplication of the kept names and the per-name time defaults, a later entry winning |
| Config.ExperimentTreatmentsWellFormed | cheesepie/config.py:173-206 | a treatment list is duplicate-free normal names; each time default belongs to a listed name and is accepted |
| Config.ExperimentsOfWellFormed | cheesepie/config.py:168-209 | every experiment's list is duplicate-free normal names, and time defaults exist only for listed experiments and are accepted |
| Config.ExperimentKeysFrom | cheesepie/config.py:169-172 | every experiment key is the stripped, upper-cased name of a non-empty entry |
| Config.NormaliseExperiments | cheesepie/config.py:165-209 | the experiments loop produces exactly the specified experiments table |
| Config.InCameraRange | cheesepie/config.py:160 | a camera is kept iff it is given and within [0, 999] |
| Config.Range1 | cheesepie/config.py:162 | `range(1, n + 1)` has length n and holds `i + 1` at position i |
| Config.CameraCountIsLength | cheesepie/config.py:146-164 | the published camera count always equals the length of the published camera list |
| Config.CameraListSorted | cheesepie/config.py:160-162 | the camera list is strictly increasing and within [0, 999] |
| Config.CameraListGiven | cheesepie/config.py:152-160 | when some given camera is in range, the list holds exactly the given in-range cameras |
| Config.CameraListDefault | cheesepie/config.py:161-162 | when no given camera is in range, the list is `1..n` for the clamped count n |
| Config.NormaliseCameras | cheesepie/config.py:146-164 | the camera part of the facility loop gives the specified count and list |
| Config.SetupName | cheesepie/config.py:229 | a legacy setup's name is never empty |
| Config.DictOr | cheesepie/config.py:230 | a setup's `preproc` is always a dict |
| Config.ListOr | cheesepie/config.py:231 | a setup's `roi_sets` is always a list |
| Config.LegacySetup | cheesepie/config.py:226-232 | a legacy entry gives a setup iff it is a dict |
| Config.SetupsOfList | cheesepie/config.py:223-234 | a legacy list keeps one normalised setup per dict entry and nothing else, so never more than it was given |
| Config.NormaliseLegacySetups | cheesepie/config.py:225-234 | the legacy loop keeps the normalised setups of the dict entries, in order |
| Config.NormaliseSetups | cheesepie/config.py:217-244 | the setups part of the facility loop gives the specified setups value |
| Config.FacilityWellFormed | cheesepie/config.py:143-259 | every published facility has its camera count equal to its sorted, in-range camera list's length and well-formed experiments and time defaults |
| Config.NormaliseFacility | cheesepie/config.py:143-259 | the facility loop body produces exactly the specified facility |
| Config.FacilitiesOfFrom | cheesepie/config.py:140-262 | every published facility comes from a dict entry with that stripped, lower-cased name and is its normalisation |
| Config.ImporterFacilities | cheesepie/config.py:137-262 | the facilities are the normalised dict source, read from the top level when truthy and else from the importer section, and none when that is not a dict |
| Config.TimeOkFormatted | cheesepie/config.py:184-193 | a time written `HH:MM` is accepted exactly when the hour is at most 23 and the minute at most 59 |
| Tasks.StoreKeyed | cheesepie/tasks.py:144-145 | storing a task under its own id keeps every task keyed by its id, and a new id joins the insertion order at its end |
| Tasks.IdsOf | cheesepie/tasks.py:300 | the ids the bulk cancel walks are all non-empty |
| Tasks.ValuesOf | cheesepie/tasks.py:264 | the values listed are exactly the stored tasks, at most one per key of the insertion order |
| Tasks.VisitOrder | cheesepie/tasks.py:188-197 | the resume pass visits the stored tasks oldest first and each exactly once (a permutation of the values) |
| Tasks.TaskRegistry.constructor | cheesepie/tasks.py:20-28 | the registry starts empty and well formed |
| Tasks.TaskRegistry.Now | cheesepie/tasks.py:33-34 | each clock reading is later than the one before (an idealisation of the source's stamps, see Left out) |
| Tasks.TaskRegistry.CreateTask | cheesepie/tasks.py:108-148 | creating a task updates the registry as the creation function specifies and returns the stored task |
| Tasks.TaskRegistry.EnqueueTask | cheesepie/tasks.py:222-241 | an enqueued task is created with its runner, queued and not started |
| Tasks.TaskRegistry.RegisterTask | cheesepie/tasks.py:244-253 | a registered task is created without a runner, started only when asked |
| Tasks.TaskRegistry.UpdateTask | cheesepie/tasks.py:151-171 | the update changes the registry and answers as `UpdateReg` specifies |
| Tasks.TaskRegistry.CancelTask | cheesepie/tasks.py:271-286 | the cancel changes the registry, answers and calls the hook as `CancelReg` specifies |
| Tasks.TaskRegistry.CancelAllTasks | cheesepie/tasks.py:296-311 | the bulk-cancel loop gives the state and both counts `CancelAll` specifies |
| Tasks.TaskRegistry.EnqueueExistingTask | cheesepie/tasks.py:180-185 | re-queueing a task sets its runner and appends it to the queue |
| Tasks.TaskRegistry.RegisterTaskResumer | cheesepie/tasks.py:174-177 | registering a resumer adds its kind when that is non-empty and changes nothing else |
| Tasks.TaskRegistry.SetTaskCancelHook | cheesepie/tasks.py:289-293 | a hook is recorded only for a non-empty id and a given hook |
| Tasks.TaskRegistry.ResumeOne | cheesepie/tasks.py:197-219 | one pass of the resume loop does what `ResumeStep` specifies |
| Tasks.TaskRegistry.ResumePendingTasks | cheesepie/tasks.py:188-219 | the resume pass does what `Resume` specifies |
| Tasks.TaskRegistry.Get | cheesepie/tasks.py:256-259 | a lookup finds a task iff one is stored under the id, and then that task |
| Tasks.TaskRegistry.StartNextTask | cheesepie/tasks.py:322-333 | the locked part of a worker iteration does what `StartNext` specifies |
| Tasks.TaskRegistry.FinishTask | cheesepie/tasks.py:335-345 | the worker's bookkeeping after a run does what `FinishRun` specifies |
| TaskFacts.StatusNames | cheesepie/tasks.py:31 | `DONE`, `FAILED` and `CANCELLED` are terminal; `QUEUED` and `RUNNING` are not |
| TaskFacts.NewTaskMeaning | cheesepie/tasks.py:108-143 | a new task is not terminal and has no progress, no cancel flag and no finish stamp; it is RUNNING, with a start stamp (later on the model's clock), iff it has no runner and is started immediately, and QUEUED otherwise |
| TaskFacts.CreateMeaning | cheesepie/tasks.py:108-148 | creation stores a task under its id, after every existing one when new, changes no other task, keeps the registry keyed and stamped, queues it iff it has a runner and records its cancel hook |
| TaskFacts.EnqueuedStartsNext | cheesepie/tasks.py:222-241 | a task enqueued on an idle worker is the next one started and becomes RUNNING with a start stamp (after its creation on the model's clock) |
| TaskFacts.UpdatedTaskMeaning | cheesepie/tasks.py:151-171 | an update merges `meta` key by key (new values win), replaces the other given fields, keeps the identity fields, and a task that ends terminal always has a finish stamp |
| TaskFacts.UpdateRegMeaning | cheesepie/tasks.py:151-171 | an update answers true iff the id is known; an unknown id changes nothing and a known one changes only its task |
| TaskFacts.ProgressMeaning | cheesepie/tasks.py:96-100 | setting progress changes the progress, and the total when given, and nothing else |
| TaskFacts.CancelRegMeaning | cheesepie/tasks.py:271-286 | a cancel answers true iff a task with that id exists, raises its flag and nothing else, and calls the hook iff one is registered; the status is left to the runner |
| TaskFacts.CancelOneMeaning | cheesepie/tasks.py:302-310 | one pass of the bulk cancel sets at most the flag of its own task |
| TaskFacts.CancelAllFromState | cheesepie/tasks.py:301-310 | the rest of the bulk-cancel loop sets each listed task's flag unless skipped and changes nothing else |
| TaskFacts.CancelAllFromCounts | cheesepie/tasks.py:297-310 | every walked id is counted at most once, exactly once when stored, and nothing is skipped unless only active tasks are cancelled |
| TaskFacts.IdsOfMeaning | cheesepie/tasks.py:300 | the walked ids are the non-empty stored keys, each once |
| TaskFacts.CancelAllMeaning | cheesepie/tasks.py:296-311 | every task with an id gets its cancel flag except terminal ones when only active tasks are cancelled; statuses stay, and cancelled plus skipped counts every id once |
| TaskFacts.ListingMeaning | cheesepie/tasks.py:264-267 | the listing is newest first and holds exactly the stored tasks that match the filter |
| TaskFacts.ListingSorted | cheesepie/tasks.py:265 | the listing is ordered newest first |
| TaskFacts.ListingMembers | cheesepie/tasks.py:264-267 | a task is listed iff it is stored and passes the active filter |
| Collections.SortByStable | cheesepie/tasks.py:265 | the sort is stable: the tasks with any one stamp come out in the order they went in, as Python's sort with `reverse=True` keeps them |
| TaskFacts.ListOfMeaning | cheesepie/tasks.py:262-268 | the list is newest first, only stored tasks, only non-terminal ones when asked, at most `max(1, limit)` when a limit is given and then a prefix of the unlimited list, which holds every match |
| TaskFacts.ResumeActionMeaning | cheesepie/tasks.py:197-219 | a task is skipped iff it has no id or is terminal, re-queued iff it is not cancelled and has a resumer for its kind and a non-empty payload, and otherwise cancelled with the first reason that applies |
| TaskFacts.ResumeStepMeaning | cheesepie/tasks.py:197-219 | a cancelled task becomes CANCELLED with its reason and a finish stamp; a re-queued one becomes QUEUED without stamps, with a resuming runner at the end of the queue |
| TaskFacts.ResumeStepKeeps | cheesepie/tasks.py:197-219 | one pass settles its task, keeps every settled task settled and touches no other task |
| TaskFacts.ResumeStepStamped | cheesepie/tasks.py:208-214 | a resume pass keeps every terminal task stamped |
| TaskFacts.ResumeFromStamped | cheesepie/tasks.py:197-219 | the rest of the resume loop keeps every terminal task stamped |
| TaskFacts.ResumeFromMeaning | cheesepie/tasks.py:197-219 | the rest of the resume loop settles every visited task, keeps settled ones, leaves terminal ones untouched and the keys the same |
| TaskFacts.ResumeMeaning | cheesepie/tasks.py:188-219 | after a resume every task is terminal or queued with a runner, terminal tasks are untouched and no task appears or disappears |
| TaskFacts.ResumeFromFlag | cheesepie/tasks.py:197-219 | the resume loop leaves the once-per-process flag alone |
| TaskFacts.ResumeOnce | cheesepie/tasks.py:188-193 | the resume pass runs once per process: a second call changes nothing |
| TaskFacts.StartNextMeaning | cheesepie/tasks.py:322-333 | an empty queue changes nothing; otherwise the head is popped and started (RUNNING, keeping an earlier start stamp) iff it is a stored task with a runner |
| TaskFacts.FinishRunMeaning | cheesepie/tasks.py:335-345 | after a run that task is terminal: a status the runner set stays, otherwise DONE; a raised error gives FAILED with its text; the finish stamp is set |
| TaskFacts.FinishRunStamped | cheesepie/tasks.py:335-345 | finishing a run keeps every terminal task stamped |
| TaskFacts.FinishRunKeeps | cheesepie/tasks.py:335-345 | finishing a run changes only that task and keeps the registry keyed, the queue and the runners |
| ImporterTime.NextDateIsNextDay | cheesepie/importer.py:74 | day numbers count calendar days: adding one day to a valid date gives a valid date whose day number is one more |
| ImporterTime.EpochDayOrigin | cheesepie/importer.py:65 | day numbers are counted from 1970-01-01 |
| ImporterTime.SafeTimeParts | cheesepie/importer.py:36-45 | an accepted time has an hour in [0, 23] and a minute in [0, 59] |
| ImporterTime.FormatHHMMParts | cheesepie/importer.py:42 | a formatted `HH:MM` is five characters with a colon in the middle and reads back as the same hour and minute |
| ImporterTime.SafeTimeIdempotent | cheesepie/importer.py:36-45 | normalising a time is idempotent, its output is five characters and reads back as the time it read |
| ImporterTime.ParseDate | cheesepie/importer.py:54 | a date `strptime` accepts is a valid calendar date |
| ImporterTime.ParseFormatDate | cheesepie/importer.py:54 | every valid date survives formatting as `YYYY-MM-DD` followed by parsing |
| ImporterTime.CombineDateTime | cheesepie/importer.py:48-56 | a combined date-time exists only when the time and the stripped date both parse |
| ImporterTime.CombineDateTimeParts | cheesepie/importer.py:48-56 | a combined date-time falls on the parsed date at the parsed clock time |
| ImporterTime.CombineDateTimeNone | cheesepie/importer.py:48-56 | there is no combined date-time iff the time or the stripped date does not parse |
| ImporterTime.ClocksInRange | cheesepie/importer.py:67-70 | the start and end clock times, with their fallbacks, are valid times of day |
| ImporterTime.WindowSeq | cheesepie/importer.py:71-76 | n windows, the i-th on the i-th day after the first |
| ImporterTime.DayWindows | cheesepie/importer.py:59-77 | the window loop produces exactly the specified windows |
| ImporterTime.DayWindowsEmpty | cheesepie/importer.py:60-63 | there are no windows iff the start date or the end date does not combine with the start time |
| ImporterTime.DayWindowsCount | cheesepie/importer.py:64-71 | otherwise there are `max(1, days)` windows, one even when the end date is before the start date |
| ImporterTime.WindowSeqSpacing | cheesepie/importer.py:72 | consecutive windows start exactly one day apart |
| ImporterTime.DayWindowsSpacing | cheesepie/importer.py:60-76 | the first window starts at the start date and time, and each later one exactly one day after the previous |
| ImporterTime.WindowSeqShape | cheesepie/importer.py:72-75 | every window has the given clock times and ends on its start day or the next, longer than nothing and at most one day |
| ImporterTime.DayWindowsShape | cheesepie/importer.py:59-77 | every window ends at the end time (or the start time when that does not parse), on its own date or the next date exactly when that clock is not after the start's, so it lasts more than nothing and at most one day |
| ImporterTime.WindowSeqWholeDays | cheesepie/importer.py:74-75 | windows whose end clock is their start clock last exactly one day |
| ImporterTime.DayWindowsWholeDays | cheesepie/importer.py:68-75 | an end time that does not parse gives windows of exactly one day |
| ImporterFiles.ParseDurToSeconds | cheesepie/importer.py:151-166 | a duration is never negative; a missing, null or blank value gives four hours and a number is itself clamped at 0 |
| ImporterFiles.DurationOfText | cheesepie/importer.py:158-166 | a non-blank string is read as text, and four hours when that raises |
| ImporterFiles.DurationTextPair | cheesepie/importer.py:161-163 | `h:m` gives `h * 3600 + m * 60` clamped at 0 |
| ImporterFiles.DurationTextPlain | cheesepie/importer.py:164 | a string without a colon gives its number of seconds clamped at 0 |
| ImporterFiles.DurationHoursMinutes | cheesepie/importer.py:151-166 | `H:MM` reads as that many hours and minutes |
| ImporterFiles.DurationSeconds | cheesepie/importer.py:151-166 | a plain number of seconds reads as itself, clamped at 0 |
| ImporterFiles.FormatCamGlobPlain | cheesepie/importer.py:79-85 | a pattern without placeholders is used as it is |
| ImporterFiles.FormatCamGlobPlaceholders | cheesepie/importer.py:79-85 | `{cam:02d}` gives the zero-padded camera number and `{cam}` the plain one |
| ImporterFiles.OverlapsMeaning | cheesepie/importer.py:130-131 | for non-empty intervals the strict test holds iff some instant lies in both, and it is symmetric |
| ImporterFiles.OverlapsEmpty | cheesepie/importer.py:130-131 | an empty interval strictly inside another still counts as overlapping it |
| ImporterFiles.AllInts | cheesepie/importer.py:641-646 | converting all fields gives one number per field |
| ImporterFiles.AllIntsMeaning | cheesepie/importer.py:641-646 | the fields convert iff each does, and then each number is its field's |
| ImporterFiles.ParseStartFromStem | cheesepie/importer.py:619-649 | a stem gives a start only with at least three `-` parts, an 8-character date and a 6-character time; then a valid epoch-milliseconds part decides |
| ImporterFiles.StemDateFields | cheesepie/importer.py:641-643 | a written `YYYYMMDD` is 8 digits whose slices read back the year, month and day |
| ImporterFiles.StemTimeFields | cheesepie/importer.py:644-646 | a written `HHMMSS` is 6 digits whose slices read back the hour, minute and second |
| ImporterFiles.StemFieldsOf | cheesepie/importer.py:641-647 | date and time parts whose slices read as numbers give the date-time of those numbers |
| ImporterFiles.StemOfParts | cheesepie/importer.py:625-647 | three separator-free parts of the right lengths go to the field-by-field reading |
| ImporterFiles.StemRoundTrip | cheesepie/importer.py:619-649 | a stem written as `<camera>-<YYYYMMDD>-<HHMMSS>` reads back as that date-time, to the second |
| ImporterFiles.StemWithoutToken | cheesepie/importer.py:633-647 | without a valid epoch part the stem is read field by field |
| ImporterFiles.StemEpochWins | cheesepie/importer.py:633-637 | with a valid epoch-milliseconds part the stem reads as that instant, whatever its date and time parts say |
| ImporterFiles.EpochTokenOf | cheesepie/importer.py:633-637 | an all-digit fourth part of at least 13 digits in range is the epoch token |
| ImporterFiles.GroupFieldOf | cheesepie/importer.py:291-296 | a named group holding a number's digits reads as that number |
| ImporterFiles.DateFields | cheesepie/importer.py:297-298 | a valid date with no clock fields gives that date at midnight |
| ImporterFiles.TimeFromDateGroups | cheesepie/importer.py:290-298 | groups holding only a date give that date at midnight |
| ImporterFiles.TimeFromGroupsNeedsDate | cheesepie/importer.py:297-299 | a path time needs a year, a month and a day group |
| ImporterFiles.LastIndexOf | cheesepie/importer.py:625 | the found index is the last occurrence of the character, and none is found iff it does not occur |
| ImporterFiles.Stem | cheesepie/importer.py:625 | a stem is never longer than the file name |
| ImporterFiles.StemOfFile | cheesepie/importer.py:625 | the stem of `dir/base.ext` is `base` |
| ImporterFiles.DirSplitLast | cheesepie/importer.py:660 | the name of `dir/name` is `name` |
| ImporterFiles.FirstExpTag | cheesepie/importer.py:656-660 | the search finds the leftmost `.expNNNN` at or after the start, and none is found iff there is none |
| ImporterFiles.MaxBatch | cheesepie/importer.py:657-667 | the running maximum is never negative |
| ImporterFiles.MaxBatchIsMax | cheesepie/importer.py:657-667 | the running maximum bounds every batch number found and is one of them unless it is 0 |
| ImporterFiles.NextBatchNumber | cheesepie/importer.py:652-670 | the next batch number is one more than the largest found, or 1 |
| ImporterFiles.NextBatchIsFresh | cheesepie/importer.py:652-670 | the next batch number is above every batch found and at most one above the largest |
| ImporterFiles.BatchOfTag | cheesepie/importer.py:656-663 | a name written with a zero-padded `.expNNNN` tag carries that batch number |
| ImporterManifest.PaddedField | cheesepie/importer.py:146 | a zero-padded field is digits free of `:` and `.` that read back as the number |
| ImporterManifest.ClockDecomposition | cheesepie/importer.py:142-145 | hours, minutes, seconds and milliseconds of a non-negative offset add back up to it |
| ImporterManifest.ParseFields | cheesepie/importer.py:146 | `H:M:S.F` with digit fields reads as their clock value |
| ImporterManifest.FormatHHMMSSRoundTrip | cheesepie/importer.py:138-148 | every formatted offset reads back as itself, a negative one as zero |
| ImporterManifest.FormatHHMMSSLength | cheesepie/importer.py:146 | below a hundred hours a formatted offset is twelve characters |
| ImporterManifest.ReplaceQuoteIsEscape | cheesepie/importer.py:179 | replacing every `'` by `'\''` is the character-by-character escaping |
| ImporterManifest.UnquoteEscaped | cheesepie/importer.py:179 | an escaped name inside a quoted run reads back as the name |
| ImporterManifest.QuoteRoundTrip | cheesepie/importer.py:179 | every file name survives quoting: ffmpeg's shell-style reading gives it back |
| ImporterManifest.ItemLines | cheesepie/importer.py:178-184 | each item writes one `file` line and at most one `inpoint` and one `outpoint` line |
| ImporterManifest.ConcatLinesSnoc | cheesepie/importer.py:177-184 | one more item appends its lines |
| ImporterManifest.WriteConcatList | cheesepie/importer.py:169-184 | the writer's loop produces exactly the specified lines |
| ImporterManifest.ParseStep | cheesepie/importer.py:178-184 | the reader takes a `file` line and its optional offsets off the front |
| ImporterManifest.ItemRoundTrip | cheesepie/importer.py:178-184 | one item's lines in front of the next item's read back as that item |
| ImporterManifest.ConcatListRoundTrip | cheesepie/importer.py:169-184 | every list of items with clamped offsets survives writing and reading |
| ImporterManifest.ConcatLinesLength | cheesepie/importer.py:177-184 | each item takes one to three lines |
| ImporterReconcile.SegmentOf | cheesepie/importer.py:460-471 | a file gives a segment only for its own camera and a known start, and the segment lasts the maximum file duration from that start |
| ImporterReconcile.CameraSegsFrom | cheesepie/importer.py:459-471 | every segment of a camera comes from one of its files and lasts the maximum file duration |
| ImporterReconcile.Clipped | cheesepie/importer.py:479-483 | clipping keeps the number of segments |
| ImporterReconcile.ClippedProperties | cheesepie/importer.py:479-483 | clipping keeps every path and start, never lengthens a segment, ends each no later than a later-starting successor, keeps non-empty segments non-empty and sorted segments sorted |
| ImporterReconcile.ClippedIdempotent | cheesepie/importer.py:479-483 | clipping twice is clipping once |
| ImporterReconcile.ClipToNext | cheesepie/importer.py:479-483 | the in-place clipping loop leaves the array holding the clipped segments |
| ImporterReconcile.CoverFrom | cheesepie/importer.py:489-502 | every piece lies inside the window and its segment, after what was already covered, and the pieces follow each other in time |
| ImporterReconcile.CoverDisjoint | cheesepie/importer.py:489-502 | no instant of the window is taken twice: pieces are in time order and do not overlap |
| ImporterReconcile.CoverTail | cheesepie/importer.py:490-502 | an overlapping segment with a non-empty effective part contributes that part and moves the cover to its end; any other segment contributes nothing |
| ImporterReconcile.CoverComplete | cheesepie/importer.py:489-502 | over start-sorted segments every instant of the window from the cover on that lies in some segment is taken by some piece |
| ImporterReconcile.PieceItemMeaning | cheesepie/importer.py:497-501 | an item's inpoint is where its piece starts in the file, and it has an outpoint, after the inpoint, exactly when the piece stops before the file's end |
| ImporterReconcile.CoverWindow | cheesepie/importer.py:488-502 | the cover loop for one window produces exactly the specified items |
| ImporterReconcile.MissingDays | cheesepie/importer.py:476 | a camera without segments gets one missing day per window |
| ImporterReconcile.DaysOf | cheesepie/importer.py:485-514 | a camera gets one day per window |
| ImporterReconcile.PlanDays | cheesepie/importer.py:485-514 | the day loop produces exactly the specified days |
| ImporterReconcile.PlanWindow | cheesepie/importer.py:486-514 | one pass of the day loop produces the specified day |
| ImporterReconcile.MakeDay | cheesepie/importer.py:503-514 | a day is the written list when there are items and an empty file otherwise |
| ImporterReconcile.PlanCamera | cheesepie/importer.py:474-515 | one camera's plan is the specified sorted, clipped and covered days |
| ImporterReconcile.CameraSegsSnoc | cheesepie/importer.py:460-471 | one more manifest file appends its segment to the camera, if it gives one |
| ImporterReconcile.SegmentOfKnown | cheesepie/importer.py:462-471 | a file with a camera and a start gives its segment to that camera and no other |
| ImporterReconcile.AddStep | cheesepie/importer.py:471 | adding a file's segment keeps every camera's list equal to the segments of the files read so far |
| ImporterReconcile.SkipStep | cheesepie/importer.py:461-470 | a file without a requested camera or a start leaves every list as it was |
| ImporterReconcile.GroupFile | cheesepie/importer.py:461-471 | one pass of the manifest loop keeps the cameras and extends each list by at most this file's segment |
| ImporterReconcile.GroupByCamera | cheesepie/importer.py:459-471 | the manifest loop gives exactly the requested cameras, each with its segments in manifest order |
| ImporterReconcile.PrepareFromManifest | cheesepie/importer.py:443-516 | the plan is the specified one for the day windows of the requested dates and the nominal duration `fac.get('max_file_duration')` gives; the source always reaches `None` there (see `PlannedDuration`) |
| ImporterReconcile.PlannedDuration | cheesepie/importer.py:441-458 | the facility record has no `max_file_duration`, so the duration is the 4 h fallback and every segment is nominally 14400000 ms long |
| ImporterReconcile.DayPlanShape | cheesepie/importer.py:503-514 | a day is written to its list path and counts its items; it is pending iff it has items, iff its list has lines, and the lines are the items' |
| ImporterReconcile.CameraPlanShape | cheesepie/importer.py:473-515 | a camera has one day per window, numbered from 1 and named for its camera and number; a day is pending iff it has pieces, iff its list has lines |
| ImporterReconcile.PlanShape | cheesepie/importer.py:472-516 | there is one entry per requested camera, in the order requested, each the plan of that camera's segments |
| ImporterReconcile.DayListReadBack | cheesepie/importer.py:503-507 | the list of a day reads back as the items of its window, and its segment count is their number |
| ImporterReconcile.CameraWithoutFiles | cheesepie/importer.py:474-477 | a camera none of whose files has a known start is missing on every day and no list is written for it |
| ImporterEncode.CountFrom | cheesepie/importer.py:1750-1755 | the days the total counts are never more than the days listed |
| ImporterEncode.DayStepMeaning | cheesepie/importer.py:1830-1921 | a day is MISSING iff it has no segments, DONE iff it has segments, its list exists, nothing cancelled it and the encoder exited 0, CANCELLED iff cancelled before or during encoding; only a cancel stops the camera's loop, exactly the DONE and FAILED days advance `progress`, and a missing list gives FAILED with `list not found` |
| ImporterEncode.FinishedCount | cheesepie/importer.py:1845 | the finished entries are never more than the entries |
| ImporterEncode.RunStepsEntries | cheesepie/importer.py:1830-1921 | the loop's j-th entry is the entry of step j, and every step is taken unless one stops |
| ImporterEncode.RunStepsStop | cheesepie/importer.py:1866-1915 | the loop stops on the first cancelled day and only there |
| ImporterEncode.RunStepsProgress | cheesepie/importer.py:1845-1916 | `progress` counts the finished days |
| ImporterEncode.DayStepsSound | cheesepie/importer.py:1830-1921 | every step of a camera stops exactly on a cancel, advances exactly on a finished day, and makes the entry of its own day |
| ImporterEncode.RunDaysMeaning | cheesepie/importer.py:1827-1923 | a camera's entries follow its days in order, one each, until the first cancelled day, where the loop stops; `progress` moves once per finished day |
| ImporterEncode.RunStepsUnfold | cheesepie/importer.py:1830-1921 | one pass of the loop is its step followed by the rest unless it stops |
| ImporterEncode.EncodeCamera | cheesepie/importer.py:1827-1923 | the day loop of one camera produces exactly the specified run |
| ImporterEncode.EncodeDay | cheesepie/importer.py:1831-1915 | one day's handling produces exactly the specified step |
| ImporterEncode.AsSent | cheesepie/importer.py:1766 | the stored plan has the client's cameras in order and every day exactly as sent, unprocessed |
| ImporterEncode.QueuedJob | cheesepie/importer.py:1759-1769 | the queued record is `QUEUED` with no progress, the total of counted days and the plan as sent |
| ImporterEncode.RunEncodeJob | cheesepie/importer.py:1771-1930 | the job run to its end is exactly the specified final job |
| ImporterEncode.PutAll | cheesepie/importer.py:1786-1791 | the day-map loop produces exactly the specified map |
| ImporterEncode.Snapshot | cheesepie/importer.py:1782-1826 | the snapshot loop produces exactly the specified snapshot |
| ImporterEncodeFacts.RunCamerasMeaning | cheesepie/importer.py:1827-1923 | every camera of the plan runs, in order, whatever happened before it, and the job is cancelled iff some camera's days ended on a cancel |
| ImporterEncodeFacts.JobStatusMeaning | cheesepie/importer.py:1925-1929 | the job ends CANCELLED iff some camera's loop ended on a cancel, and DONE otherwise |
| ImporterEncodeFacts.RunStepsWithinCount | cheesepie/importer.py:1750-1755 | when only counted days advance it, the loop's progress is at most the count of those days |
| ImporterEncodeFacts.RunCamerasWithinTotal | cheesepie/importer.py:1750-1755 | for a plan as the planner writes it, the cameras' progress is within the total over them |
| ImporterEncodeFacts.ProgressWithinTotal | cheesepie/importer.py:1750-1916 | for a plan as the planner writes it, `progress` never passes `total` |
| ImporterEncodeFacts.ProgressBeyondTotal | cheesepie/importer.py:1832 | a day without a `segments` key that is not marked missing is encoded and advances `progress` while the total does not count it, so `progress` can pass `total` |
| ImporterEncodeFacts.DayMapOfMeaning | cheesepie/importer.py:1786-1800 | the day map stays keyed by day number, every numbered entry gets its key, and each value is one of the entries or was there before |
| ImporterEncodeFacts.ProcessedKeyed | cheesepie/importer.py:1784-1792 | every processed camera's day map is keyed by day number |
| ImporterEncodeFacts.CurrentKeyed | cheesepie/importer.py:1793-1800 | merging the current camera's days keeps every day map keyed |
| ImporterEncodeFacts.SnapshotShape | cheesepie/importer.py:1802-1826 | a snapshot has one entry per camera of the plan, in order, each with one day per planned day |
| ImporterEncodeFacts.SnapshotDay | cheesepie/importer.py:1808-1824 | a processed day shows the entry for that very day number; an unprocessed one keeps its fields and is PENDING iff the total counts it, MISSING otherwise; a day the current camera has an entry for shows a current entry |
| ImporterEncodeFacts.NothingProcessedDays | cheesepie/importer.py:1808-1824 | with nothing processed, a camera's PENDING days are the days the total counts |
| ImporterEncodeFacts.NothingProcessedCameras | cheesepie/importer.py:1802-1826 | with nothing processed, the PENDING days over the cameras add up to the total |
| ImporterEncodeFacts.AsPlannedDay | cheesepie/importer.py:1808-1823 | a day as the planner writes it (`PENDING` with segments, `MISSING` with 0) keeps its status in a snapshot |
| ImporterEncodeFacts.SnapshotOfPlanned | cheesepie/importer.py:1782-1826 | for a plan as the planner writes it, a snapshot with nothing processed is the plan as sent |
| ImporterEncodeFacts.QueuedPendingIsTotal | cheesepie/importer.py:1750-1769 | for a plan as the planner writes it, the queued plan's PENDING days are exactly the days the total counts |
| ImporterEncodeFacts.QueuedKeepsClientStatus | cheesepie/importer.py:1750-1769 | a client day sent as `DONE` with segments stays `DONE` in the queued plan while the total counts it, so for arbitrary plans PENDING days and total differ |
| ImporterEncodeFacts.DayStemNoSlash | cheesepie/importer.py:503 | a day's list name is a single path component |
| ImporterEncodeFacts.OutNameOfTxt | cheesepie/importer.py:1833-1834 | the video of a `.txt` list is named after the list |
| ImporterEncodeFacts.OutNameOfPlannedList | cheesepie/importer.py:1833-1837 | the video of a list the planner wrote is named after the list, the same name the loop gives a day without one |
| Preproc.NameTailLength | cheesepie/preproc.py:17 | everything after the group of a valid name is exactly 24 characters (`.expNNNN.dayNN.camNN.ext`) |
| Preproc.GroupHasNoDot | cheesepie/preproc.py:17 | a group is non-empty and holds no `.` |
| Preproc.MatchFormat | cheesepie/preproc.py:16-26 | the captures of a valid name are read back from the name they spell |
| Preproc.MatchNameEnds | cheesepie/preproc.py:17 | a full match spells valid captures and never ends in a newline |
| Preproc.ParseVideoNameExact | cheesepie/preproc.py:16-26 | a name parses to v iff v is valid and the name spells it, optionally followed by one newline (the `$` of `re.match`) |
| Preproc.SameGroupIgnoresDay | cheesepie/preproc.py:48 | two names are in one group iff they differ at most in the day; the relation is symmetric |
| Preproc.GroupKeyParts | cheesepie/preproc.py:65 | the group key holds group, experiment, camera and extension at fixed offsets from its end |
| Preproc.GroupKeyExact | cheesepie/preproc.py:48-65 | for valid names equal group keys iff same group |
| Preproc.DayParses | cheesepie/preproc.py:61-64 | every listed day is two digits, so `int(day)` succeeds and the string-sort fallback is never taken |
| Preproc.GroupEntriesSnoc | cheesepie/preproc.py:42-60 | one more directory entry appends its item, if it gives one |
| Preproc.GroupListingMeaning | cheesepie/preproc.py:41-64 | the listing is sorted by day, an item is listed iff some file entry gives it, and every listed name parses into the active group with its day |
| Preproc.GroupEntriesMembers | cheesepie/preproc.py:42-60 | the collected entries are exactly the items the file entries give |
| Preproc.CollectGroup | cheesepie/preproc.py:41-64 | the listing loop followed by the sort produces exactly the specified group listing |
| Preproc.GroupRequestMeaning | cheesepie/preproc.py:29-66 | the request succeeds iff the stripped video is non-empty, names a file and its name parses; the key is the active name's group key and the active file is listed; every error is 400 or 404 |
| Preproc.PutLookup | cheesepie/preproc.py:113-118 | assigning a setting sets its key (when given) and leaves every other key alone |
| Preproc.ApplyTargetMeaning | cheesepie/preproc.py:102-124 | one target is not found iff not a file, fails iff its state is not a dict, and otherwise takes each given setting while keeping every other key; the arena file is written iff an arena was given |
| Preproc.ApplyPlanMeaning | cheesepie/preproc.py:70-99 | an accepted copy has a source file, some setting and a non-empty target list, prefers the state file's arena over the arena file; every error is 400, 404 or 500 |
| Preproc.MiceMarked | cheesepie/preproc.py:195-204 | the per-mouse flag loop answers whether every mouse numbered 1..n has at least one mark |
| Preproc.OutsideMarkIgnored | cheesepie/preproc.py:197-203 | a mark whose mouse number is missing or outside 1..n changes nothing |
| Preproc.CheckColorsMeaning | cheesepie/preproc.py:189-205 | the colours pass iff they are a dict with a non-empty marks list and, when mice are listed, a mark for every mouse |
| Preproc.SaveMultiMeaning | cheesepie/preproc.py:175-205 | an accepted save has targets, an arena with `tl` and `br` dicts, regions with an item list and checked colours, and writes exactly those; every error is 400 or 500 |
| Preproc.SaveTargetMeaning | cheesepie/preproc.py:207-228 | one target is not found iff not a file, fails iff its state is not a dict, and otherwise takes the marked arena, regions and colours, keeps every other key, and gets the arena file |
| Preproc.CellsSnoc | cheesepie/preproc.py:352-362 | one more raw cell appends its converted cell, if it converts |
| Preproc.NormaliseCells | cheesepie/preproc.py:349-362 | the cell loop produces exactly the specified normalised cells |
| Preproc.CellsOfMeaning | cheesepie/preproc.py:349-362 | a non-list gives no cells; otherwise at most one cell per entry, each from some entry, and every convertible entry is kept |
| Preproc.CellShapes | cheesepie/preproc.py:354-357 | both accepted shapes, `[r, c, ...]` and `{'r': r, 'c': c}`, give the cell they spell |
| Preproc.CellsRoundTrip | cheesepie/preproc.py:349-363 | normalising saved cells gives them back |
| Preproc.RenderItemFields | cheesepie/preproc.py:363 | a saved item's name, flags and cells read back as written |
| Preproc.RoiItemRoundTrip | cheesepie/preproc.py:341-363 | a saved item is read back as itself |
| Preproc.RoiItemsSnoc | cheesepie/preproc.py:341-363 | one more request item appends its saved item, unless skipped |
| Preproc.CollectRoiItems | cheesepie/preproc.py:341-363 | the item loop produces exactly the specified saved items |
| Preproc.FirstNamed | cheesepie/preproc.py:367-368 | the found index is the first set that is a dict with that stripped name, and none is found iff no set has it |
| Preproc.UpsertRoiSet | cheesepie/preproc.py:365-373 | the scan replaces the first set of that name or appends, and reports replaced iff some set has that name |
| Preproc.UpsertedMeaning | cheesepie/preproc.py:365-373 | a replacement keeps the length and an append adds one; every other set is unchanged |
| Preproc.UpsertedFound | cheesepie/preproc.py:365-373 | after the upsert the object is the first set of its name, and upserting it again changes nothing |
| Preproc.SetupNamed | cheesepie/preproc.py:329-330 | the saved setup carries its own stripped name |
| Preproc.SetupSaveInto | cheesepie/preproc.py:310-373 | a save that passes its checks is the upsert of the built setup into the named facility |
| Preproc.SaveIntoMeaning | cheesepie/preproc.py:319-373 | a successful save changes only the named facility's `roi_sets`, which becomes the old list with the setup upserted; other facilities and keys read as before |
| Preproc.SetupSaveFound | cheesepie/preproc.py:329-373 | after a save the setup is the first set of its name, and saving it again changes nothing |
| Preproc.PutFacilitiesRead | cheesepie/preproc.py:319-321 | reading the facilities back after writing them gives what was written, from the same place |
| Media.MediaRequestMeaning | cheesepie/media.py:116-124 | a blank `path` is answered 400 and a missing file 404; otherwise no header or an empty one serves the whole file and a non-empty one is parsed as a range |
| Media.RangeRejects | cheesepie/media.py:132-138 | a non-empty header without `=`, whose unit is not `bytes` once stripped, or that lists several ranges is answered 416 |
| Media.RangeBounds | cheesepie/media.py:139-146 | every partial answer has start <= end and a positive declared length, and for a non-empty file lies inside it and declares at most the file size |
| Media.ClampMeaning | cheesepie/media.py:144-145 | clamping keeps a range that fits the file and otherwise only shortens it, starting at min(start, size-1) |
| Media.DecimalPlain | cheesepie/media.py:139-141 | the decimal digits of a bound hold none of the separators `-`, `,`, `=` and convert back with `int()` |
| Media.BytesHeader | cheesepie/media.py:134-139 | a `bytes=` header is unsatisfiable with a comma and otherwise read by its bounds |
| Media.DashRange | cheesepie/media.py:139 | `a-b` splits into start `a` and end `b` when `a` has no dash |
| Media.RangeRoundTrip | cheesepie/media.py:132-146 | the header `bytes=s-e` with s <= e < size is answered with exactly bytes s..e |
| Media.RangeMissingStart | cheesepie/media.py:140 | `bytes=-e` reads as the first e+1 bytes (start defaults to 0), not as a suffix range |
| Media.RangeMissingEnd | cheesepie/media.py:139-141 | `bytes=s-` and `bytes=s` both run from s to the last byte |
| Media.RangeBackwards | cheesepie/media.py:142-143 | a range whose end is before its start is answered 416 |
| Media.Read | cheesepie/media.py:154 | one read returns at most the bytes asked for |
| Media.Stream | cheesepie/media.py:148-158 | the streamed chunks are each 1..8192 bytes and together are exactly the file's bytes from start, at most `length` of them |
| Media.WindowLength | cheesepie/media.py:148-158 | the stream never sends more than the declared length, and sends all of it when the range fits the file |
| Media.PartialBodyExact | cheesepie/media.py:146-163 | for a non-empty file the body of a 206 is exactly bytes start..end, matching `Content-Length` |
| Media.EmptyFileRange | cheesepie/media.py:144-163 | for an empty file every satisfiable header becomes `bytes 0-0/0` with `Content-Length` 1 while the body is empty |
| Track.ParseLastLogState | cheesepie/track.py:35-67 | scanning every line and keeping the last decoded value gives exactly the state the last usable line determines, the default for a missing log |
| Track.LastDecodedMeaning | cheesepie/track.py:48-55 | nothing is decoded iff every line is blank or rejected by the decoder; otherwise the value is that of a usable line after which no usable line follows |
| Track.LastLineWins | cheesepie/track.py:46-64 | the state is read from the last non-blank line the decoder accepts, whatever came before |
| Track.NothingUsable | cheesepie/track.py:36-57 | a missing log, or one whose lines are all blank or malformed, gives the default state: PENDING, no step, index 0, total 0, empty message |
| Track.StateFallbacks | cheesepie/track.py:58-64 | each field of the last event is taken when truthy and falls back otherwise: event to PENDING, index and total to 0, msg to `''`; step is copied as given |
| Track.StateShapes | cheesepie/track.py:36-67 | whatever the log holds, the event is never blank and index, total and msg are either their defaults or truthy values |
| Track.UpperTwice | cheesepie/track.py:151 | upper-casing an event name twice changes nothing |
| Track.EventStatusMeaning | cheesepie/track.py:151-159 | case-insensitively, RUN_END gives DONE, ERROR gives ERROR, RUN_START/STEP_START/STEP_END give RUNNING and anything else PENDING; no event gives CANCELLED |
| Track.CancelledIff | cheesepie/track.py:161-166 | a file shows CANCELLED iff cancel was requested, it is the current file, the job is not done and its event status is not DONE or ERROR; otherwise it keeps its event status |
| Track.AllDoneIff | cheesepie/track.py:176 | the `all(...)` test holds iff every item is DONE |
| Track.AnyFailedIff | cheesepie/track.py:176 | the `any(...)` test holds iff some item is ERROR or CANCELLED |
| Track.OverallMeaning | cheesepie/track.py:176 | the overall status is DONE iff all items are DONE, ERROR iff some item is not DONE and some is ERROR or CANCELLED, RUNNING otherwise |
| Track.ItemsMeaning | cheesepie/track.py:146-175 | the items follow the files one to one with each file's log state and derived status; the answer crashes iff some file's event is a truthy non-string |
| Track.FileItem | cheesepie/track.py:145-174 | one pass of the file loop gives exactly the specified entry for its file: the log state and the derived status, or the crash of `.upper()` on a non-string event |
| Track.ReadItems | cheesepie/track.py:144-174 | the file loop gives exactly the specified items: every file's entry in order, or the first crash |
| Track.StatusTrack | cheesepie/track.py:138-180 | the loop over the files answers exactly the specified status answer, stopping at the first crash |
| Track.StatusMeaning | cheesepie/track.py:138-180 | an unknown job id is a 404; a non-empty job error forces ERROR, otherwise the status is the fold of the items; `done`, `error` and the item count come from the job |
| Track.RequestedFilesMeaning | cheesepie/track.py:121-135 | a start or retry request is accepted iff `files` is a non-empty list, every entry then becomes one file as `str(x)`; anything else is a 400 |
| Track.CancelMeaning | cheesepie/track.py:183-191 | cancelling an unknown job is a 404; otherwise only the named job gets `cancel_requested` set |
| Track.FreshJobRunning | cheesepie/track.py:128-180 | a new job whose files have no logs yet shows every file PENDING and the job RUNNING |
| Track.CancelShows | cheesepie/track.py:161-191 | after a cancel the current file of a running job shows CANCELLED unless its last event made it DONE or ERROR |
| Analyze.Transpose | cheesepie/analyze.py:50 | the transpose swaps the shape and every entry's row and column |
| Analyze.TransposeTwice | cheesepie/analyze.py:50 | transposing twice gives the array back |
| Analyze.OrientMeaning | cheesepie/analyze.py:47-52 | an oriented array is no taller than wide, is the array itself iff rows <= cols, is its transpose otherwise, and orienting again changes nothing |
| Analyze.Assign | cheesepie/analyze.py:55 | recording a pair adds it under its base, keeps every entry of another base, and adds at most one entry |
| Analyze.AssignKnown | cheesepie/analyze.py:55 | a base already recorded keeps its place in the dict's order, and only its pair is replaced |
| Analyze.AssignNew | cheesepie/analyze.py:55 | a new base is added after every recorded one, which stay as they were |
| Analyze.AddPairMeaning | cheesepie/analyze.py:42-55 | a pair is recorded iff both datasets are 2-D and their oriented shapes agree; every recorded pair is oriented with x and y of one shape |
| Analyze.PickBest | cheesepie/analyze.py:92-100 | the choice is absent iff there are no candidates; otherwise it is the first candidate with the largest frame count |
| Analyze.WindowBounds | cheesepie/analyze.py:106-107 | the start is clamped to >= 0 and the count to 1..2000, leaving values already inside unchanged |
| Analyze.SliceTracksMeaning | cheesepie/analyze.py:105-111 | every row is kept and x and y are cut at the same columns, from the clamped start to min(start+count, frames), none when the start is past the end |
| Analyze.TrackPathMeaning | cheesepie/analyze.py:13-15 | the track file sits in the video's directory named by the whole video name plus `.obj.mat`, distinct videos have distinct track files, and an empty name raises |
| Matlab.InsertSortedMeaning | cheesepie/matlab.py:43 | inserting a name keeps the list strictly sorted and adds exactly that name |
| Matlab.FirstIsLeast | cheesepie/matlab.py:43 | the first name of a sorted whitelist sorts before every other one |
| Matlab.SortedUnique | cheesepie/matlab.py:43 | a set has exactly one strictly sorted listing, so the whitelist is determined by its members |
| Matlab.SortedNames | cheesepie/matlab.py:43 | `sorted(wl_set)` lists each member of the set once, in increasing order |
| Matlab.ListedMeaning | cheesepie/matlab.py:29-36 | a name comes from the entry list iff it is non-empty and some entry strips to it |
| Matlab.CfgMatlab | cheesepie/matlab.py:25-44 | a non-dict configuration or `matlab` section crashes; otherwise enabled, mode, binary and paths take their documented defaults and the whitelist is sorted, duplicate-free and lists exactly the allowed names |
| Matlab.AllowedMeaning | cheesepie/matlab.py:27-37 | `segment_frame` and `Segment` are always allowed, no allowed name is empty, a non-list value adds nothing, and a listed name is allowed iff some entry strips to it |
| Matlab.EmptySectionDefaults | cheesepie/matlab.py:26-40 | a missing section allows only the two built-in functions, is enabled and uses the `engine` mode |
| Matlab.ModeMeaning | cheesepie/matlab.py:40 | the mode is never blank: a blank value gives `engine`, another value its stripped text |
| Matlab.GateMeaning | cheesepie/matlab.py:177-185 | with the integration enabled and running, an empty function name is a 400, a name is a 403 iff the whitelist is non-empty and lacks it, and the call goes through otherwise |
| Matlab.ConfiguredGate | cheesepie/matlab.py:181-185 | with the whitelist from the settings a call goes through iff its name is allowed, and any other non-empty name is a 403 |

## Left out

- Tasks.TaskRegistry.Now: stamps are a counter that rises at every reading. The source's
  `datetime.utcnow().isoformat() + 'Z'` strings can repeat across back-to-back calls, and since
  `isoformat` drops a zero microsecond field they do not always sort in call order. The model
  assumes distinct stamps ordered as the calls; ties in the listing sort are covered only by
  `Collections.SortByStable`.
- TaskFacts.NewTaskMeaning: "the start stamp is after the creation stamp" holds for the model's
  clock only; the two `_now_iso()` calls of `_create_task` can return the same string.
- TaskFacts.EnqueuedStartsNext: "started after its creation" holds for the model's clock only; the
  source's stamps can be equal, or sort out of order as strings.
- ImporterEncode.CountFrom: `day` and `segments` are integers or absent in the model, so the
  fallback of the total that counts every listed day when a conversion fails is not modelled.
- ImporterEncode.EncodeDay: the crash of `int(...)` on a non-numeric `segments`, `day` or `camera`
  is not modelled. A `segments` key holding null gives 0 in the source, so the day is MISSING; the
  model has only an absent key (1 unless marked missing) or an integer.
- ImporterReconcile.PrepareFromManifest: the nominal duration is a parameter. In the source it
  is always the 4 h fallback, because the facility records `cfg_importer_facilities`
  (config.py:241-259) build have no `max_file_duration` key, so a configured duration never
  reaches the planner.
- ImporterReconcile.StartOf, ImporterReconcile.SegmentOf: the manifest path is used as the raw
  string. The source first makes it `Path(str(path or '')).expanduser()` (importer.py:467). The
  model does not capture `~` expansion, the collapsing of `//` and `./`, or a trailing `/` that
  changes `.stem`. These change the stem the start is read from and the path written on the
  `file` line only in the source.
- ImporterEncode.OutName: `list_path` is used as the raw string. `Path(...).expanduser()` is not
  modelled: `~` expansion, the collapsing of `//` and `./`, and a trailing `/` changing `.name` all
  affect the `.txt` test, the video's name and the recorded `list_path` in the source only.
- ImporterEncode.OutPath: the output path is the directory, `/` and the name. `base_dir.joinpath`
  normalisation, and an absolute name replacing the directory, are not modelled.
- ImporterManifest.QuoteRoundTrip: the round trip holds for the sequence of lines. A file name
  holding a newline is written across two lines of the file, which that sequence does not show.
- ImporterManifest.ConcatListRoundTrip: holds for the sequence of lines, not for the file's text
  when a path holds a newline.
- Flask routing, request decoding, JSON responses and server-sent event streams: the model starts
  from the decoded request values and ends at the status and body values.
- Running `ffmpeg` and supervising it: the encoder's exit code, and whether a cancel arrived during
  a run, are inputs to the encode model.
- `probe_media` and `ffprobe`: the health and duration check after an encode and its floating-point
  tolerance are not modelled.
- Threads and locks (`TASK_LOCK`, `ENCODE_LOCK`, the track `JOBS` registry): workers are modelled as
  sequential steps, so interleavings are not covered.
- `_persist_tasks` and `_load_tasks`, which write and read the tasks file, are not modelled.
- Filesystem work (directory walks, stat, reads, writes, `mkdir`): which files exist and what a
  directory lists are parameters.
- Regular-expression engines: `_parse_time_from_path` is modelled from the map of named groups a
  match gives, with its defaults. The preprocessing name pattern is modelled by a hand-written
  matcher for that one pattern.
- Local time zones: `timestamp` and `fromtimestamp` are read as naive UTC-like arithmetic. Windows
  are in naive minutes and segment times are milliseconds since the epoch.
- Floating-point values: `_format_bytes`, fractional durations and non-integer JSON numbers are
  not modelled.
- Unicode: `isdigit` and `int()` accept ASCII digits only. `strip`, `upper` and `lower` act on ASCII
  letters and the usual white-space characters.
- Exception messages are fixed strings, not the text Python would produce.
- The segment reconciler exists in several copies in `cheesepie/importer.py`. It is modelled once,
  after lines 459-516; the copies at 1108-1134 and 1652-1678, and the naive-time variant at 754-765
  and 1269-1276, are not modelled separately.
- The `KeyError` raised when `_prepare_plan_from_manifest` looks up an unknown facility is not
  modelled: the model starts after that lookup.
- The unreachable code at `cheesepie/importer.py:586-601` is not modelled.
- Preproc: a `facilities` value that is not a dict reads as empty. The `setdefault` write into the
  process-wide configuration is not modelled. The `/state` endpoint, which reads the state file, is
  not modelled. Nor are the `/arena`, `/background` and `/regions` endpoints, which write the state
  file and, for `/arena`, the `.arena.json` file next to the video: they only store request values.
- Media: the full-file response (`send_file` and the mimetype guess) is not modelled.
- Track: `_worker` (starting the process, polling, killing it) and the creation of thread ids and
  uuids are not modelled. A job is a value snapshot, not a shared object. Reading the log file is a
  parameter, and `json.loads` of each line is an input decoder. For start and retry, only file
  validation and building the new job are modelled.
- Analyze: loading HDF5 and MAT files, and the `visititems` fallback, are not modelled; whether a
  dataset is two-dimensional is an input. Array values are of a generic type. The info and
  positions endpoints are modelled only through the functions they call.
- Matlab: the MATLAB engine itself is not modelled. This covers starting and warming it up,
  `feval`, `_mat_to_py`, and the segment endpoints built on it.
