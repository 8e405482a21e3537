# Auto FTP Sync, modelled in Dafny

Auto FTP Sync keeps a remote FTP directory in step with a local project
directory. This project models its three parts:

- **The watcher engine (`sync_core.py`).**
  - A file-system event handler turns events into `(action, path)` jobs on a FIFO queue. It skips paths that have an ignored name as one of their segments.
  - A worker drains the queue until a sentinel. It turns each path into a '/'-separated path relative to the project and uploads or deletes it.
  - Before each upload, the uploader walks into, and creates where needed, the remote directories of the path. It then returns to the configured remote directory.
  - `stop` is a small state machine built on an `is_stopping` flag.
- **The one-shot synchroniser (`sync.py`).**
  - It hashes the project tree and compares the result with the state saved after the last successful run.
  - It uploads what was added or modified and deletes what disappeared.
  - It saves the new state only when no call failed.
  - It has its own directory helper, which walks cumulative paths.
- **The desktop front end (`app.py`).**
  - The configuration form, with its placeholder texts.
  - Saving the form, and starting a watcher from it.
  - The uptime in the status bar.
  - The log handler that counts synced files and errors.

The files:

- `strings.dfy` (module `Strings`): the Python string operations the code relies on, with Python's semantics. These are `split`, `replace`, `'/'.join`, `startswith`, `endswith`, the `in` test and POSIX `dirname`. It also proves that splitting on '/' finds a segment exactly when that segment sits between separators.
- `remote.dfy` (module `Remote`): an abstract FTP server.
  - The server holds directories, files, the home and current directory, the reachability and login state, the directories it refuses to create, and the commands it received.
  - It has step functions for `login`, `cwd`, `mkd`, `storbinary`, `delete` and `quit`. Their replies are `Ok`, a permanent error (`error_perm`) or another failure.
  - A class `Ftp` performs those steps in place.
  - A directory walk (try `cwd`, else `mkd` then `cwd`) is proved to enter, or create, exactly the prefixes of the path.
- `sync_core.dfy` (module `SyncCore`): `sync_core.py`.
- `snapshot_sync.dfy` (module `SnapshotSync`): `sync.py`.
- `log_lines.dfy` (module `LogLines`): the lines `app.py` logs when it saves the configuration and starts a watcher, and the watcher's start line. It proves that such a line mentions one of the words the log handler counts exactly when the project path it quotes does.
- `gui.dfy` (module `Gui`): the non-widget logic of `app.py`.

Each method that changes state (the queue, the handler, the uploader, the worker, `stop`, the application) is proved against a function of the old state. The properties are then proved about those functions.

The model follows the code, and the code is plain about what it does not do:

- There is no debounce window in the watcher engine.
- No set of known remote directories is kept.
- There is no recursive remote deletion, no retry and no reconnection.
- Directory events are dropped.

## Model

| member | source | states |
|---|---|---|
| SyncCore.IsIgnored | sync_core.py:133-135 | a path is ignored only through some name that holds no '/', i.e. a whole segment |
| SyncCore.SingleSegmentIgnored | sync_core.py:133-135 | both directions: a path with no separator is ignored exactly when it is itself an ignored name |
| SyncCore.IgnoredIffDelimited | sync_core.py:133-135 | both directions: ignored exactly when an ignored name occurs bounded by '/' or the ends of the path; a bare substring inside a segment does not count |
| SyncCore.GithubIsNotGit | sync_core.py:131-135 | `.github/ci` is not ignored although `.git` is a substring of it |
| SyncCore.BackslashSeparates | sync_core.py:135 | `src\.git` is ignored: a backslash separates segments like '/' |
| SyncCore.TaskQueue.Put | sync_core.py:141 | the job is appended at the tail of the queue |
| SyncCore.TaskQueue.TryGet | sync_core.py:174 | takes the head of a non-empty queue; an empty queue is reported as such (where `get` would block) |
| SyncCore.TaskFor | sync_core.py:137-141 | no job exactly when the path is ignored, otherwise exactly `(action, path)` |
| SyncCore.EventTasks | sync_core.py:143-158 | directory events give no job, a move at most two and other events at most one; every job is an upload or delete of a non-ignored path |
| SyncCore.MovedFileDeletesThenUploads | sync_core.py:155-158 | a moved file gives a delete of the source before an upload of the destination, each filtered on its own |
| SyncCore.SyncHandler.constructor | sync_core.py:127-131 | the handler feeds the given queue with the five ignored names |
| SyncCore.SyncHandler.QueueTask | sync_core.py:137-141 | the queue grows by exactly the job for the path, and by nothing when the path is ignored |
| SyncCore.SyncHandler.OnCreated | sync_core.py:143-145 | a created file enqueues its upload |
| SyncCore.SyncHandler.OnModified | sync_core.py:147-149 | a modified file enqueues its upload |
| SyncCore.SyncHandler.OnDeleted | sync_core.py:151-153 | a deleted file enqueues its delete |
| SyncCore.SyncHandler.OnMoved | sync_core.py:155-158 | a moved file enqueues the delete, then the upload |
| SyncCore.RemoteDirPart | sync_core.py:65 | empty exactly when the path has no '/'; otherwise a leading part of the path with every backslash turned into '/', so it holds no backslash |
| SyncCore.FtpUploader.BackToBase | sync_core.py:77-89 | the server and outcome `ReturnToBase` gives: a walk that broke on a plain `cwd` propagates its exception; otherwise `cwd(remote_dir)` is sent and its failure raises |
| SyncCore.ReturnToBase | sync_core.py:77-89 | the final `cwd(remote_dir)` raises exactly when the session is lost or the directory is missing; it never reports "no directory" |
| SyncCore.EnsureSpec | sync_core.py:63-89 | no commands when the path has no directory part; otherwise the session ends in `remote_dir` unless an exception escapes; files are untouched and directories only added |
| SyncCore.EnsureCompletedCreatesPath | sync_core.py:70-89 | on normal completion every prefix of the directory part exists, and every new directory is such a prefix |
| SyncCore.EnsureKeepsSessionAtBase | sync_core.py:63-89 | on a live session with an absolute, existing `remote_dir` nothing escapes and the session ends where it started |
| SyncCore.UploadSpec | sync_core.py:91-103 | stored exactly when the directory helper raised nothing, the local file exists, the session is live and `STOR` may write the resolved remote path, and then the local contents are at that path; skipped as vanished exactly when the helper raised nothing and the local file is gone; any result other than stored changes no remote file |
| SyncCore.DeleteSpec | sync_core.py:105-116 | succeeds exactly when the file exists on a live session, and removes only it |
| SyncCore.FtpUploader.Connect | sync_core.py:50-61 | succeeds exactly when the server is reachable and `remote_dir` exists, and leaves the session in it |
| SyncCore.FtpUploader.EnsureRemoteDir | sync_core.py:63-89 | the loop over the path's parts leaves the server and the outcome `EnsureSpec` gives: no command when the path has no directory part, back in an absolute `remote_dir` unless an exception escapes, no file touched, no directory removed |
| SyncCore.FtpUploader.UploadFile | sync_core.py:91-103 | leaves the server `UploadSpec` gives and returns true exactly when `UploadSpec` says the file was stored |
| SyncCore.FtpUploader.DeleteFile | sync_core.py:105-116 | the result and the server as `DeleteSpec` states |
| SyncCore.FtpUploader.Close | sync_core.py:118-123 | the session is logged out, whether `quit` succeeds or not |
| SyncCore.DispatchOf | sync_core.py:181-189 | an upload or delete job becomes one call with the '/'-separated relative path; other actions are skipped |
| SyncCore.Dispatches | sync_core.py:173-193 | at most one call per job, and no relative path contains '\' |
| SyncCore.DispatchesAppend | sync_core.py:173-193 | jobs are dispatched in queue order |
| SyncCore.EventsReachUploader | sync_core.py:143-189 | each file event reaches the uploader as exactly the calls for its jobs, in order |
| SyncCore.SentinelIndex | sync_core.py:174-176 | the first sentinel, with no sentinel before it |
| SyncCore.Exec | sync_core.py:180-191 | one dispatched call never opens or closes the session and keeps the server well formed; a delete moves no directory and no `cwd` |
| SyncCore.ExecAll | sync_core.py:173-193 | a run of calls never opens or closes the session and keeps the server well formed |
| SyncCore.ExecAllAppend | sync_core.py:173-193 | running two batches of calls is running their concatenation |
| SyncCore.ExecStaysAtBase | sync_core.py:63-116 | from an absolute `remote_dir` on a live session, one call ends live and back in `remote_dir` |
| SyncCore.ExecAllStaysAtBase | sync_core.py:63-123 | from an absolute `remote_dir` on a live session, the worker is back in `remote_dir` after every call |
| SyncCore.Watcher.constructor | sync_core.py:162-169 | a new watcher owns an empty queue, and nothing runs or is stopping |
| SyncCore.Watcher.Start | sync_core.py:198-207 | the worker and the observer run, and events go to a handler feeding this watcher's queue |
| SyncCore.Watcher.ProcessTasks | sync_core.py:171-196 | no job is consumed if connecting fails; otherwise jobs are dispatched in order up to the first sentinel, none after it, and the session is closed |
| SyncCore.Watcher.Drain | sync_core.py:173-193 | takes jobs until the sentinel, leaving the rest of the queue; the server is the effect of the calls in order |
| SyncCore.Watcher.RunJob | sync_core.py:180-191 | one job makes exactly its dispatched calls |
| SyncCore.Watcher.Stop | sync_core.py:209-234 | a no-op while stopping; otherwise one sentinel exactly when the worker is alive, and the flag drops at once when it is not |
| SyncCore.Watcher.CleanupObserver | sync_core.py:236-242 | the observer stops only if it finished within the timeout |
| SyncCore.Watcher.CleanupWorker | sync_core.py:244-252 | the stopping flag is always cleared, as `finally` does |
| Remote.OpenSession | sync_core.py:50-61 | login then `cwd(remote_dir)` succeed exactly when the server is reachable and the directory exists; nothing on the server changes |
| Remote.Enter | sync_core.py:74-85 | one part: when entered, the session stands in it and it exists; at most that one directory is created; a broken step means the session was not live |
| Remote.Walk | sync_core.py:72-85 | each part is entered, or created then entered; files are untouched and directories only added |
| Remote.WalkEntersAll | sync_core.py:72-85 | a walk that finishes stands in the full path, and every prefix exists |
| Remote.WalkCreatesOnlyPrefixes | sync_core.py:72-85 | every directory a walk creates is a prefix of the path |
| Remote.WalkSucceedsOnFreePath | sync_core.py:72-85 | a walk whose prefixes are not files or refused directories finishes |
| Remote.EnterDir | sync_core.py:74-85 | one part: `cwd`, else `mkd` then `cwd`, as `Enter` states |
| SnapshotSync.Key | sync.py:123-124 | a state key never holds '\'; a file at the top of the project is keyed by its own name |
| SnapshotSync.Kept | sync.py:119-127 | a recorded file has a non-empty digest; an ignored name or a `.tmp` file is never recorded |
| SnapshotSync.Snapshot | sync.py:116-128 | every key of the state is free of '\' and maps to a non-empty digest |
| SnapshotSync.SnapshotRecordsKeptFiles | sync.py:116-128 | the state holds exactly the files that pass the filter, each with its digest |
| SnapshotSync.IgnoredNeverRecorded | sync.py:119-122 | an ignored name or a `.tmp` file is never recorded |
| SnapshotSync.GetCurrentState | sync.py:116-128 | the loop builds the state the filter describes |
| SnapshotSync.DetectChanges | sync.py:130-134 | added = current paths not stored; modified = paths in both whose digest differs; deleted = stored paths now gone; values from the right side |
| SnapshotSync.NoChangesAgainstItself | sync.py:130-134 | comparing a state with itself finds nothing |
| SnapshotSync.MakePlan | sync.py:231-238 | upload the current files that are new or changed (all of them when forced), and delete the stored files now gone (none when forced) |
| SnapshotSync.PlanReplaysToCurrent | sync.py:231-238 | applying the plan to the old state gives the current state |
| SnapshotSync.EmptyPlanIffUnchanged | sync.py:237-242 | both directions: an unforced run has nothing to do exactly when the stored state is the current one |
| SnapshotSync.ForcedPlanUploadsAll | sync.py:231 | a forced run uploads every current file and deletes nothing |
| SnapshotSync.DirParts | sync.py:156 | pieces without '/' that join back into the directory part, and `['']` exactly when the path has no '/' |
| SnapshotSync.AsWrittenWalk | sync.py:158-166 | the loop as written never touches files, the lock list or the session, only adds directories, and keeps the server well formed |
| SnapshotSync.AsWrittenEnter | sync.py:161-166 | a failed step leaves the directory and the tree as they were; an entered step stands in the path resolved from where the step began, a directory that exists |
| SnapshotSync.Conclude | sync.py:163-167 | completes exactly when the walk entered everything and `remote_dir` exists on a live session, then stands in it; after an exception the session stays where the walk stopped |
| SnapshotSync.AsWrittenEnsure | sync.py:155-167 | the helper as written: no commands for a root-level file; from an absolute `remote_dir`, completion ends in it; an exception leaves the session where the walk stopped; files untouched |
| SnapshotSync.EnsureSpec | sync.py:155-167 | the corrected helper: no commands for a root-level file; on completion the session is back in `remote_dir`; files untouched |
| SnapshotSync.EnsureWith | sync.py:155-167 | either helper: no commands exactly for a root-level file, files untouched, directories only added, the session kept |
| SnapshotSync.EnsureCreatesPathOnFreeTree | sync.py:155-167 | the corrected helper completes on a free tree and creates exactly the prefixes of the path |
| SnapshotSync.AsWrittenSecondStepFails | sync.py:161-166 | standing in `a` without `a/a`, the as-written step on `a/b` fails and changes nothing |
| SnapshotSync.AsWrittenNestedWalkFails | sync.py:159-166 | the loop as written fails on `a/b` whichever way its first step goes |
| SnapshotSync.NestedPathDefeatsAsWritten | sync.py:159-166 | for `a/b/f.txt` the helper as written fails where `a/a` does not exist |
| SnapshotSync.StrandedWalk | sync.py:159-166 | that failing walk stops standing in `a`, having created at most `a` |
| SnapshotSync.StrandedEnsure | sync.py:155-167 | the helper as written raises on `a/b/f.txt` and leaves the session live in `a`; no `cwd(remote_dir)` is sent |
| SnapshotSync.RaisedUpload | sync.py:169-178 | when the helper raises, `upload_file` returns false and the session stays where the helper left it |
| SnapshotSync.RootLevelUpload | sync.py:169-175 | a root-level upload stores the file in whatever directory the session stands in |
| SnapshotSync.StrandedAfterNestedFailure | sync.py:155-178 | after the failed upload of `a/b/f.txt` the session stays in `a`, so the next root-level upload of `g` succeeds and lands at `a/g` |
| SnapshotSync.NestedPathCorrected | sync.py:155-167 | for `a/b/f.txt` the corrected helper completes and creates `a` and `a/b` |
| SnapshotSync.UploadSpec | sync.py:169-178 | with either helper: succeeds exactly when the helper did not raise, the file could be read and `STOR` was accepted, which stores the local contents where the session stands; a failure changes no file |
| SnapshotSync.Exec | sync.py:252-265 | no call opens or closes the session or removes a directory; a delete succeeds exactly when the file exists on a live session |
| SnapshotSync.ExecAllKeepsSession | sync.py:250-265 | a run of calls never opens or closes the session or removes a directory, and keeps the server well formed |
| SnapshotSync.ExecAllAppend | sync.py:250-265 | the uploads then the deletes act as one run of calls |
| SnapshotSync.OutcomesSnoc | sync.py:254-265 | one more call puts its file among the successes or the failures, exactly as that call went |
| SnapshotSync.NoFailuresIffAllSucceed | sync.py:269 | both directions: no file failed exactly when every call, each on the server the calls before it left, succeeded |
| SnapshotSync.OutcomesAppend | sync.py:250-265 | the outcomes of the uploads then the deletes are those of the uploads and those of the deletes on the server the uploads left |
| SnapshotSync.UploadsThenDeletesFollowPlan | sync.py:250-265 | one upload per file to upload, then one delete per file to delete, each file once |
| SnapshotSync.FtpUploader.Connect | sync.py:142-153 | succeeds exactly when the server is reachable and `remote_dir` exists |
| SnapshotSync.FtpUploader.EnterAsWritten | sync.py:161-166 | one step of the loop as written, as `AsWrittenEnter` states |
| SnapshotSync.FtpUploader.EnsureRemoteDirAsWritten | sync.py:155-167 | the loop with the cumulative path, as `AsWrittenEnsure` states |
| SnapshotSync.FtpUploader.EnsureRemoteDir | sync.py:155-167 | the corrected loop, as `EnsureSpec` states |
| SnapshotSync.FtpUploader.UploadFile | sync.py:169-178 | the result and the server as `UploadSpec` states, for the uploader's helper |
| SnapshotSync.FtpUploader.DeleteFile | sync.py:180-187 | true exactly when the file existed on a live session |
| SnapshotSync.FtpUploader.Close | sync.py:189-191 | `quit` is sent, and its reply returned |
| SnapshotSync.UploadNext | sync.py:254-257 | the call's result is the outcome of `upload_file` on the server the earlier calls left |
| SnapshotSync.DeleteNext | sync.py:262-265 | the call's result is the outcome of `delete_file` on the server the earlier calls left |
| SnapshotSync.LoopStep | sync.py:252-265 | one turn keeps each loop's book-keeping: the file joins the successes or the failures as its own call went |
| SnapshotSync.UploadAll | sync.py:250-257 | every file is uploaded once; the successes are exactly the files whose call succeeded and the failures those whose call failed |
| SnapshotSync.DeleteAll | sync.py:259-265 | every file is deleted once; the successes are exactly the files whose call succeeded and the failures those whose call failed |
| SnapshotSync.Committed | sync.py:250-269 | over both loops, the calls follow the plan, the files split by their own call's outcome, and nothing failed exactly when every call succeeded |
| SnapshotSync.CarryOut | sync.py:250-275 | the loops, `close`, and the state saved exactly when `close` returned and no call failed |
| SnapshotSync.RunSync | sync.py:214-279 | a busy lock or a missing configuration skips the run; an empty plan returns before connecting; the calls follow the plan and each file is counted by its own call's outcome; the state is saved, and equals the current state, exactly when `quit` returned and no call failed |
| SnapshotSync.SavedStateMakesNextRunEmpty | sync.py:269-270 | after a successful run, a run over the same tree has nothing to do |
| Gui.SplitUptime | app.py:320-323 | `hours*3600 + minutes*60 + seconds == uptime`, with minutes and seconds in [0, 60) |
| Gui.SplitUptimeUnique | app.py:320-323 | that decomposition is the only one with minutes and seconds in range |
| Gui.Truncate | app.py:320 | `int()` truncates toward zero |
| Gui.Decimal | app.py:327 | the decimal text of a natural number is a non-empty run of digits |
| Gui.DecimalRoundTrip | app.py:327 | the decimal text reads back as the number |
| Gui.IntText | app.py:327 | `str(n)` reads back as `n`, is digits after an optional minus sign, and all digits when `n` is not negative |
| Gui.Pad2 | app.py:324 | `02d` text reads back as the number, is digits after an optional minus sign, has at least two characters and exactly two below 100 |
| Gui.ClockText | app.py:324 | the `HH:MM:SS` text splits at ':' into three fields that read back as the hours, minutes and seconds; eight characters when each is below 100 |
| Gui.UptimeText | app.py:320-324 | the three fields of the uptime text add back up to the whole seconds elapsed, with minutes and seconds below 60 |
| Gui.StatusJoin | app.py:327 | the four status fields joined with '\|' are the status-bar text |
| Gui.StatusLine | app.py:327 | the status-bar text splits at '\|' back into its four fields, none of which holds a '\|' |
| Gui.App.StatusBar | app.py:316-329 | "就绪" unless a watcher runs with a start time; otherwise exactly `监控中 \| 已同步: <synced> \| 错误: <errors> \| 运行时长: <uptime>`, which splits back into those four fields |
| Gui.InitialForm | app.py:92-115 | the five fields in order, with distinct names; an entry is grey exactly when it shows a placeholder text |
| Gui.FocusIn | app.py:224-228 | the entry is cleared only when it shows its placeholder |
| Gui.FocusOut | app.py:230-234 | the placeholder is put back only in an empty entry |
| Gui.FocusInOutRestores | app.py:224-234 | both directions: focusing in and out restores the text exactly when it was not empty (or the placeholder is empty) |
| Gui.PlaceholderSurvivesFocus | app.py:224-234 | a grey placeholder survives focusing in and out |
| Gui.FocusIdempotent | app.py:224-234 | each handler applied twice equals applying it once |
| Gui.App.OnEntryFocusIn | app.py:224-228 | for an entry built with its own non-empty placeholder (app.py:109-115): only that entry changes, as `FocusIn` states with that placeholder |
| Gui.App.OnEntryFocusOut | app.py:230-234 | for an entry built with its own non-empty placeholder (app.py:109-115): only that entry changes, as `FocusOut` states with that placeholder |
| Gui.Keep | app.py:411 | a kept value is never empty; a non-empty value that does not start like `例如:` is kept |
| Gui.ExamplesNeverKept | app.py:411 | no value starting with `例如:` is kept, whatever follows |
| Gui.Collected | app.py:407-412 | a field is saved exactly when its value is non-empty and not an example, with its own value |
| Gui.Complete | app.py:429-433 | a complete form saves every field, each with its own value |
| Gui.UntouchedForm | app.py:92-115 | the untouched form is incomplete, yet saving it keeps the port, user name and remote directory placeholders |
| Gui.CollectConfig | app.py:407-412 | the loop builds `Collected` |
| Gui.FirstIncomplete | app.py:429-433 | no field is reported exactly when the form is complete; otherwise the first field without a value |
| Gui.App.SaveConfig | app.py:399-421 | without a project directory nothing happens. Otherwise the kept fields are written. On success they become the configuration and the saved line is counted, which moves no counter when the project path mentions no counted word. On failure the configuration stays and the error line adds exactly one error |
| Gui.App.StartWatching | app.py:423-451 | starts exactly when there is a directory, the form is complete and the save succeeds. Then the configuration is saved, the counters restart at `now` and hold only what the watcher's start line adds (nothing for a quiet path), and the watcher runs on the saved configuration. Otherwise only a failed save changes anything: one more error |
| Gui.App.Launch | app.py:440-451 | the counters restart at `now` and move only as the start line and the banner are counted; the watcher runs on the project with the saved configuration; nothing else changes |
| Gui.ClassifyByWords | app.py:547-553 | both directions: an error exactly when the level name contains `ERROR` or `错误` or `失败` is in the message; a synced file exactly when it is not an error and `上传` or `同步` is in the message |
| Gui.InfoCountsByWords | app.py:547-553 | an `INFO` record moves no counter exactly when its message is quiet (none of the four words is in it) |
| Gui.ErrorLevelCounts | app.py:547-549 | a record logged at level `ERROR` always counts as an error, whatever its text |
| Gui.AfterSave | app.py:415 | the counters after the saved line are those the handler gives for it, and are unchanged when the project path is quiet |
| Gui.AfterSaveFailed | app.py:420 | the failure line of a save adds exactly one error and nothing else |
| Gui.AfterStart | app.py:447-451 | the counters after the watcher's start line and the banner are those the start line alone gives (the banner counts nothing), and are unchanged when the project path is quiet |
| LogLines.ContainsPair | app.py:547-553 | a two-character word is `in` a text exactly when two neighbouring characters of the text spell it |
| LogLines.QuietMentions | app.py:547-553 | a text is quiet exactly when none of 错误, 失败, 上传, 同步 is spelt by two of its neighbouring characters |
| LogLines.QuietMeansNoWords | app.py:547-553 | both directions: a text is quiet exactly when none of 错误, 失败, 上传, 同步 is `in` it |
| LogLines.QuietByChars | app.py:547-553 | a text without 错, 失, 上 and 同 is quiet |
| LogLines.QuietConcat | app.py:547-553 | two quiet texts joined where no counted word can straddle the seam are quiet |
| LogLines.AroundQuiet | app.py:415 | quiet text around a piece, at safe seams, is quiet exactly when the piece is |
| LogLines.ConfigPath | app.py:404 | POSIX `os.path.join`: the directory, then the file name, with a '/' between exactly when the directory is not empty and does not end in '/' |
| LogLines.ConfigTailQuiet | app.py:404 | what follows the directory in the configuration path is quiet and cannot finish a counted word |
| LogLines.ConfigPathQuiet | app.py:404 | the configuration path mentions a counted word exactly when its directory does |
| LogLines.SavedLineQuiet | app.py:415 | the saved line mentions a counted word exactly when the project path does |
| LogLines.WatchingLineQuiet | sync_core.py:207 | the watcher's start line mentions a counted word exactly when the project path does |
| LogLines.Repeat | app.py:449 | `c * n` is `n` copies of `c` |
| LogLines.BannerQuiet | app.py:449-451 | the rule of sixty `=` and the started line mention no counted word |
| Gui.Count | app.py:547-553 | one record moves at most one counter, by one |
| Gui.FailedUploadCountsAsError | app.py:547-549 | an `[上传失败]` line counts as an error, not a synced file |
| Gui.FailedDeleteWarningCountsAsError | app.py:547-549 | a `[删除失败]` warning counts as an error |
| Gui.SkippedUploadCountsAsSynced | app.py:551-553 | an `[上传跳过]` warning (the local file had vanished) counts as a synced file |
| Gui.TextHandler.Emit | app.py:531-553 | appends the line with its tag, and moves the app's counters as `Classify` says |

## Left out

- **Threads.** The observer thread, the worker thread, the daemon cleanup threads, `join(timeout=5)`, `sync_lock`, the `Timer`-based `Debouncer`, and sync.py's `SyncHandler` and `main` (sync.py:193-212, 281-326) are left out. They are concurrency and timing. The worker is modelled as a run over the queue as it stands. `stop` and the cleanups are modelled as flag changes, with a join's timeout as a parameter.
- **A blocking `get`.** `Queue.get` on an empty queue blocks. The model ends the worker run there, with `Blocked`.
- **`task_done`.** It is left out, because nothing joins the queue.
- **The network.**
  - The real `ftplib` connection is replaced by the abstract server.
  - `set_pasv` and the text encoding are left out.
  - `_test_connection` (app.py:243-270) is left out.
- **No dropped connections.** No step of the abstract server loses the connection or the login in the middle of a session: once `OpenSession` succeeds, only `quit` ends the session. A server that was unreachable from the start is modelled; a timeout or reset between two commands is not. The results below hold only under this limit.
  - SyncCore.EnsureKeepsSessionAtBase: "nothing escapes" relies on the session staying up.
  - SyncCore.ExecAllStaysAtBase: the worker stays in `remote_dir` only because no call loses the session.
- **Relative `remote_dir`.** SyncCore.EnsureKeepsSessionAtBase and SyncCore.ExecAllStaysAtBase assume an absolute `remote_dir`. With a relative one, the first `cwd(remote_dir)` of sync_core.py:68 is sent from inside `remote_dir` and looks one level too deep. The model resolves it the same way, so a nested upload then fails unless `remote_dir` also exists inside itself. No lemma states this case.
- **Close when `quit` fails.** In `SyncCore.FtpUploader.Close` a failing `quit` falls back to `close()`. Both end the session, so one step models them. In sync.py `close` does not catch a failing `quit`; `SnapshotSync.RunSync` then reports `closed` as false and saves nothing, which is where the propagating exception leaves `run_sync`. The exception itself, and the report line it skips, are not modelled.
- **JSON files and the console.** Loading and saving `.ftp_config.json` and `.sync_state.json`, and `input`/`getpass`, are file and console I/O.
  - A configuration that could not be loaded is modelled as `None`.
  - A state that could not be loaded is modelled as the empty state.
  - A configuration-file write is modelled as a success flag.
- **Hashing and the walk.**
  - SHA-256 hashing is opaque, and each digest is given with the file.
  - `os.walk` becomes a list of files, each carrying the directories on its way from the root. Pruning becomes the rule that no directory on that way is ignored.
  - `os.path.relpath`, `os.path.abspath`, and `os.path.join` outside `app.py`'s configuration path are given as parameters or left out. That configuration path is the POSIX `os.path.join`; Windows separators are not modelled.
  - The local file contents are a map. A missing entry is a file that vanished or could not be opened.
- SnapshotSync.RunSync: the `IOError` path of `save_state` is not modelled; the returned `saved` state is what is handed to `save_state`. The report's counts are the sizes of its sets.
- **Remote paths.** Remote paths are lists of components. "." and ".." are not interpreted, and there are no Windows drive letters.
- **Dictionary order.** `UploadAll` and `DeleteAll` do not fix the dictionary's iteration order. Each step picks any remaining file, so every order is covered.
- **The Tk user interface.** Widgets, layout, colours other than the grey placeholder flag, message boxes, the `after` timers, the log view's scrolling, and the uptime label are left out. The status-bar text is modelled.
- Gui.Truncate: the floating-point rounding of `time.time() - start_time` is not modelled. The model subtracts exactly, so at a whole-second boundary the truncated second can differ by one from the program's.
- **Log record formatting.** The timestamp prefix is left out. `Emit` receives the formatted text.
- **Log lines.** The lines of `_save_config` and `_start_watching`, and the watcher's start line, are modelled, and only through the counters they move.
  - They are not appended to a modelled log view. `TextHandler.Emit` alone models the log view.
  - The other lines `app.py` logs (`_browse_directory`, `_load_config`, `_clear_log`, `_stop_watching`, `_finalize_stop`, `_setup_logging`) come from widget and file operations that are left out.
  - The lines the worker thread logs after the start (sync_core.py:171-196) run concurrently and are not modelled. The text of the lines logged elsewhere in `sync_core.py` and `sync.py` is not modelled either. Those lines matter only through the classification of `TextHandler.emit`.
  - The timestamp prefix that the formatter adds (app.py:507) is quiet and ends in a space, so it changes no classification. The model classifies the bare message.

## Findings

`UploadSpec`, `FtpUploader` and `RunSync` take the directory helper as a parameter. `AsWritten` runs sync.py's `_ensure_remote_dir` as written. `Corrected` runs the corrected helper.

| source | as written | input that shows it | evidently intended | confidence | as-written member | corrected member |
|---|---|---|---|---|---|---|
| sync.py:155-178 | `_ensure_remote_dir` builds the cumulative path `a`, then `a/b`, and runs `cwd` on each relative to the directory it already entered, so the second step looks for `a/a/b`; the exception skips the final `cwd(remote_dir)`, so `upload_file` returns false with the session stranded in `a` | remote path `a/b/f.txt` on a tree without `a/a`: `cwd a` succeeds, then `cwd a/b` from inside `a` fails, and so does `mkd a/b`. The session stays in `a`, so a later root-level upload of `g` succeeds but lands at `a/g`, and a later delete of `g` looks for `a/g` | create and enter `a`, then `a/b`, and return to `remote_dir` (stepping one component at a time, as sync_core.py:72-89 does) | not executed | SnapshotSync.StrandedAfterNestedFailure | SnapshotSync.NestedPathCorrected |
