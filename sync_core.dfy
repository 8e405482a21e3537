/**
 * The watch-and-replay engine of sync_core.py: `SyncHandler` turns
 * file-system notifications into `(action, path)` tasks on a FIFO queue,
 * the `Watcher`'s worker drains that queue into an `FTPUploader`, and
 * `Watcher.stop` shuts the pair down without blocking its caller.
 */
module SyncCore {
  import opened Strings
  import opened Remote

  /** The names `SyncHandler` never forwards (sync_core.py:131). */
  const IgnoredItems: set<string> := {".ftp_config.json", ".sync_state.json", "sync.log", ".vscode", ".git"}

  /**
   * `SyncHandler._is_ignored`: some '/'-separated segment of the path, after
   * turning '\' into '/', is an ignored name.
   */
  function IsIgnored(path: string, names: set<string>): (r: bool)
    ensures r ==> exists n :: n in names && '/' !in n
  {
    exists seg :: seg in Split(Replace(path, '\\', '/'), '/') && seg in names
  }

  /** A path without separators is one segment: it is ignored exactly when it is an ignored name. */
  lemma SingleSegmentIgnored(path: string, names: set<string>)
    requires '/' !in path && '\\' !in path
    ensures IsIgnored(path, names) <==> path in names
  {
    ReplaceAbsent(path, '\\', '/');
    assert Join([path], '/') == path;
    SplitUnique([path], '/', path);
  }

  /**
   * Only whole segments match: `path` is ignored exactly when an ignored
   * name sits in the normalised path between separators or the ends.
   */
  lemma IgnoredIffDelimited(path: string, names: set<string>)
    requires forall n :: n in names ==> '/' !in n
    ensures IsIgnored(path, names) ==>
            exists n, i :: n in names && Delimited(Replace(path, '\\', '/'), n, i, '/')
    ensures (exists n, i :: n in names && Delimited(Replace(path, '\\', '/'), n, i, '/')) ==>
            IsIgnored(path, names)
  {
    var p := Replace(path, '\\', '/');
    if IsIgnored(path, names) {
      var seg :| seg in Split(p, '/') && seg in names;
      SplitSegmentsDelimited(p, '/', seg);
      var i :| Delimited(p, seg, i, '/');
    }
    if exists n, i :: n in names && Delimited(p, n, i, '/') {
      var n, i :| n in names && Delimited(p, n, i, '/');
      SplitSegmentsDelimited(p, '/', n);
      assert n in Split(p, '/');
    }
  }

  /** `replace` leaves a string without the replaced character as it is. */
  lemma ReplaceAbsent(s: string, from: char, to: char)
    requires from !in s
    ensures Replace(s, from, to) == s
  {
  }

  /** A name that is only part of a segment is not a match: `.github` is not `.git`. */
  lemma GithubIsNotGit(p: string)
    requires p == ".github/ci"
    ensures !IsIgnored(p, IgnoredItems)
  {
    ReplaceAbsent(p, '\\', '/');
    assert Join([".github", "ci"], '/') == p;
    SplitUnique([".github", "ci"], '/', p);
  }

  /** Windows separators count as separators. */
  lemma BackslashSeparates(p: string)
    requires p == "src\\.git"
    ensures IsIgnored(p, IgnoredItems)
  {
    var q := Replace(p, '\\', '/');
    assert q == "src/.git";
    assert Join(["src", ".git"], '/') == q;
    SplitUnique(["src", ".git"], '/', q);
    assert ".git" in Split(q, '/');
  }

  /** A queued task, or the `None` sentinel that stops the worker. */
  datatype Item = Job(action: string, path: string) | Sentinel

  /** The `queue.Queue` shared by the handler and the worker. */
  class TaskQueue {
    var items: seq<Item>

    constructor ()
      ensures items == []
    {
      items := [];
    }

    /** `put`: append at the tail. */
    method Put(x: Item)
      modifies this
      ensures items == old(items) + [x]
    {
      items := items + [x];
    }

    /** `get` without the waiting: `None` where the real queue would block. */
    method TryGet() returns (x: Option<Item>)
      modifies this
      ensures old(items) == [] ==> x == None && items == []
      ensures old(items) != [] ==> x == Some(old(items)[0]) && items == old(items)[1..]
    {
      if items == [] {
        x := None;
      } else {
        x := Some(items[0]);
        items := items[1..];
      }
    }
  }

  /** A watchdog notification; `destPath` is meaningful for moves only. */
  datatype FsEvent = FsEvent(isDirectory: bool, srcPath: string, destPath: string)

  datatype EventKind = Created | Modified | Deleted | Moved

  /** `_queue_task(action, path)`: nothing for an ignored path, else one job. */
  function TaskFor(action: string, path: string, names: set<string>): (r: seq<Item>)
    ensures r == [] <==> IsIgnored(path, names)
    ensures r != [] ==> r == [Job(action, path)]
  {
    if IsIgnored(path, names) then [] else [Job(action, path)]
  }

  /** What the `on_created` / `on_modified` / `on_deleted` / `on_moved` handlers enqueue. */
  function EventTasks(kind: EventKind, e: FsEvent, names: set<string>): (r: seq<Item>)
    ensures e.isDirectory ==> r == []
    ensures |r| <= if kind == Moved then 2 else 1
    ensures forall t :: t in r ==> t.Job? && !IsIgnored(t.path, names)
    ensures forall t :: t in r ==> (t.action == "upload" || t.action == "delete")
  {
    if e.isDirectory then []
    else match kind
      case Created => TaskFor("upload", e.srcPath, names)
      case Modified => TaskFor("upload", e.srcPath, names)
      case Deleted => TaskFor("delete", e.srcPath, names)
      case Moved => TaskFor("delete", e.srcPath, names) + TaskFor("upload", e.destPath, names)
  }

  /**
   * A moved file is a deletion of the old path strictly before an upload of
   * the new one, each filtered on its own.
   */
  lemma MovedFileDeletesThenUploads(e: FsEvent, names: set<string>)
    requires !e.isDirectory
    ensures var r := EventTasks(Moved, e, names);
      && (Job("delete", e.srcPath) in r <==> !IsIgnored(e.srcPath, names))
      && (Job("upload", e.destPath) in r <==> !IsIgnored(e.destPath, names))
      && (!IsIgnored(e.srcPath, names) && !IsIgnored(e.destPath, names) ==>
            r == [Job("delete", e.srcPath), Job("upload", e.destPath)])
  {
  }

  /** `SyncHandler`: the file-system event handler feeding the queue. */
  class SyncHandler {
    const projectPath: string
    const queue: TaskQueue
    const ignored: set<string>

    constructor (projectPath: string, queue: TaskQueue)
      ensures this.projectPath == projectPath && this.queue == queue && ignored == IgnoredItems
    {
      this.projectPath := projectPath;
      this.queue := queue;
      ignored := IgnoredItems;
    }

    method QueueTask(action: string, path: string)
      modifies queue
      ensures queue.items == old(queue.items) + TaskFor(action, path, ignored)
    {
      if IsIgnored(path, ignored) {
        return;
      }
      queue.Put(Job(action, path));
    }

    method OnCreated(e: FsEvent)
      modifies queue
      ensures queue.items == old(queue.items) + EventTasks(Created, e, ignored)
    {
      if !e.isDirectory {
        QueueTask("upload", e.srcPath);
      }
    }

    method OnModified(e: FsEvent)
      modifies queue
      ensures queue.items == old(queue.items) + EventTasks(Modified, e, ignored)
    {
      if !e.isDirectory {
        QueueTask("upload", e.srcPath);
      }
    }

    method OnDeleted(e: FsEvent)
      modifies queue
      ensures queue.items == old(queue.items) + EventTasks(Deleted, e, ignored)
    {
      if !e.isDirectory {
        QueueTask("delete", e.srcPath);
      }
    }

    method OnMoved(e: FsEvent)
      modifies queue
      ensures queue.items == old(queue.items) + EventTasks(Moved, e, ignored)
    {
      if !e.isDirectory {
        QueueTask("delete", e.srcPath);
        QueueTask("upload", e.destPath);
      }
    }
  }

  /**
   * How `_ensure_remote_dir` ended: no directory part (no command sent),
   * every component entered, given up on a component it could not create
   * (and returned normally), or an exception propagating to the caller.
   */
  datatype Ensured = NoDirectory | Completed | Abandoned | Raised(reply: Reply)

  /**
   * The directory part of a remote path, as `_ensure_remote_dir` computes
   * it: empty exactly when the path has no '/', otherwise a leading part
   * of the path with each backslash turned into '/'.
   */
  function RemoteDirPart(remotePath: string): (r: string)
    ensures r == "" <==> '/' !in remotePath
    ensures |r| <= |remotePath|
    ensures forall i :: 0 <= i < |r| ==> r[i] == (if remotePath[i] == '\\' then '/' else remotePath[i])
    ensures '\\' !in r
  {
    Replace(Dirname(remotePath), '\\', '/')
  }

  /**
   * The end of `_ensure_remote_dir` after the walk: an exception from a plain
   * `CWD` propagates; otherwise the session goes back to `remote_dir`.
   */
  function ReturnToBase(w: (Server, WalkEnd), remoteDir: string): (r: (Server, Ensured))
    ensures r.1 != NoDirectory
    ensures !r.1.Raised? <==> !w.1.Broke? && w.0.Live() && Resolve(w.0.cwd, remoteDir) in w.0.dirs
    ensures !r.1.Raised? ==> r.0.cwd == Resolve(w.0.cwd, remoteDir)
    ensures r.1 == Completed ==> w.1 == Entered
    ensures r.0.dirs == w.0.dirs && r.0.files == w.0.files
    ensures r.0.reachable == w.0.reachable && r.0.loggedIn == w.0.loggedIn
    ensures Valid(w.0) ==> Valid(r.0)
  {
    if w.1.Broke? then (w.0, Raised(OtherError))
    else
      var e := CwdStep(w.0, remoteDir);
      if e.reply != Ok then (e.server, Raised(e.reply))
      else (e.server, if w.1 == Entered then Completed else Abandoned)
  }

  /** `FTPUploader._ensure_remote_dir` (sync_core.py:63-89) on the abstract server. */
  function EnsureSpec(s: Server, remoteDir: string, remotePath: string): (r: (Server, Ensured))
    ensures r.1 == NoDirectory <==> '/' !in remotePath
    ensures r.1 == NoDirectory ==> r.0 == s
    ensures StartsWith(remoteDir, "/") && (r.1 == Completed || r.1 == Abandoned) ==>
              r.0.cwd == Components(remoteDir)
    ensures r.0.files == s.files && s.dirs <= r.0.dirs
    ensures r.0.reachable == s.reachable && r.0.loggedIn == s.loggedIn
    ensures Valid(s) ==> Valid(r.0)
  {
    var d := RemoteDirPart(remotePath);
    if d == "" then (s, NoDirectory)
    else
      var b := CwdStep(s, remoteDir);
      if b.reply != Ok then (b.server, Raised(b.reply))
      else ReturnToBase(Walk(b.server, Split(d, '/')), remoteDir)
  }

  /**
   * On normal completion every prefix of the directory part exists below
   * `remote_dir`, and nothing else was created.
   */
  lemma EnsureCompletedCreatesPath(s: Server, remoteDir: string, remotePath: string)
    requires EnsureSpec(s, remoteDir, remotePath).1 == Completed
    ensures var base := Resolve(s.cwd, remoteDir);
            var r := EnsureSpec(s, remoteDir, remotePath).0;
            && PrefixesExist(r.dirs, base, Components(RemoteDirPart(remotePath)))
            && forall d :: d in r.dirs && d !in s.dirs ==> OnPath(d, base, Components(RemoteDirPart(remotePath)))
  {
    var parts := Split(RemoteDirPart(remotePath), '/');
    var b := CwdStep(s, remoteDir);
    WalkEntersAll(b.server, parts);
    WalkCreatesOnlyPrefixes(b.server, parts);
  }

  /**
   * On a live session to an absolute `remote_dir` that exists, the helper
   * never raises and leaves the session in `remote_dir`; with no directory
   * part it leaves it where it was.
   */
  lemma EnsureKeepsSessionAtBase(s: Server, remoteDir: string, remotePath: string)
    requires Valid(s) && s.Live()
    requires StartsWith(remoteDir, "/") && Components(remoteDir) in s.dirs
    ensures var r := EnsureSpec(s, remoteDir, remotePath);
            && !r.1.Raised?
            && r.0.cwd == (if r.1 == NoDirectory then s.cwd else Components(remoteDir))
  {
    var d := RemoteDirPart(remotePath);
    if d != "" {
      var b := CwdStep(s, remoteDir);
      assert b.reply == Ok;
      var w := Walk(b.server, Split(d, '/'));
      assert !w.1.Broke? && w.0.Live();
      assert CwdStep(w.0, remoteDir).reply == Ok;
    }
  }

  /** Python's `upload_file` result, with the reason behind a `False`. */
  datatype Uploaded = Stored | Vanished | UploadFailed

  /**
   * `FTPUploader.upload_file`: ensure the directory, open the local file
   * (`local` maps local paths to their bytes), then `STOR` it. Every
   * exception is caught.
   */
  function UploadSpec(s: Server, remoteDir: string, local: map<string, Bytes>,
                      localPath: string, remotePath: string): (r: (Server, Uploaded))
    ensures r.1 == Stored ==>
              var e := EnsureSpec(s, remoteDir, remotePath).0;
              localPath in local && r.0.files == e.files[Resolve(e.cwd, remotePath) := local[localPath]]
    ensures r.1 == Vanished ==> localPath !in local && r.0 == EnsureSpec(s, remoteDir, remotePath).0
    ensures var e := EnsureSpec(s, remoteDir, remotePath);
            r.1 == Stored <==> !e.1.Raised? && localPath in local && e.0.Live() && CanStore(e.0, Resolve(e.0.cwd, remotePath))
    ensures var e := EnsureSpec(s, remoteDir, remotePath);
            r.1 == Vanished <==> !e.1.Raised? && localPath !in local
    ensures r.1 != Stored ==> r.0.files == s.files
    ensures r.0.reachable == s.reachable && r.0.loggedIn == s.loggedIn
    ensures Valid(s) ==> Valid(r.0)
  {
    var e := EnsureSpec(s, remoteDir, remotePath);
    if e.1.Raised? then (e.0, UploadFailed)
    else if localPath !in local then (e.0, Vanished)
    else
      var st := StorStep(e.0, remotePath, local[localPath]);
      (st.server, if st.reply == Ok then Stored else UploadFailed)
  }

  /** `FTPUploader.delete_file`: `error_perm` (already gone) and other errors both give `False`. */
  function DeleteSpec(s: Server, remotePath: string): (r: (Server, bool))
    ensures r.1 <==> s.Live() && Resolve(s.cwd, remotePath) in s.files
    ensures r.0.files == if r.1 then s.files - {Resolve(s.cwd, remotePath)} else s.files
    ensures r.0.dirs == s.dirs && r.0.cwd == s.cwd
    ensures r.0.reachable == s.reachable && r.0.loggedIn == s.loggedIn
    ensures Valid(s) ==> Valid(r.0)
  {
    var st := DeleStep(s, remotePath);
    (st.server, st.reply == Ok)
  }

  /** `FTPUploader` of sync_core.py, over one `Ftp` session. */
  class FtpUploader {
    const remoteDir: string
    const ftp: Ftp

    constructor (remoteDir: string, ftp: Ftp)
      ensures this.remoteDir == remoteDir && this.ftp == ftp
    {
      this.remoteDir := remoteDir;
      this.ftp := ftp;
    }

    method Connect() returns (ok: bool)
      modifies ftp
      ensures (ftp.server, ok) == OpenSession(old(ftp.server), remoteDir)
    {
      var r := ftp.Login();
      if r != Ok {
        return false;
      }
      r := ftp.Cwd(remoteDir);
      ok := r == Ok;
    }

    /** Leaving the walk: propagate a plain `CWD` exception, or go back to `remote_dir`. */
    method BackToBase(walkEnd: WalkEnd) returns (e: Ensured)
      modifies ftp
      ensures (ftp.server, e) == ReturnToBase((old(ftp.server), walkEnd), remoteDir)
    {
      if walkEnd.Broke? {
        return Raised(OtherError);
      }
      var r := ftp.Cwd(remoteDir);
      if r != Ok {
        return Raised(r);
      }
      e := if walkEnd == Entered then Completed else Abandoned;
    }

    method EnsureRemoteDir(remotePath: string) returns (e: Ensured)
      modifies ftp
      ensures (ftp.server, e) == EnsureSpec(old(ftp.server), remoteDir, remotePath)
    {
      ghost var s0 := ftp.server;
      var d := RemoteDirPart(remotePath);
      if d == "" {
        return NoDirectory;
      }
      var r := ftp.Cwd(remoteDir);
      if r != Ok {
        return Raised(r);
      }
      var parts := Split(d, '/');
      ghost var walk := Walk(ftp.server, parts);
      assert EnsureSpec(s0, remoteDir, remotePath) == ReturnToBase(walk, remoteDir);
      var i := 0;
      while i < |parts|
        invariant 0 <= i <= |parts|
        invariant Walk(ftp.server, parts[i..]) == walk
      {
        assert parts[i..][0] == parts[i] && parts[i..][1..] == parts[i + 1..];
        if parts[i] != "" {
          var end := EnterDir(ftp, parts[i]);
          if end != Entered {
            assert walk == (ftp.server, end);
            e := BackToBase(end);
            return;
          }
        }
        i := i + 1;
      }
      assert walk == (ftp.server, Entered);
      e := BackToBase(Entered);
    }

    method UploadFile(localPath: string, remotePath: string, local: map<string, Bytes>) returns (ok: bool)
      modifies ftp
      ensures ftp.server == UploadSpec(old(ftp.server), remoteDir, local, localPath, remotePath).0
      ensures ok <==> UploadSpec(old(ftp.server), remoteDir, local, localPath, remotePath).1 == Stored
    {
      var e := EnsureRemoteDir(remotePath);
      if e.Raised? {
        return false;
      }
      if localPath !in local {
        return false;
      }
      var r := ftp.StorBinary(remotePath, local[localPath]);
      ok := r == Ok;
    }

    method DeleteFile(remotePath: string) returns (ok: bool)
      modifies ftp
      ensures (ftp.server, ok) == DeleteSpec(old(ftp.server), remotePath)
    {
      var r := ftp.Delete(remotePath);
      ok := r == Ok;
    }

    /** `quit`, falling back to `close`: the session ends either way. */
    method Close()
      modifies ftp
      ensures ftp.server == QuitStep(old(ftp.server)).server
    {
      var _ := ftp.Quit();
    }
  }

  /** A call the worker makes on the uploader. */
  datatype Dispatch = UploadCall(localPath: string, relPath: string) | DeleteCall(relPath: string)

  /**
   * What the worker does with one job: the path relative to the project,
   * with '\' turned into '/', goes to `upload_file` or `delete_file`; any
   * other action is skipped. `relpath` stands for `os.path.relpath`.
   */
  function DispatchOf(item: Item, projectPath: string, relpath: (string, string) -> string): (r: seq<Dispatch>)
    ensures item.Job? && item.action == "upload" ==>
              r == [UploadCall(item.path, Replace(relpath(item.path, projectPath), '\\', '/'))]
    ensures item.Job? && item.action == "delete" ==>
              r == [DeleteCall(Replace(relpath(item.path, projectPath), '\\', '/'))]
    ensures !item.Job? || (item.action != "upload" && item.action != "delete") ==> r == []
  {
    match item
    case Sentinel => []
    case Job(action, path) =>
      var rel := Replace(relpath(path, projectPath), '\\', '/');
      if action == "upload" then [UploadCall(path, rel)]
      else if action == "delete" then [DeleteCall(rel)]
      else []
  }

  /** The calls made for a run of jobs, in queue order. */
  function Dispatches(items: seq<Item>, projectPath: string, relpath: (string, string) -> string): (r: seq<Dispatch>)
    ensures |r| <= |items|
    ensures forall d :: d in r ==> '\\' !in d.relPath
  {
    if items == [] then []
    else Dispatches(items[..|items| - 1], projectPath, relpath) + DispatchOf(items[|items| - 1], projectPath, relpath)
  }

  /** Dispatching preserves queue order: the calls for `a + b` are those for `a`, then those for `b`. */
  lemma {:induction false} DispatchesAppend(a: seq<Item>, b: seq<Item>, projectPath: string, relpath: (string, string) -> string)
    ensures Dispatches(a + b, projectPath, relpath) == Dispatches(a, projectPath, relpath) + Dispatches(b, projectPath, relpath)
    decreases |b|
  {
    if b == [] {
      assert a + b == a;
    } else {
      var b' := b[..|b| - 1];
      assert (a + b)[..|a + b| - 1] == a + b';
      DispatchesAppend(a, b', projectPath, relpath);
    }
  }

  /** One more job: the calls for the first `k + 1` jobs extend those for the first `k`. */
  lemma DispatchesSnoc(items: seq<Item>, k: int, projectPath: string, relpath: (string, string) -> string)
    requires 0 <= k < |items|
    ensures Dispatches(items[..k + 1], projectPath, relpath)
            == Dispatches(items[..k], projectPath, relpath) + DispatchOf(items[k], projectPath, relpath)
  {
    assert items[..k + 1][..k] == items[..k];
  }

  /**
   * End to end: every job a handler enqueues for a file event reaches the
   * uploader as exactly one call, upload for creations and modifications,
   * delete then upload for a move.
   */
  lemma EventsReachUploader(kind: EventKind, e: FsEvent, names: set<string>,
                            projectPath: string, relpath: (string, string) -> string)
    requires !e.isDirectory && !IsIgnored(e.srcPath, names)
    requires kind == Moved ==> !IsIgnored(e.destPath, names)
    ensures var rel := (p: string) => Replace(relpath(p, projectPath), '\\', '/');
            Dispatches(EventTasks(kind, e, names), projectPath, relpath) ==
              match kind
              case Created => [UploadCall(e.srcPath, rel(e.srcPath))]
              case Modified => [UploadCall(e.srcPath, rel(e.srcPath))]
              case Deleted => [DeleteCall(rel(e.srcPath))]
              case Moved => [DeleteCall(rel(e.srcPath)), UploadCall(e.destPath, rel(e.destPath))]
  {
    var tasks := EventTasks(kind, e, names);
    if kind == Moved {
      assert tasks == [Job("delete", e.srcPath)] + [Job("upload", e.destPath)];
      DispatchesAppend([Job("delete", e.srcPath)], [Job("upload", e.destPath)], projectPath, relpath);
    }
  }

  /** Position of the first sentinel, or the queue length when there is none. */
  function SentinelIndex(items: seq<Item>): (k: nat)
    ensures k <= |items|
    ensures k < |items| ==> items[k] == Sentinel
    ensures forall i :: 0 <= i < k ==> items[i] != Sentinel
  {
    if items == [] then 0
    else if items[0] == Sentinel then 0
    else 1 + SentinelIndex(items[1..])
  }

  /** A job that is not the sentinel lies before the first sentinel. */
  lemma NotYetSentinel(items: seq<Item>, i: int)
    requires 0 <= i <= SentinelIndex(items) && i < |items| && items[i] != Sentinel
    ensures i < SentinelIndex(items)
  {
  }

  /** The server after one dispatched call. */
  function Exec(s: Server, remoteDir: string, local: map<string, Bytes>, d: Dispatch): (r: Server)
    ensures r.reachable == s.reachable && r.loggedIn == s.loggedIn
    ensures Valid(s) ==> Valid(r)
    ensures d.DeleteCall? ==> r.dirs == s.dirs && r.cwd == s.cwd
  {
    match d
    case UploadCall(localPath, relPath) => UploadSpec(s, remoteDir, local, localPath, relPath).0
    case DeleteCall(relPath) => DeleteSpec(s, relPath).0
  }

  /** The server after a run of dispatched calls, in order. */
  function ExecAll(s: Server, remoteDir: string, local: map<string, Bytes>, ds: seq<Dispatch>): (r: Server)
    ensures r.reachable == s.reachable && r.loggedIn == s.loggedIn
    ensures Valid(s) ==> Valid(r)
  {
    if ds == [] then s
    else Exec(ExecAll(s, remoteDir, local, ds[..|ds| - 1]), remoteDir, local, ds[|ds| - 1])
  }

  /** Running `a` then `b` is running `a + b`. */
  lemma {:induction false} ExecAllAppend(s: Server, remoteDir: string, local: map<string, Bytes>, a: seq<Dispatch>, b: seq<Dispatch>)
    ensures ExecAll(s, remoteDir, local, a + b) == ExecAll(ExecAll(s, remoteDir, local, a), remoteDir, local, b)
    decreases |b|
  {
    if b == [] {
      assert a + b == a;
    } else {
      var b' := b[..|b| - 1];
      assert (a + b)[..|a + b| - 1] == a + b';
      ExecAllAppend(s, remoteDir, local, a, b');
    }
  }

  /**
   * The worker never leaves the session stranded: starting in an absolute
   * `remote_dir` on a live session, it is back there after every call.
   */
  lemma {:induction false} ExecAllStaysAtBase(s: Server, remoteDir: string, local: map<string, Bytes>, ds: seq<Dispatch>)
    requires Valid(s) && s.Live()
    requires StartsWith(remoteDir, "/") && s.cwd == Components(remoteDir)
    ensures var r := ExecAll(s, remoteDir, local, ds);
            Valid(r) && r.Live() && r.cwd == Components(remoteDir) && s.dirs <= r.dirs
    decreases |ds|
  {
    if ds != [] {
      var ds' := ds[..|ds| - 1];
      ExecAllStaysAtBase(s, remoteDir, local, ds');
      ExecStaysAtBase(ExecAll(s, remoteDir, local, ds'), remoteDir, local, ds[|ds| - 1]);
    }
  }

  /** One dispatched call from `remote_dir` on a live session ends back in `remote_dir`. */
  lemma ExecStaysAtBase(m: Server, remoteDir: string, local: map<string, Bytes>, d: Dispatch)
    requires Valid(m) && m.Live()
    requires StartsWith(remoteDir, "/") && m.cwd == Components(remoteDir)
    ensures var r := Exec(m, remoteDir, local, d);
            Valid(r) && r.Live() && r.cwd == Components(remoteDir) && m.dirs <= r.dirs
  {
    match d
    case UploadCall(localPath, relPath) =>
      EnsureKeepsSessionAtBase(m, remoteDir, relPath);
      var e := EnsureSpec(m, remoteDir, relPath);
      assert e.0.cwd == Components(remoteDir);
    case DeleteCall(relPath) =>
  }

  /** How the worker run ended. `Blocked`: the queue ran dry and `get` would wait. */
  datatype WorkerExit = ConnectFailed | Stopped | Blocked

  /** A background thread `stop` starts to join the observer or the worker. */
  datatype Cleanup = JoinObserver | JoinWorker

  /** `Watcher`: owns the queue, the worker thread and the observer of one watch session. */
  class Watcher {
    const projectPath: string
    const remoteDir: string
    const queue: TaskQueue
    var isStopping: bool
    var observerAlive: bool
    var observerStopRequested: bool
    var workerAlive: bool
    var cleanups: seq<Cleanup>

    constructor (projectPath: string, remoteDir: string)
      ensures this.projectPath == projectPath && this.remoteDir == remoteDir
      ensures fresh(queue) && queue.items == []
      ensures !isStopping && !observerAlive && !observerStopRequested && !workerAlive && cleanups == []
    {
      this.projectPath := projectPath;
      this.remoteDir := remoteDir;
      queue := new TaskQueue();
      isStopping := false;
      observerAlive := false;
      observerStopRequested := false;
      workerAlive := false;
      cleanups := [];
    }

    /**
     * `start`: the worker thread and the observer begin to run; the
     * observer delivers events to a new handler that feeds this watcher's
     * queue.
     */
    method Start() returns (handler: SyncHandler)
      modifies this
      ensures workerAlive && observerAlive
      ensures fresh(handler) && handler.projectPath == projectPath && handler.queue == queue
      ensures handler.ignored == IgnoredItems
      ensures isStopping == old(isStopping) && observerStopRequested == old(observerStopRequested)
      ensures cleanups == old(cleanups)
    {
      workerAlive := true;
      handler := new SyncHandler(projectPath, queue);
      observerAlive := true;
    }

    /**
     * `_ftp_task_processor`, run until it returns or would block: connect,
     * then take jobs in queue order until the sentinel, dispatching each.
     */
    method ProcessTasks(ftp: Ftp, local: map<string, Bytes>, relpath: (string, string) -> string)
      returns (exit: WorkerExit, done: seq<Dispatch>)
      modifies this, queue, ftp
      ensures var c := OpenSession(old(ftp.server), remoteDir);
        !c.1 ==> exit == ConnectFailed && done == [] && ftp.server == c.0
                 && queue.items == old(queue.items) && !workerAlive
      ensures var c := OpenSession(old(ftp.server), remoteDir);
        var k := SentinelIndex(old(queue.items));
        c.1 ==> done == Dispatches(old(queue.items)[..k], projectPath, relpath)
                && (k < |old(queue.items)| ==>
                      exit == Stopped && queue.items == old(queue.items)[k + 1..] && !workerAlive
                      && ftp.server == QuitStep(ExecAll(c.0, remoteDir, local, done)).server)
                && (k == |old(queue.items)| ==>
                      exit == Blocked && queue.items == [] && workerAlive == old(workerAlive)
                      && ftp.server == ExecAll(c.0, remoteDir, local, done))
      ensures isStopping == old(isStopping) && observerAlive == old(observerAlive)
      ensures observerStopRequested == old(observerStopRequested) && cleanups == old(cleanups)
    {
      var uploader := new FtpUploader(remoteDir, ftp);
      var ok := uploader.Connect();
      if !ok {
        workerAlive := false;
        return ConnectFailed, [];
      }
      var stopped;
      stopped, done := Drain(uploader, local, relpath);
      if !stopped {
        return Blocked, done;
      }
      uploader.Close();
      workerAlive := false;
      exit := Stopped;
    }

    /**
     * The loop of `_ftp_task_processor`: take jobs in queue order and
     * dispatch each, until the sentinel (`stopped`) or until the queue is
     * empty and `get` would wait.
     */
    method Drain(uploader: FtpUploader, local: map<string, Bytes>, relpath: (string, string) -> string)
      returns (stopped: bool, done: seq<Dispatch>)
      requires uploader.remoteDir == remoteDir
      modifies queue, uploader.ftp
      ensures var k := SentinelIndex(old(queue.items));
        && done == Dispatches(old(queue.items)[..k], projectPath, relpath)
        && uploader.ftp.server == ExecAll(old(uploader.ftp.server), remoteDir, local, done)
        && (stopped <==> k < |old(queue.items)|)
        && queue.items == if stopped then old(queue.items)[k + 1..] else []
    {
      ghost var items := queue.items;
      ghost var k := SentinelIndex(items);
      ghost var s0 := uploader.ftp.server;
      ghost var taken := 0;
      done := [];
      while true
        invariant 0 <= taken <= k
        invariant queue.items == items[taken..]
        invariant done == Dispatches(items[..taken], projectPath, relpath)
        invariant uploader.ftp.server == ExecAll(s0, remoteDir, local, done)
        decreases |queue.items|
      {
        ghost var rest := queue.items;
        var next := queue.TryGet();
        if next == None {
          assert rest == [] && taken == |items|;
          return false, done;
        }
        assert rest[0] == items[taken] && rest[1..] == items[taken + 1..];
        if next.value == Sentinel {
          assert taken == k;
          return true, done;
        }
        NotYetSentinel(items, taken);
        var d := RunJob(uploader, next.value, local, relpath, s0, done, items, taken);
        done := done + d;
        taken := taken + 1;
      }
    }

    /** One job of the worker loop: the calls it makes and their effect on the server. */
    method RunJob(uploader: FtpUploader, item: Item, local: map<string, Bytes>, relpath: (string, string) -> string,
                  ghost s0: Server, ghost done: seq<Dispatch>, ghost items: seq<Item>, ghost taken: int)
      returns (d: seq<Dispatch>)
      requires item.Job? && uploader.remoteDir == remoteDir
      requires uploader.ftp.server == ExecAll(s0, remoteDir, local, done)
      requires 0 <= taken < |items| && items[taken] == item && done == Dispatches(items[..taken], projectPath, relpath)
      modifies uploader.ftp
      ensures d == DispatchOf(item, projectPath, relpath)
      ensures uploader.ftp.server == ExecAll(old(uploader.ftp.server), remoteDir, local, d)
      ensures uploader.ftp.server == ExecAll(s0, remoteDir, local, done + d)
      ensures done + d == Dispatches(items[..taken + 1], projectPath, relpath)
    {
      DispatchesSnoc(items, taken, projectPath, relpath);
      var Job(action, localPath) := item;
      var relPath := Replace(relpath(localPath, projectPath), '\\', '/');
      ghost var s := uploader.ftp.server;
      if action == "upload" {
        var _ := uploader.UploadFile(localPath, relPath, local);
        d := [UploadCall(localPath, relPath)];
      } else if action == "delete" {
        var _ := uploader.DeleteFile(relPath);
        d := [DeleteCall(relPath)];
      } else {
        d := [];
      }
      assert d == [] || d[..0] == [];
      ExecAllAppend(s0, remoteDir, local, done, d);
    }

    /**
     * `stop`: a no-op while a stop is in progress; otherwise ask a live
     * observer to stop and join it in the background, and hand a live worker
     * the sentinel and join it in the background. With no live worker the
     * stopping flag drops at once.
     */
    method Stop()
      modifies this, queue
      ensures old(isStopping) ==>
                isStopping && queue.items == old(queue.items) && cleanups == old(cleanups)
                && observerStopRequested == old(observerStopRequested)
      ensures !old(isStopping) ==>
                && isStopping == old(workerAlive)
                && queue.items == old(queue.items) + (if old(workerAlive) then [Sentinel] else [])
                && cleanups == old(cleanups) + (if old(observerAlive) then [JoinObserver] else [])
                                             + (if old(workerAlive) then [JoinWorker] else [])
                && observerStopRequested == (old(observerStopRequested) || old(observerAlive))
      ensures observerAlive == old(observerAlive) && workerAlive == old(workerAlive)
    {
      if isStopping {
        return;
      }
      isStopping := true;
      if observerAlive {
        observerStopRequested := true;
        cleanups := cleanups + [JoinObserver];
      }
      if workerAlive {
        queue.Put(Sentinel);
        cleanups := cleanups + [JoinWorker];
      } else {
        isStopping := false;
      }
    }

    /** `_cleanup_observer`: join with a timeout; the observer may still be running after it. */
    method CleanupObserver(finishedInTime: bool)
      modifies this
      ensures observerAlive == (old(observerAlive) && !finishedInTime)
      ensures isStopping == old(isStopping) && workerAlive == old(workerAlive)
      ensures observerStopRequested == old(observerStopRequested) && cleanups == old(cleanups)
    {
      if finishedInTime {
        observerAlive := false;
      }
    }

    /** `_cleanup_worker`: join with a timeout, then, in `finally`, clear the stopping flag. */
    method CleanupWorker(finishedInTime: bool)
      modifies this
      ensures !isStopping
      ensures workerAlive == (old(workerAlive) && !finishedInTime)
      ensures observerAlive == old(observerAlive)
      ensures observerStopRequested == old(observerStopRequested) && cleanups == old(cleanups)
    {
      if finishedInTime {
        workerAlive := false;
      }
      isStopping := false;
    }
  }
}
