/**
 * The one-shot synchroniser of sync.py: hash the project tree, compare it
 * with the state saved after the last fully successful run, upload what was
 * added or modified, delete what disappeared, and save the new state only
 * when nothing failed.
 */
module SnapshotSync {
  import opened Strings
  import opened Remote

  /** Names never synchronised (sync.py:25-30); `sync.py` is the script's own file name. */
  const IgnoredItems: set<string> :=
    {".ftp_config.json", ".sync_state.json", "sync.log", "sync.py", ".git", ".idea", "__pycache__"}

  /**
   * A file the directory walk visits: the directories leading to it below
   * the project root, its name, and its SHA-256 digest (`None` when the
   * file could not be read).
   */
  datatype LocalFile = LocalFile(dirs: seq<string>, name: string, hash: Option<string>)

  /** A sync state: '/'-separated path relative to the project, to digest. */
  type State = map<string, string>

  /** The state key of a file: its relative path with '\' turned into '/'. */
  function Key(f: LocalFile): (k: string)
    ensures '\\' !in k
    ensures f.dirs == [] && '\\' !in f.name ==> k == f.name
  {
    var p := Join(f.dirs + [f.name], '/');
    assert f.dirs == [] ==> p == f.name;
    Replace(p, '\\', '/')
  }

  /**
   * Whether `get_current_state` records a file: no ignored directory on the
   * way (the walk prunes those), not an ignored name, not a `.tmp` file,
   * and a digest that is truthy.
   */
  predicate Kept(f: LocalFile): (r: bool)
    ensures r ==> f.hash.Some? && f.hash.value != ""
    ensures f.name in IgnoredItems || EndsWith(f.name, ".tmp") ==> !r
  {
    && (forall d :: d in f.dirs ==> d !in IgnoredItems)
    && f.name !in IgnoredItems
    && !EndsWith(f.name, ".tmp")
    && f.hash.Some? && f.hash.value != ""
  }

  /** The state of a walk: its kept files in order, a later file overriding an earlier one. */
  function Snapshot(tree: seq<LocalFile>): (r: State)
    ensures forall k :: k in r ==> '\\' !in k && r[k] != ""
  {
    if tree == [] then map[]
    else
      var prev := Snapshot(tree[..|tree| - 1]);
      var f := tree[|tree| - 1];
      if Kept(f) then prev[Key(f) := f.hash.value] else prev
  }

  /** The `i`-th file of the walk is kept and is the one the state records under `k`. */
  predicate RecordedAt(tree: seq<LocalFile>, i: int, k: string)
  {
    0 <= i < |tree| && Kept(tree[i]) && Key(tree[i]) == k
    && k in Snapshot(tree) && Snapshot(tree)[k] == tree[i].hash.value
  }

  /**
   * The state holds exactly the kept files: every kept file has its key,
   * and every key comes from a kept file whose digest it records.
   */
  lemma SnapshotRecordsKeptFiles(tree: seq<LocalFile>)
    ensures forall i :: 0 <= i < |tree| && Kept(tree[i]) ==> Key(tree[i]) in Snapshot(tree)
    ensures forall k :: k in Snapshot(tree) ==> exists i :: RecordedAt(tree, i, k)
  {
    KeptFilesRecorded(tree);
    KeysFromKeptFiles(tree);
  }

  /** One step of the walk: the last file overrides its key when it is kept. */
  lemma SnapshotLast(tree: seq<LocalFile>)
    requires tree != []
    ensures var last := tree[|tree| - 1];
            Snapshot(tree) == if Kept(last) then Snapshot(tree[..|tree| - 1])[Key(last) := last.hash.value]
                              else Snapshot(tree[..|tree| - 1])
  {
  }

  lemma {:induction false} KeptFilesRecorded(tree: seq<LocalFile>)
    ensures forall i :: 0 <= i < |tree| && Kept(tree[i]) ==> Key(tree[i]) in Snapshot(tree)
    decreases |tree|
  {
    if tree != [] {
      var prefix := tree[..|tree| - 1];
      KeptFilesRecorded(prefix);
      SnapshotLast(tree);
      forall i | 0 <= i < |tree| && Kept(tree[i]) ensures Key(tree[i]) in Snapshot(tree) {
        if i < |prefix| {
          assert tree[i] == prefix[i];
        }
      }
    }
  }

  lemma {:induction false} KeysFromKeptFiles(tree: seq<LocalFile>)
    ensures forall k :: k in Snapshot(tree) ==> exists i :: RecordedAt(tree, i, k)
    decreases |tree|
  {
    if tree != [] {
      var prefix := tree[..|tree| - 1];
      var last := tree[|tree| - 1];
      KeysFromKeptFiles(prefix);
      SnapshotLast(tree);
      forall k | k in Snapshot(tree) ensures exists i :: RecordedAt(tree, i, k) {
        if Kept(last) && k == Key(last) {
          assert RecordedAt(tree, |tree| - 1, k);
        } else {
          assert k in Snapshot(prefix) && Snapshot(tree)[k] == Snapshot(prefix)[k];
          var i :| RecordedAt(prefix, i, k);
          assert tree[i] == prefix[i];
          assert RecordedAt(tree, i, k);
        }
      }
    }
  }

  /** An ignored name or a `.tmp` file never reaches the state. */
  lemma IgnoredNeverRecorded(tree: seq<LocalFile>, i: int)
    requires 0 <= i < |tree|
    requires tree[i].name in IgnoredItems || EndsWith(tree[i].name, ".tmp")
    ensures !Kept(tree[i])
  {
  }

  /** `FileChangeDetector.get_current_state` over the files the walk yields, in walk order. */
  method GetCurrentState(tree: seq<LocalFile>) returns (state: State)
    ensures state == Snapshot(tree)
  {
    state := map[];
    for j := 0 to |tree|
      invariant state == Snapshot(tree[..j])
    {
      var f := tree[j];
      assert tree[..j + 1][..j] == tree[..j];
      if exists d :: d in f.dirs && d in IgnoredItems {
        continue;
      }
      if f.name in IgnoredItems || EndsWith(f.name, ".tmp") {
        continue;
      }
      if f.hash.Some? && f.hash.value != "" {
        state := state[Key(f) := f.hash.value];
      }
    }
    assert tree[..|tree|] == tree;
  }

  datatype Changes = Changes(added: State, modified: State, deleted: State)

  /**
   * `FileChangeDetector.detect_changes`: the three parts are disjoint, every
   * path of either state whose digest differs (or that exists on one side
   * only) lands in exactly one of them, and an unchanged path in none.
   */
  function DetectChanges(stored: State, current: State): (c: Changes)
    ensures c.added.Keys !! c.modified.Keys && c.added.Keys !! c.deleted.Keys && c.modified.Keys !! c.deleted.Keys
    ensures c.added.Keys + c.modified.Keys <= current.Keys
    ensures c.deleted.Keys <= stored.Keys && c.deleted.Keys !! current.Keys
    ensures forall k :: k in stored && k in current && stored[k] == current[k] ==>
              k !in c.added && k !in c.modified && k !in c.deleted
    ensures forall k :: (k in stored || k in current) && !(k in stored && k in current && stored[k] == current[k]) ==>
              k in c.added || k in c.modified || k in c.deleted
    ensures forall k :: k in c.added ==> c.added[k] == current[k]
    ensures forall k :: k in c.modified ==> c.modified[k] == current[k]
    ensures forall k :: k in c.deleted ==> c.deleted[k] == stored[k]
    ensures c.added.Keys == current.Keys - stored.Keys
    ensures c.modified.Keys == set k | k in current && k in stored && stored[k] != current[k]
    ensures c.deleted.Keys == stored.Keys - current.Keys
  {
    Changes(
      map p | p in current && p !in stored :: current[p],
      map p | p in current && p in stored && stored[p] != current[p] :: current[p],
      map p | p in stored && p !in current :: stored[p])
  }

  /** Comparing a state with itself finds no change. */
  lemma NoChangesAgainstItself(s: State)
    ensures DetectChanges(s, s) == Changes(map[], map[], map[])
  {
    var c := DetectChanges(s, s);
    assert c.added.Keys == {} && c.modified.Keys == {} && c.deleted.Keys == {};
  }

  /** What `run_sync` sets out to do: the files to upload and the files to delete. */
  datatype Plan = Plan(upload: State, delete: State)

  /**
   * `to_upload` (added and modified merged) and `to_delete`, against the
   * stored state or, when forced, against the empty one.
   */
  function MakePlan(stored: State, current: State, force: bool): (p: Plan)
    ensures p.upload.Keys == set k | k in current && (force || k !in stored || stored[k] != current[k])
    ensures forall k :: k in p.upload ==> p.upload[k] == current[k]
    ensures p.delete.Keys == if force then {} else stored.Keys - current.Keys
  {
    var c := DetectChanges(if force then map[] else stored, current);
    Plan(c.added + c.modified, c.deleted)
  }

  /**
   * Replaying a plan on the state it was computed from gives the current
   * state: drop the deleted keys, then write the uploaded ones.
   */
  lemma PlanReplaysToCurrent(stored: State, current: State, force: bool)
    ensures var p := MakePlan(stored, current, force);
            ((if force then map[] else stored) - p.delete.Keys) + p.upload == current
  {
    var p := MakePlan(stored, current, force);
    var base := if force then map[] else stored;
    var r := (base - p.delete.Keys) + p.upload;
    assert r.Keys == current.Keys;
    forall k | k in current ensures r[k] == current[k] {
      if k !in p.upload {
        assert k in base && base[k] == current[k];
      }
    }
  }

  /** Nothing to do exactly when the stored state is the current one (and the run is not forced). */
  lemma EmptyPlanIffUnchanged(stored: State, current: State)
    ensures MakePlan(stored, current, false) == Plan(map[], map[]) <==> stored == current
  {
    var p := MakePlan(stored, current, false);
    if p == Plan(map[], map[]) {
      assert stored.Keys == current.Keys by {
        forall k | k in current ensures k in stored {
          assert k !in p.upload.Keys;
        }
        forall k | k in stored ensures k in current {
          assert k !in p.delete.Keys;
        }
      }
      forall k | k in current ensures stored[k] == current[k] {
        assert k !in p.upload.Keys;
      }
    }
  }

  /** A forced run uploads every current file and deletes nothing. */
  lemma ForcedPlanUploadsAll(stored: State, current: State)
    ensures MakePlan(stored, current, true) == Plan(current, map[])
  {
  }

  /** How `_ensure_remote_dir` ended: no directory part, done, or an exception. */
  datatype Ensured = NoDirectory | Completed | Raised(reply: Reply)

  /** The cumulative `current_path` of sync.py's helper after appending `part`. */
  function Extend(current: string, part: string): string
  {
    if current == "" then part else current + "/" + part
  }

  /**
   * The loop of sync.py's `_ensure_remote_dir` AS WRITTEN: each step sends
   * the whole path accumulated so far, relative to the directory the
   * previous step already entered; `MKD` and `CWD` failures propagate.
   */
  function AsWrittenWalk(s: Server, parts: seq<string>, current: string): (r: (Server, WalkEnd))
    ensures r.0.files == s.files && r.0.reachable == s.reachable && r.0.loggedIn == s.loggedIn
    ensures r.0.locked == s.locked && s.dirs <= r.0.dirs
    ensures Valid(s) ==> Valid(r.0)
    decreases |parts|
  {
    if parts == [] then (s, Entered)
    else if parts[0] == "" then AsWrittenWalk(s, parts[1..], current)
    else
      var cur := Extend(current, parts[0]);
      var e := AsWrittenEnter(s, cur);
      if e.1 != Entered then e else AsWrittenWalk(e.0, parts[1..], cur)
  }

  /** The walk as written over a non-empty list: skip an empty part, otherwise one step and the rest. */
  lemma AsWrittenWalkStep(s: Server, parts: seq<string>, current: string)
    requires parts != []
    ensures parts[0] == "" ==> AsWrittenWalk(s, parts, current) == AsWrittenWalk(s, parts[1..], current)
    ensures parts[0] != "" ==>
              var e := AsWrittenEnter(s, Extend(current, parts[0]));
              AsWrittenWalk(s, parts, current)
              == if e.1 != Entered then e else AsWrittenWalk(e.0, parts[1..], Extend(current, parts[0]))
  {
  }

  /**
   * One step of that loop on the accumulated path `cur`: `CWD`, and on a
   * permanent error `MKD` then `CWD`; any other failure propagates.
   */
  function AsWrittenEnter(s: Server, cur: string): (r: (Server, WalkEnd))
    ensures r.0.files == s.files && r.0.reachable == s.reachable && r.0.loggedIn == s.loggedIn
    ensures r.0.locked == s.locked && s.dirs <= r.0.dirs
    ensures Valid(s) ==> Valid(r.0)
    ensures r.1 != Entered ==> r.0.cwd == s.cwd && r.0.dirs == s.dirs
    ensures r.1 == Entered ==> r.0.cwd == Resolve(s.cwd, cur)
    ensures r.1 == Entered ==> r.0.cwd in r.0.dirs
  {
    var c := CwdStep(s, cur);
    if c.reply == Ok then (c.server, Entered)
    else if c.reply == OtherError then (c.server, Broke(OtherError))
    else
      var m := MkdStep(c.server, cur);
      if m.reply != Ok then (m.server, CreateFailed(m.reply))
      else
        var c2 := CwdStep(m.server, cur);
        if c2.reply != Ok then (c2.server, CreateFailed(c2.reply))
        else (c2.server, Entered)
  }

  /** After the walk: a failure propagates; otherwise `CWD` back to `remote_dir`. */
  function Conclude(w: (Server, WalkEnd), remoteDir: string): (r: (Server, Ensured))
    ensures r.1 != NoDirectory
    ensures r.1 == Completed <==> w.1 == Entered && w.0.Live() && Resolve(w.0.cwd, remoteDir) in w.0.dirs
    ensures r.1 == Completed ==> r.0.cwd == Resolve(w.0.cwd, remoteDir)
    ensures r.1.Raised? ==> r.0.cwd == w.0.cwd
    ensures r.0.dirs == w.0.dirs && r.0.files == w.0.files
    ensures r.0.reachable == w.0.reachable && r.0.loggedIn == w.0.loggedIn && r.0.locked == w.0.locked
    ensures Valid(w.0) ==> Valid(r.0)
  {
    if w.1 != Entered then (w.0, Raised(w.1.reply))
    else
      var e := CwdStep(w.0, remoteDir);
      (e.server, if e.reply == Ok then Completed else Raised(e.reply))
  }

  /**
   * The components of a remote path's directory, as sync.py splits them:
   * pieces without '/' that join back into the directory, and the single
   * empty piece exactly when the path has no '/'.
   */
  function DirParts(remotePath: string): (r: seq<string>)
    ensures |r| >= 1 && forall i :: 0 <= i < |r| ==> '/' !in r[i]
    ensures Join(r, '/') == Dirname(remotePath)
    ensures r == [""] <==> '/' !in remotePath
  {
    assert Join([""], '/') == "";
    Split(Dirname(remotePath), '/')
  }

  /**
   * sync.py's `_ensure_remote_dir` as written (sync.py:155-167). Only a
   * walk that completes goes back to `remote_dir`; after an exception the
   * session stays wherever the walk stopped.
   */
  function AsWrittenEnsure(s: Server, remoteDir: string, remotePath: string): (r: (Server, Ensured))
    ensures r.1 == NoDirectory <==> '/' !in remotePath
    ensures r.1 == NoDirectory ==> r.0 == s
    ensures StartsWith(remoteDir, "/") && r.1 == Completed ==> r.0.cwd == Components(remoteDir)
    ensures r.1.Raised? ==> r.0.cwd == AsWrittenWalk(s, DirParts(remotePath), "").0.cwd
    ensures r.0.files == s.files && s.dirs <= r.0.dirs
    ensures r.0.reachable == s.reachable && r.0.loggedIn == s.loggedIn && r.0.locked == s.locked
    ensures Valid(s) ==> Valid(r.0)
  {
    var parts := DirParts(remotePath);
    if parts == [""] then
      assert Dirname(remotePath) == Join(parts, '/');
      (s, NoDirectory)
    else
      assert Dirname(remotePath) != "";
      Conclude(AsWrittenWalk(s, parts, ""), remoteDir)
  }

  /**
   * sync.py's `_ensure_remote_dir` corrected: one component at a time from
   * the directory the session stands in, as sync_core.py does it, with
   * failures propagating as in the original.
   */
  function EnsureSpec(s: Server, remoteDir: string, remotePath: string): (r: (Server, Ensured))
    ensures r.1 == NoDirectory <==> '/' !in remotePath
    ensures r.1 == NoDirectory ==> r.0 == s
    ensures StartsWith(remoteDir, "/") && r.1 == Completed ==> r.0.cwd == Components(remoteDir)
    ensures r.0.files == s.files && s.dirs <= r.0.dirs
    ensures r.0.reachable == s.reachable && r.0.loggedIn == s.loggedIn && r.0.locked == s.locked
    ensures Valid(s) ==> Valid(r.0)
  {
    var parts := DirParts(remotePath);
    if parts == [""] then
      assert Dirname(remotePath) == Join(parts, '/');
      (s, NoDirectory)
    else
      assert Dirname(remotePath) != "";
      Conclude(Walk(s, parts), remoteDir)
  }

  /** Which `_ensure_remote_dir` an uploader runs: sync.py's as written, or the corrected one. */
  datatype Helper = AsWritten | Corrected

  /** The helper `h` on remote path `remotePath`. */
  function EnsureWith(h: Helper, s: Server, remoteDir: string, remotePath: string): (r: (Server, Ensured))
    ensures r.1 == NoDirectory <==> '/' !in remotePath
    ensures r.1 == NoDirectory ==> r.0 == s
    ensures StartsWith(remoteDir, "/") && r.1 == Completed ==> r.0.cwd == Components(remoteDir)
    ensures r.0.files == s.files && s.dirs <= r.0.dirs
    ensures r.0.reachable == s.reachable && r.0.loggedIn == s.loggedIn && r.0.locked == s.locked
    ensures Valid(s) ==> Valid(r.0)
  {
    match h
    case AsWritten => AsWrittenEnsure(s, remoteDir, remotePath)
    case Corrected => EnsureSpec(s, remoteDir, remotePath)
  }

  /**
   * The corrected helper does its job: on a live session where nothing
   * blocks the path, it creates every directory of the remote path below
   * the current directory, creates nothing else, and ends in `remote_dir`.
   */
  lemma EnsureCreatesPathOnFreeTree(s: Server, remoteDir: string, remotePath: string)
    requires Valid(s) && s.Live()
    requires StartsWith(remoteDir, "/") && Components(remoteDir) in s.dirs
    requires '/' in remotePath
    requires PathFree(s, s.cwd, NonEmpty(DirParts(remotePath)))
    ensures var r := EnsureSpec(s, remoteDir, remotePath);
            && r.1 == Completed
            && r.0.cwd == Components(remoteDir)
            && PrefixesExist(r.0.dirs, s.cwd, NonEmpty(DirParts(remotePath)))
            && forall d :: d in r.0.dirs && d !in s.dirs ==> OnPath(d, s.cwd, NonEmpty(DirParts(remotePath)))
  {
    var parts := DirParts(remotePath);
    WalkSucceedsOnFreePath(s, parts);
    WalkEntersAll(s, parts);
    WalkCreatesOnlyPrefixes(s, parts);
  }

  /** The components of `a/b/f.txt`'s directory. */
  lemma NestedDirParts(remotePath: string)
    requires remotePath == "a/b/f.txt"
    ensures DirParts(remotePath) == ["a", "b"] && '/' in remotePath
  {
    NestedDirname(remotePath);
    assert Join(["a", "b"], '/') == "a/b";
    SplitUnique(["a", "b"], '/', "a/b");
  }

  /** The directory of `a/b/f.txt` is `a/b`. */
  lemma NestedDirname(remotePath: string)
    requires remotePath == "a/b/f.txt"
    ensures Dirname(remotePath) == "a/b" && '/' in remotePath
  {
    assert remotePath[3] == '/';
    assert forall i :: 3 < i < |remotePath| ==> remotePath[i] != '/';
    assert RFind(remotePath, '/') == 3;
    var head := remotePath[..4];
    assert head == "a/b/" && head[0] != '/' && head[2] == 'b' && head[3] == '/';
    var r := RStrip(head, '/');
    assert |r| == 3;
    assert r == "a/b";
  }

  /** A single directory name: non-empty and without a separator. */
  predicate Name(x: string)
  {
    x != "" && '/' !in x
  }

  lemma NonEmptyNames(a: string, b: string)
    requires Name(a) && Name(b)
    ensures NonEmpty([a, b]) == [a, b]
  {
    assert [a, b][1..] == [b] && [b][1..] == [];
  }

  /** The relative path `a/b` names `b` inside `a` inside the current directory. */
  lemma ResolveTwo(cwd: Path, a: string, b: string)
    requires Name(a) && Name(b)
    ensures Resolve(cwd, Extend(a, b)) == cwd + [a, b]
  {
    var ab := a + "/" + b;
    assert [a, b][1..] == [b] && JoinTail([b], '/') == "/" + b;
    assert Join([a, b], '/') == ab;
    SplitUnique([a, b], '/', ab);
    NonEmptyNames(a, b);
    assert ab[0] == a[0] && a[0] in a;
    assert !StartsWith(ab, "/");
  }

  /**
   * The second step of the walk as written: standing in `base + [a]`, the
   * accumulated `a/b` names `base + [a, a, b]`, which can neither be entered
   * nor created while `base + [a, a]` is missing.
   */
  lemma AsWrittenSecondStepFails(t: Server, base: Path, a: string, b: string)
    requires Name(a) && Name(b)
    requires Valid(t) && t.Live()
    requires t.cwd == base + [a] && base + [a, a] !in t.dirs
    ensures AsWrittenWalk(t, [b], a).1.CreateFailed?
    ensures AsWrittenWalk(t, [b], a).0.cwd == t.cwd && AsWrittenWalk(t, [b], a).0.dirs == t.dirs
  {
    ResolveTwo(t.cwd, a, b);
    var inner := Resolve(t.cwd, Extend(a, b));
    assert Parent(inner) == base + [a, a];
    MissingParent(t, inner);
    EnterBelowMissingFails(t, Extend(a, b));
    WalkSingle(t, b, a);
  }

  /** In a valid tree a directory whose parent is missing is missing too. */
  lemma MissingParent(s: Server, d: Path)
    requires Valid(s) && d != [] && Parent(d) !in s.dirs
    ensures d !in s.dirs
  {
  }

  /** A walk over one non-empty part is that part's single step. */
  lemma WalkSingle(s: Server, part: string, current: string)
    requires part != ""
    ensures AsWrittenEnter(s, Extend(current, part)).1 != Entered ==>
      AsWrittenWalk(s, [part], current) == AsWrittenEnter(s, Extend(current, part))
  {
    assert [part][1..] == [];
  }

  /** A step whose target and its parent are both missing cannot create it. */
  lemma EnterBelowMissingFails(s: Server, cur: string)
    requires s.Live()
    requires Resolve(s.cwd, cur) != []
    requires Resolve(s.cwd, cur) !in s.dirs && Parent(Resolve(s.cwd, cur)) !in s.dirs
    ensures AsWrittenEnter(s, cur).1.CreateFailed?
  {
  }

  /**
   * The first step of the walk as written on a live session: it enters
   * `a` below the current directory, creating it if need be, or fails to
   * create it; it creates nothing else.
   */
  lemma FirstStep(s: Server, a: string)
    requires Name(a) && Valid(s) && s.Live()
    ensures var e := AsWrittenEnter(s, Extend("", a));
            && (e.1 == Entered || e.1.CreateFailed?)
            && (e.1 == Entered ==> e.0.cwd == s.cwd + [a] && e.0.dirs <= s.dirs + {s.cwd + [a]})
            && (s.cwd + [a] !in s.files && s.cwd + [a] !in s.locked ==> e.1 == Entered)
  {
    ResolveName(s.cwd, a);
    assert Extend("", a) == a;
  }

  /** Whichever way its first step goes, the walk as written fails on `a/b`. */
  lemma AsWrittenNestedWalkFails(s: Server, a: string, b: string)
    requires Name(a) && Name(b)
    requires Valid(s) && s.Live()
    requires s.cwd + [a, a] !in s.dirs
    ensures AsWrittenWalk(s, [a, b], "").1.CreateFailed?
  {
    FirstStep(s, a);
    var e := AsWrittenEnter(s, Extend("", a));
    assert [a, b][1..] == [b];
    if e.1 == Entered {
      assert s.cwd + [a] != s.cwd + [a, a];
      AsWrittenSecondStepFails(e.0, s.cwd, a, b);
    }
  }

  /**
   * When `a` can be entered or created but `a/a` does not exist, the walk
   * as written over `a/b` stops standing in `a`, having created at most `a`.
   */
  lemma StrandedWalk(s: Server, a: string, b: string)
    requires Name(a) && Name(b)
    requires Valid(s) && s.Live()
    requires s.cwd + [a] !in s.files && s.cwd + [a] !in s.locked
    requires s.cwd + [a, a] !in s.dirs
    ensures var w := AsWrittenWalk(s, [a, b], "");
            && w.1.CreateFailed?
            && w.0.cwd == s.cwd + [a]
            && w.0.dirs <= s.dirs + {s.cwd + [a]}
  {
    FirstStep(s, a);
    var e := AsWrittenEnter(s, Extend("", a));
    assert [a, b][1..] == [b];
    assert s.cwd + [a] != s.cwd + [a, a];
    AsWrittenSecondStepFails(e.0, s.cwd, a, b);
  }

  /**
   * The consequence of the finding: after the failed upload of a file two
   * directories down, nothing `CWD`s back, so the session stays in `a` and
   * the next root-level `STOR` or `DELE` of `g` is resolved inside `a`
   * (and the upload lands there).
   */
  lemma StrandedAfterNestedFailure(s: Server, remoteDir: string, local: map<string, Bytes>,
                                   nested: string, a: string, b: string, g: string)
    requires DirParts(nested) == [a, b] && '/' in nested && Name(a) && Name(b)
    requires Name(g) && g in local
    requires Valid(s) && s.Live()
    requires s.cwd + [a] !in s.files && s.cwd + [a] !in s.locked
    requires s.cwd + [a, a] !in s.dirs
    requires s.cwd + [a, g] !in s.dirs && s.cwd + [a, g] !in s.locked
    ensures var u := UploadSpec(AsWritten, s, remoteDir, local, nested);
            && !u.1
            && u.0.cwd == s.cwd + [a]
            && Resolve(u.0.cwd, g) == s.cwd + [a, g]
            && var v := UploadSpec(AsWritten, u.0, remoteDir, local, g);
            && v.1 && v.0.files == u.0.files[s.cwd + [a, g] := local[g]]
  {
    StrandedEnsure(s, remoteDir, nested, a, b);
    RaisedUpload(s, remoteDir, local, nested);
    var t := AsWrittenEnsure(s, remoteDir, nested).0;
    StrandedFree(t, s, a, g);
    RootLevelUpload(t, remoteDir, local, g);
  }

  /** Standing in `a` having created at most `a`, the name `g` is still free there. */
  lemma StrandedFree(t: Server, s: Server, a: string, g: string)
    requires t.cwd == s.cwd + [a] && t.dirs <= s.dirs + {s.cwd + [a]} && t.locked == s.locked
    requires s.cwd + [a, g] !in s.dirs && s.cwd + [a, g] !in s.locked
    ensures t.cwd + [g] == s.cwd + [a, g]
    ensures t.cwd + [g] !in t.dirs && t.cwd + [g] !in t.locked
  {
    assert s.cwd + [a] + [g] == s.cwd + [a, g];
    assert s.cwd + [a, g] != s.cwd + [a];
  }

  /** When the helper as written raises, `upload_file` fails where the helper left the session. */
  lemma RaisedUpload(s: Server, remoteDir: string, local: map<string, Bytes>, p: string)
    requires AsWrittenEnsure(s, remoteDir, p).1.Raised?
    ensures UploadSpec(AsWritten, s, remoteDir, local, p) == (AsWrittenEnsure(s, remoteDir, p).0, false)
  {
  }

  /** The helper as written raises on the nested path, standing in `a` and having created at most `a`. */
  lemma StrandedEnsure(s: Server, remoteDir: string, nested: string, a: string, b: string)
    requires DirParts(nested) == [a, b] && '/' in nested && Name(a) && Name(b)
    requires Valid(s) && s.Live()
    requires s.cwd + [a] !in s.files && s.cwd + [a] !in s.locked
    requires s.cwd + [a, a] !in s.dirs
    ensures var e := AsWrittenEnsure(s, remoteDir, nested);
            && e.1.Raised? && e.0.cwd == s.cwd + [a] && e.0.dirs <= s.dirs + {s.cwd + [a]}
            && e.0.locked == s.locked && Valid(e.0) && e.0.Live()
  {
    StrandedWalk(s, a, b);
    var w := AsWrittenWalk(s, [a, b], "");
    assert AsWrittenEnsure(s, remoteDir, nested) == Conclude(w, remoteDir);
  }

  /** A root-level upload stores the file in the directory the session stands in. */
  lemma RootLevelUpload(t: Server, remoteDir: string, local: map<string, Bytes>, g: string)
    requires Name(g) && g in local
    requires Valid(t) && t.Live()
    requires t.cwd + [g] !in t.dirs && t.cwd + [g] !in t.locked
    ensures Resolve(t.cwd, g) == t.cwd + [g]
    ensures var v := UploadSpec(AsWritten, t, remoteDir, local, g);
            v.1 && v.0.files == t.files[t.cwd + [g] := local[g]]
  {
    ResolveName(t.cwd, g);
  }

  /**
   * The finding: for a file two directories down, the helper as written
   * raises whenever `a/a` does not exist below the current directory, even
   * on a free tree where the corrected helper creates `a` and `a/b`.
   */
  lemma NestedPathDefeatsAsWritten(s: Server, remoteDir: string, remotePath: string)
    requires remotePath == "a/b/f.txt"
    requires Valid(s) && s.Live()
    requires s.cwd + ["a", "a"] !in s.dirs
    ensures AsWrittenEnsure(s, remoteDir, remotePath).1.Raised?
  {
    NestedDirParts(remotePath);
    AsWrittenNestedWalkFails(s, "a", "b");
  }

  /** The corrected helper on the same path: `a` and `a/b` exist afterwards. */
  lemma NestedPathCorrected(s: Server, remoteDir: string, remotePath: string)
    requires remotePath == "a/b/f.txt"
    requires Valid(s) && s.Live()
    requires StartsWith(remoteDir, "/") && Components(remoteDir) in s.dirs
    requires s.locked == {}
    requires s.cwd + ["a"] !in s.files && s.cwd + ["a", "b"] !in s.files
    ensures var r := EnsureSpec(s, remoteDir, remotePath);
            r.1 == Completed && s.cwd + ["a"] in r.0.dirs && s.cwd + ["a", "b"] in r.0.dirs
  {
    NestedDirParts(remotePath);
    TwoLevelPathCreated(s, remoteDir, remotePath, "a", "b");
  }

  /** Any file path two directories down gets both directories on a free tree. */
  lemma TwoLevelPathCreated(s: Server, remoteDir: string, remotePath: string, a: string, b: string)
    requires DirParts(remotePath) == [a, b] && '/' in remotePath && Name(a) && Name(b)
    requires Valid(s) && s.Live()
    requires StartsWith(remoteDir, "/") && Components(remoteDir) in s.dirs
    requires s.locked == {}
    requires s.cwd + [a] !in s.files && s.cwd + [a, b] !in s.files
    ensures var r := EnsureSpec(s, remoteDir, remotePath);
            r.1 == Completed && s.cwd + [a] in r.0.dirs && s.cwd + [a, b] in r.0.dirs
  {
    NonEmptyNames(a, b);
    TwoPartsFree(s, a, b);
    EnsureCreatesPathOnFreeTree(s, remoteDir, remotePath);
    var r := EnsureSpec(s, remoteDir, remotePath);
    TwoPartsExist(r.0.dirs, s.cwd, a, b);
  }

  lemma TwoPartsFree(s: Server, a: string, b: string)
    requires s.locked == {}
    requires s.cwd + [a] !in s.files && s.cwd + [a, b] !in s.files
    ensures PathFree(s, s.cwd, [a, b])
  {
    var parts := [a, b];
    assert parts[..1] == [a] && parts[..2] == parts;
    forall k | 1 <= k <= |parts|
      ensures s.cwd + parts[..k] !in s.files && s.cwd + parts[..k] !in s.locked
    {
      assert k == 1 || k == 2;
    }
  }

  lemma TwoPartsExist(dirs: set<Path>, base: Path, a: string, b: string)
    requires PrefixesExist(dirs, base, [a, b])
    ensures base + [a] in dirs && base + [a, b] in dirs
  {
    var parts := [a, b];
    assert parts[..1] == [a] && parts[..2] == parts;
    assert base + parts[..1] in dirs && base + parts[..2] in dirs;
  }

  /**
   * sync.py's `upload_file` with helper `h`: every exception is caught; the
   * local file is read (from `local`, keyed by relative path) only after
   * the directories were prepared. It succeeds exactly when the helper did
   * not raise, the file could be read and the server accepted the `STOR`,
   * which then writes the file where the session stands.
   */
  function UploadSpec(h: Helper, s: Server, remoteDir: string, local: map<string, Bytes>, relPath: string): (r: (Server, bool))
    ensures var e := EnsureWith(h, s, remoteDir, relPath);
            r.1 <==> !e.1.Raised? && relPath in local && e.0.Live() && CanStore(e.0, Resolve(e.0.cwd, relPath))
    ensures r.1 ==> var e := EnsureWith(h, s, remoteDir, relPath);
              r.0.files == s.files[Resolve(e.0.cwd, relPath) := local[relPath]]
    ensures !r.1 ==> r.0.files == s.files
    ensures r.0.reachable == s.reachable && r.0.loggedIn == s.loggedIn && r.0.locked == s.locked
    ensures s.dirs <= r.0.dirs
    ensures Valid(s) ==> Valid(r.0)
  {
    var e := EnsureWith(h, s, remoteDir, relPath);
    if e.1.Raised? || relPath !in local then (e.0, false)
    else
      var st := StorStep(e.0, relPath, local[relPath]);
      (st.server, st.reply == Ok)
  }

  /** A call `run_sync` makes on the uploader. */
  datatype Call = Upload(relPath: string) | Delete(relPath: string)

  /**
   * Call `c` made on `s`: the server afterwards and the boolean the
   * uploader's `upload_file` or `delete_file` returns. No call opens or
   * closes the session or removes a directory.
   */
  function Exec(h: Helper, s: Server, remoteDir: string, local: map<string, Bytes>, c: Call): (r: (Server, bool))
    ensures r.0.reachable == s.reachable && r.0.loggedIn == s.loggedIn && r.0.locked == s.locked
    ensures s.dirs <= r.0.dirs
    ensures Valid(s) ==> Valid(r.0)
    ensures c.Delete? ==> (r.1 <==> s.Live() && Resolve(s.cwd, c.relPath) in s.files)
  {
    match c
    case Upload(p) => UploadSpec(h, s, remoteDir, local, p)
    case Delete(p) => var d := DeleStep(s, p); (d.server, d.reply == Ok)
  }

  /** A call as a function of the server it is made on. */
  type CallStep = (Server, Call) -> (Server, bool)

  /** The calls of an uploader running helper `h` for `remote_dir` over the files `local`. */
  function Calls(h: Helper, remoteDir: string, local: map<string, Bytes>): CallStep
  {
    (s: Server, c: Call) => Exec(h, s, remoteDir, local, c)
  }

  /** The server after a run of calls, in order. */
  function ExecAll(step: CallStep, s: Server, cs: seq<Call>): Server
  {
    if cs == [] then s else step(ExecAll(step, s, cs[..|cs| - 1]), cs[|cs| - 1]).0
  }

  lemma ExecAllSnoc(step: CallStep, s: Server, cs: seq<Call>, c: Call)
    ensures ExecAll(step, s, cs + [c]) == step(ExecAll(step, s, cs), c).0
  {
    assert (cs + [c])[..|cs|] == cs;
  }

  /** Running `a` then `b` is running `a + b`. */
  lemma {:induction false} ExecAllAppend(step: CallStep, s: Server, a: seq<Call>, b: seq<Call>)
    ensures ExecAll(step, s, a + b) == ExecAll(step, ExecAll(step, s, a), b)
    decreases |b|
  {
    if b == [] {
      assert a + b == a;
    } else {
      var b' := b[..|b| - 1];
      assert (a + b)[..|a + b| - 1] == a + b';
      ExecAllAppend(step, s, a, b');
    }
  }

  /**
   * A run of `run_sync`'s calls neither opens nor closes the session nor
   * removes a directory, and keeps the server's tree well formed.
   */
  lemma {:induction false} ExecAllKeepsSession(h: Helper, remoteDir: string, local: map<string, Bytes>, s: Server, cs: seq<Call>)
    ensures var r := ExecAll(Calls(h, remoteDir, local), s, cs);
            && r.reachable == s.reachable && r.loggedIn == s.loggedIn && r.locked == s.locked
            && s.dirs <= r.dirs
            && (Valid(s) ==> Valid(r))
    decreases |cs|
  {
    if cs != [] {
      ExecAllKeepsSession(h, remoteDir, local, s, cs[..|cs| - 1]);
    }
  }

  /**
   * The files of `cs` whose call succeeded (`ok`) or failed (`!ok`), each
   * call made on the server the calls before it left.
   */
  function Outcomes(step: CallStep, s: Server, cs: seq<Call>, ok: bool): set<string>
  {
    if cs == [] then {}
    else
      var init, last := cs[..|cs| - 1], cs[|cs| - 1];
      Outcomes(step, s, init, ok) + if step(ExecAll(step, s, init), last).1 == ok then {last.relPath} else {}
  }

  /** Every call of `cs` succeeds, each on the server the calls before it left. */
  predicate AllSucceed(step: CallStep, s: Server, cs: seq<Call>)
  {
    forall i :: 0 <= i < |cs| ==> step(ExecAll(step, s, cs[..i]), cs[i]).1
  }

  /** One more call: its file joins the successes or the failures, as the call went. */
  lemma OutcomesSnoc(step: CallStep, s: Server, cs: seq<Call>, c: Call)
    ensures var ok := step(ExecAll(step, s, cs), c).1;
            && Outcomes(step, s, cs + [c], ok) == Outcomes(step, s, cs, ok) + {c.relPath}
            && Outcomes(step, s, cs + [c], !ok) == Outcomes(step, s, cs, !ok)
  {
    assert (cs + [c])[..|cs|] == cs;
  }

  /** No call failed exactly when every call succeeded. */
  lemma {:induction false} NoFailuresIffAllSucceed(step: CallStep, s: Server, cs: seq<Call>)
    ensures Outcomes(step, s, cs, false) == {} <==> AllSucceed(step, s, cs)
    decreases |cs|
  {
    if cs != [] {
      var init, last := cs[..|cs| - 1], cs[|cs| - 1];
      NoFailuresIffAllSucceed(step, s, init);
      var ok := step(ExecAll(step, s, init), last).1;
      if AllSucceed(step, s, cs) {
        forall i | 0 <= i < |init|
          ensures step(ExecAll(step, s, init[..i]), init[i]).1
        {
          assert init[..i] == cs[..i] && init[i] == cs[i];
        }
        assert cs[..|init|] == init;
      }
      if AllSucceed(step, s, init) && ok {
        forall i | 0 <= i < |cs|
          ensures step(ExecAll(step, s, cs[..i]), cs[i]).1
        {
          if i < |init| {
            assert cs[..i] == init[..i] && cs[i] == init[i];
          } else {
            assert cs[..i] == init;
          }
        }
      }
    }
  }

  /** The outcomes of `a + b`: those of `a`, then those of `b` on the server `a` left. */
  lemma {:induction false} OutcomesAppend(step: CallStep, s: Server, a: seq<Call>, b: seq<Call>, ok: bool)
    ensures Outcomes(step, s, a + b, ok) == Outcomes(step, s, a, ok) + Outcomes(step, ExecAll(step, s, a), b, ok)
    decreases |b|
  {
    if b == [] {
      assert a + b == a;
    } else {
      var b' := b[..|b| - 1];
      assert (a + b)[..|a + b| - 1] == a + b';
      OutcomesAppend(step, s, a, b', ok);
      ExecAllAppend(step, s, a, b');
    }
  }

  /**
   * Book-keeping of a loop over the files `keys`: `remaining` and `done`
   * split them, and the files done split into successes and failures.
   */
  predicate Progress(keys: set<string>, remaining: set<string>, done: set<string>, good: set<string>, bad: set<string>)
  {
    remaining !! done && remaining + done == keys && good !! bad && good + bad == done
  }

  /** Taking one more remaining file keeps the book-keeping, whichever way its call went. */
  lemma ProgressStep(keys: set<string>, remaining: set<string>, done: set<string>, good: set<string>, bad: set<string>, p: string)
    requires Progress(keys, remaining, done, good, bad) && p in remaining
    ensures p !in done && |done + {p}| == |done| + 1
    ensures Progress(keys, remaining - {p}, done + {p}, good + {p}, bad)
    ensures Progress(keys, remaining - {p}, done + {p}, good, bad + {p})
  {
  }

  /** The calls of `cs` are pairwise different. */
  predicate Distinct(cs: seq<Call>)
  {
    forall i, j :: 0 <= i < j < |cs| ==> cs[i] != cs[j]
  }

  /** Every call of `cs` uploads a file of `keys`. */
  predicate UploadsOf(cs: seq<Call>, keys: set<string>)
  {
    forall i :: 0 <= i < |cs| ==> cs[i].Upload? && cs[i].relPath in keys
  }

  /** Every call of `cs` deletes a file of `keys`. */
  predicate DeletesOf(cs: seq<Call>, keys: set<string>)
  {
    forall i :: 0 <= i < |cs| ==> cs[i].Delete? && cs[i].relPath in keys
  }

  /** One more upload of a file not yet handled keeps the calls distinct. */
  lemma UploadsSnoc(cs: seq<Call>, done: set<string>, p: string)
    requires UploadsOf(cs, done) && Distinct(cs) && p !in done
    ensures UploadsOf(cs + [Upload(p)], done + {p}) && Distinct(cs + [Upload(p)])
  {
  }

  /** One more delete of a file not yet handled keeps the calls distinct. */
  lemma DeletesSnoc(cs: seq<Call>, done: set<string>, p: string)
    requires DeletesOf(cs, done) && Distinct(cs) && p !in done
    ensures DeletesOf(cs + [Delete(p)], done + {p}) && Distinct(cs + [Delete(p)])
  {
  }

  /**
   * The calls follow the plan: one upload per file to upload, then one
   * delete per file to delete, each file once.
   */
  predicate CallsFollowPlan(calls: seq<Call>, plan: Plan)
  {
    && |calls| == |plan.upload.Keys| + |plan.delete.Keys|
    && (forall i :: 0 <= i < |plan.upload.Keys| ==> calls[i].Upload? && calls[i].relPath in plan.upload)
    && (forall i :: |plan.upload.Keys| <= i < |calls| ==> calls[i].Delete? && calls[i].relPath in plan.delete)
    && (forall i, j :: 0 <= i < j < |calls| ==> calls[i] != calls[j])
  }

  /** The upload calls followed by the delete calls follow the plan. */
  lemma UploadsThenDeletesFollowPlan(uc: seq<Call>, dc: seq<Call>, plan: Plan)
    requires |uc| == |plan.upload.Keys| && UploadsOf(uc, plan.upload.Keys) && Distinct(uc)
    requires |dc| == |plan.delete.Keys| && DeletesOf(dc, plan.delete.Keys) && Distinct(dc)
    ensures CallsFollowPlan(uc + dc, plan)
  {
    var calls := uc + dc;
    forall i, j | 0 <= i < j < |calls|
      ensures calls[i] != calls[j]
    {
      if j < |uc| {
        assert calls[i] == uc[i] && calls[j] == uc[j];
      } else if |uc| <= i {
        assert calls[i] == dc[i - |uc|] && calls[j] == dc[j - |uc|];
      } else {
        assert calls[i].Upload? && calls[j].Delete?;
      }
    }
  }

  /** sync.py's `FTPUploader`, over one `Ftp` session, running directory helper `helper`. */
  class FtpUploader {
    const helper: Helper
    const remoteDir: string
    const ftp: Ftp

    constructor (helper: Helper, remoteDir: string, ftp: Ftp)
      ensures this.helper == helper && this.remoteDir == remoteDir && this.ftp == ftp
    {
      this.helper := helper;
      this.remoteDir := remoteDir;
      this.ftp := ftp;
    }

    method Connect() returns (ok: bool)
      modifies ftp
      ensures (ftp.server, ok) == OpenSession(old(ftp.server), remoteDir)
    {
      var r := ftp.Login();
      if r != Ok {
        return false;
      }
      r := ftp.Cwd(remoteDir);
      ok := r == Ok;
    }

    /** One step of the loop as written, as `AsWrittenEnter` states. */
    method EnterAsWritten(cur: string) returns (end: WalkEnd)
      modifies ftp
      ensures (ftp.server, end) == AsWrittenEnter(old(ftp.server), cur)
    {
      var r := ftp.Cwd(cur);
      if r == Ok {
        return Entered;
      }
      if r == OtherError {
        return Broke(OtherError);
      }
      r := ftp.Mkd(cur);
      if r != Ok {
        return CreateFailed(r);
      }
      r := ftp.Cwd(cur);
      end := if r == Ok then Entered else CreateFailed(r);
    }

    /** `_ensure_remote_dir` exactly as sync.py writes it; see `EnsureRemoteDir` for the corrected one. */
    method EnsureRemoteDirAsWritten(remotePath: string) returns (e: Ensured)
      modifies ftp
      ensures (ftp.server, e) == AsWrittenEnsure(old(ftp.server), remoteDir, remotePath)
    {
      var parts := DirParts(remotePath);
      if parts == [""] {
        return NoDirectory;
      }
      ghost var walk := AsWrittenWalk(ftp.server, parts, "");
      var current := "";
      var i := 0;
      while i < |parts|
        invariant 0 <= i <= |parts|
        invariant AsWrittenWalk(ftp.server, parts[i..], current) == walk
      {
        assert parts[i..][0] == parts[i] && parts[i..][1..] == parts[i + 1..];
        AsWrittenWalkStep(ftp.server, parts[i..], current);
        if parts[i] != "" {
          current := Extend(current, parts[i]);
          var end := EnterAsWritten(current);
          if end != Entered {
            return Raised(end.reply);
          }
        }
        i := i + 1;
      }
      var r := ftp.Cwd(remoteDir);
      e := if r == Ok then Completed else Raised(r);
    }

    /** The corrected `_ensure_remote_dir`: one component at a time. */
    method EnsureRemoteDir(remotePath: string) returns (e: Ensured)
      modifies ftp
      ensures (ftp.server, e) == EnsureSpec(old(ftp.server), remoteDir, remotePath)
    {
      var parts := DirParts(remotePath);
      if parts == [""] {
        return NoDirectory;
      }
      ghost var walk := Walk(ftp.server, parts);
      var i := 0;
      while i < |parts|
        invariant 0 <= i <= |parts|
        invariant Walk(ftp.server, parts[i..]) == walk
      {
        assert parts[i..][0] == parts[i] && parts[i..][1..] == parts[i + 1..];
        if parts[i] != "" {
          var end := EnterDir(ftp, parts[i]);
          if end != Entered {
            return Raised(end.reply);
          }
        }
        i := i + 1;
      }
      var r := ftp.Cwd(remoteDir);
      e := if r == Ok then Completed else Raised(r);
    }

    /** `upload_file`, with the uploader's helper. */
    method UploadFile(relPath: string, local: map<string, Bytes>) returns (ok: bool)
      modifies ftp
      ensures (ftp.server, ok) == UploadSpec(helper, old(ftp.server), remoteDir, local, relPath)
    {
      var e;
      if helper == AsWritten {
        e := EnsureRemoteDirAsWritten(relPath);
      } else {
        e := EnsureRemoteDir(relPath);
      }
      if e.Raised? || relPath !in local {
        return false;
      }
      var r := ftp.StorBinary(relPath, local[relPath]);
      ok := r == Ok;
    }

    /** `delete_file`: every exception gives `False`. */
    method DeleteFile(relPath: string) returns (ok: bool)
      modifies ftp
      ensures ftp.server == DeleStep(old(ftp.server), relPath).server
      ensures ok <==> old(ftp.server).Live() && Resolve(old(ftp.server).cwd, relPath) in old(ftp.server).files
    {
      var r := ftp.Delete(relPath);
      ok := r == Ok;
    }

    /** `close`: `quit`, whose failure sync.py does not catch. */
    method Close() returns (r: Reply)
      modifies ftp
      ensures Step(ftp.server, r) == QuitStep(old(ftp.server))
    {
      r := ftp.Quit();
    }
  }

  /**
   * How `run_sync` ended: another run held the lock, no configuration, an
   * empty plan, no connection, or the plan carried out, with the files
   * whose call succeeded or failed (the report's counts are their sizes)
   * and whether `close` returned; when its `quit` raised, the exception
   * left `run_sync` before the state could be saved or the report logged.
   */
  datatype Report =
    | Busy
    | NoConfig
    | NoChanges
    | ConnectFailed
    | Finished(uploaded: set<string>, uploadFailed: set<string>, deleted: set<string>, deleteFailed: set<string>,
               closed: bool)

  /**
   * `run_sync`, with uploaders running helper `helper`. `lockFree` says
   * whether the lock was free, `remoteDir` is the loaded configuration
   * (`None` when it could not be loaded), `stored` the loaded state (empty
   * when missing or unreadable), `tree` the files the walk yields and
   * `local` their contents. Returns the report, the calls made, and the
   * state saved (if any).
   */
  method RunSync(helper: Helper, lockFree: bool, remoteDir: Option<string>, force: bool, stored: State,
                 tree: seq<LocalFile>, local: map<string, Bytes>, ftp: Ftp)
    returns (report: Report, calls: seq<Call>, saved: Option<State>)
    modifies ftp
    ensures !lockFree ==> report == Busy
    ensures lockFree && remoteDir == None ==> report == NoConfig
    ensures lockFree && remoteDir.Some? ==>
              (report == NoChanges <==> MakePlan(stored, Snapshot(tree), force) == Plan(map[], map[]))
    ensures report.Busy? || report.NoConfig? || report.NoChanges? ==> ftp.server == old(ftp.server)
    ensures report.ConnectFailed? ==>
              remoteDir.Some? && ftp.server == OpenSession(old(ftp.server), remoteDir.value).0
              && !OpenSession(old(ftp.server), remoteDir.value).1
    ensures !report.Finished? ==> calls == [] && saved == None
    ensures report.Finished? ==>
              && remoteDir.Some? && OpenSession(old(ftp.server), remoteDir.value).1
              && var s1 := OpenSession(old(ftp.server), remoteDir.value).0;
              && var step := Calls(helper, remoteDir.value, local);
              && Accounted(report, MakePlan(stored, Snapshot(tree), force), step, s1, calls)
              && var last := ExecAll(step, s1, calls);
              && ftp.server == QuitStep(last).server
              && (report.closed <==> last.Live())
    ensures saved.Some? <==>
              report.Finished? && report.closed && report.uploadFailed == {} && report.deleteFailed == {}
    ensures saved.Some? ==> saved.value == Snapshot(tree)
  {
    calls := [];
    saved := None;
    if !lockFree {
      return Busy, calls, saved;
    }
    if remoteDir == None {
      return NoConfig, calls, saved;
    }
    var current := GetCurrentState(tree);
    var plan := MakePlan(stored, current, force);
    if plan.upload == map[] && plan.delete == map[] {
      return NoChanges, calls, saved;
    }
    var uploader := new FtpUploader(helper, remoteDir.value, ftp);
    var ok := uploader.Connect();
    if !ok {
      return ConnectFailed, calls, saved;
    }
    report, calls, saved := CarryOut(uploader, plan.upload, plan.delete, local, current);
  }

  /**
   * A finished report of carrying out `plan` by the calls `calls` made
   * from `s1`: the calls follow the plan, each file is reported as done
   * exactly when its own call succeeded, and no upload or delete is
   * reported failed exactly when every call succeeded.
   */
  ghost predicate Accounted(report: Report, plan: Plan, step: CallStep, s1: Server, calls: seq<Call>)
  {
    && report.Finished?
    && report.uploaded !! report.uploadFailed && report.uploaded + report.uploadFailed == plan.upload.Keys
    && report.deleted !! report.deleteFailed && report.deleted + report.deleteFailed == plan.delete.Keys
    && CallsFollowPlan(calls, plan)
    && report.uploaded + report.deleted == Outcomes(step, s1, calls, true)
    && report.uploadFailed + report.deleteFailed == Outcomes(step, s1, calls, false)
    && (report.uploadFailed == {} && report.deleteFailed == {} <==> AllSucceed(step, s1, calls))
  }

  /**
   * The part of `run_sync` after `connect` succeeded: both loops, `close`,
   * and saving `current` when nothing failed and `close` returned.
   */
  method CarryOut(uploader: FtpUploader, toUpload: State, toDelete: State, local: map<string, Bytes>, current: State)
    returns (report: Report, calls: seq<Call>, saved: Option<State>)
    modifies uploader.ftp
    ensures var step := Calls(uploader.helper, uploader.remoteDir, local);
            && Accounted(report, Plan(toUpload, toDelete), step, old(uploader.ftp.server), calls)
            && var last := ExecAll(step, old(uploader.ftp.server), calls);
            && uploader.ftp.server == QuitStep(last).server
            && (report.closed <==> last.Live())
    ensures saved == if report.closed && report.uploadFailed == {} && report.deleteFailed == {}
                     then Some(current) else None
  {
    ghost var s1 := uploader.ftp.server;
    ghost var step := Calls(uploader.helper, uploader.remoteDir, local);
    var uploadCalls, uploaded, uploadFailed := UploadAll(uploader, toUpload.Keys, local);
    var deleteCalls, deleted, deleteFailed := DeleteAll(uploader, toDelete.Keys, local);
    calls := uploadCalls + deleteCalls;
    Committed(step, s1, uploadCalls, deleteCalls, Plan(toUpload, toDelete),
              uploaded, uploadFailed, deleted, deleteFailed);
    var closing := uploader.Close();
    saved := None;
    if closing == Ok && uploadFailed == {} && deleteFailed == {} {
      saved := Some(current);
    }
    report := Finished(uploaded, uploadFailed, deleted, deleteFailed, closing == Ok);
  }

  /**
   * What the two loops of `run_sync` add up to: the calls follow the plan,
   * the files split by how their own call went, and no upload or delete
   * failed exactly when every call succeeded.
   */
  lemma Committed(step: CallStep, s1: Server, uc: seq<Call>, dc: seq<Call>, plan: Plan,
                  uploaded: set<string>, uploadFailed: set<string>, deleted: set<string>, deleteFailed: set<string>)
    requires |uc| == |plan.upload.Keys| && UploadsOf(uc, plan.upload.Keys) && Distinct(uc)
    requires |dc| == |plan.delete.Keys| && DeletesOf(dc, plan.delete.Keys) && Distinct(dc)
    requires uploaded == Outcomes(step, s1, uc, true) && uploadFailed == Outcomes(step, s1, uc, false)
    requires deleted == Outcomes(step, ExecAll(step, s1, uc), dc, true)
    requires deleteFailed == Outcomes(step, ExecAll(step, s1, uc), dc, false)
    ensures CallsFollowPlan(uc + dc, plan)
    ensures uploaded + deleted == Outcomes(step, s1, uc + dc, true)
    ensures uploadFailed + deleteFailed == Outcomes(step, s1, uc + dc, false)
    ensures uploadFailed == {} && deleteFailed == {} <==> AllSucceed(step, s1, uc + dc)
    ensures ExecAll(step, s1, uc + dc) == ExecAll(step, ExecAll(step, s1, uc), dc)
  {
    UploadsThenDeletesFollowPlan(uc, dc, plan);
    OutcomesAppend(step, s1, uc, dc, true);
    OutcomesAppend(step, s1, uc, dc, false);
    NoFailuresIffAllSucceed(step, s1, uc + dc);
    ExecAllAppend(step, s1, uc, dc);
  }

  /**
   * The book-keeping of either loop of `run_sync` over the files `keys`
   * (uploads when `upload`, deletes otherwise), with the calls made so far
   * from `s0`: each file handled once, by one call, and counted a success
   * or a failure as that call went.
   */
  ghost predicate LoopState(keys: set<string>, remaining: set<string>, done: set<string>, calls: seq<Call>,
                            good: set<string>, bad: set<string>, step: CallStep, s0: Server, upload: bool)
  {
    && Progress(keys, remaining, done, good, bad)
    && |calls| == |done|
    && (if upload then UploadsOf(calls, done) else DeletesOf(calls, done))
    && Distinct(calls)
    && good == Outcomes(step, s0, calls, true) && bad == Outcomes(step, s0, calls, false)
  }

  /** The call for `p` in either loop. */
  function CallFor(p: string, upload: bool): Call
  {
    if upload then Upload(p) else Delete(p)
  }

  /** One turn of either loop keeps its book-keeping. */
  lemma LoopStep(keys: set<string>, remaining: set<string>, done: set<string>, calls: seq<Call>,
                 good: set<string>, bad: set<string>, step: CallStep, s0: Server, upload: bool, p: string)
    requires LoopState(keys, remaining, done, calls, good, bad, step, s0, upload) && p in remaining
    ensures var ok := step(ExecAll(step, s0, calls), CallFor(p, upload)).1;
            LoopState(keys, remaining - {p}, done + {p}, calls + [CallFor(p, upload)],
                      if ok then good + {p} else good, if ok then bad else bad + {p}, step, s0, upload)
    ensures ExecAll(step, s0, calls + [CallFor(p, upload)]) == step(ExecAll(step, s0, calls), CallFor(p, upload)).0
    ensures |remaining - {p}| < |remaining|
  {
    ProgressStep(keys, remaining, done, good, bad, p);
    if upload {
      UploadsSnoc(calls, done, p);
    } else {
      DeletesSnoc(calls, done, p);
    }
    OutcomesSnoc(step, s0, calls, CallFor(p, upload));
    ExecAllSnoc(step, s0, calls, CallFor(p, upload));
  }

  /** The upload loop of `run_sync`: each file of `keys` once, in the dictionary's order. */
  method UploadAll(uploader: FtpUploader, keys: set<string>, local: map<string, Bytes>)
    returns (calls: seq<Call>, uploaded: set<string>, failed: set<string>)
    modifies uploader.ftp
    ensures uploaded !! failed && uploaded + failed == keys
    ensures |calls| == |keys|
    ensures UploadsOf(calls, keys) && Distinct(calls)
    ensures uploaded == Outcomes(Calls(uploader.helper, uploader.remoteDir, local), old(uploader.ftp.server), calls, true)
    ensures failed == Outcomes(Calls(uploader.helper, uploader.remoteDir, local), old(uploader.ftp.server), calls, false)
    ensures uploader.ftp.server == ExecAll(Calls(uploader.helper, uploader.remoteDir, local), old(uploader.ftp.server), calls)
  {
    ghost var s0 := uploader.ftp.server;
    ghost var step := Calls(uploader.helper, uploader.remoteDir, local);
    var remaining := keys;
    calls, uploaded, failed := [], {}, {};
    ghost var done: set<string> := {};
    while remaining != {}
      invariant LoopState(keys, remaining, done, calls, uploaded, failed, step, s0, true)
      invariant uploader.ftp.server == ExecAll(step, s0, calls)
      decreases |remaining|
    {
      var p :| p in remaining;
      LoopStep(keys, remaining, done, calls, uploaded, failed, step, s0, true, p);
      var ok := UploadNext(uploader, p, local, s0, calls);
      calls := calls + [Upload(p)];
      uploaded, failed := if ok then uploaded + {p} else uploaded, if ok then failed else failed + {p};
      done := done + {p};
      remaining := remaining - {p};
    }
  }

  /** One step of the upload loop: `upload_file` on the server the calls so far left. */
  method UploadNext(uploader: FtpUploader, p: string, local: map<string, Bytes>, ghost s0: Server, ghost calls: seq<Call>)
    returns (ok: bool)
    requires uploader.ftp.server == ExecAll(Calls(uploader.helper, uploader.remoteDir, local), s0, calls)
    modifies uploader.ftp
    ensures (uploader.ftp.server, ok)
            == UploadSpec(uploader.helper, ExecAll(Calls(uploader.helper, uploader.remoteDir, local), s0, calls),
                          uploader.remoteDir, local, p)
    ensures var step := Calls(uploader.helper, uploader.remoteDir, local);
            (uploader.ftp.server, ok) == step(ExecAll(step, s0, calls), Upload(p))
  {
    ok := uploader.UploadFile(p, local);
  }

  /** One step of the delete loop: `delete_file` on the server the calls so far left. */
  method DeleteNext(uploader: FtpUploader, p: string, ghost local: map<string, Bytes>, ghost s0: Server, ghost calls: seq<Call>)
    returns (ok: bool)
    requires uploader.ftp.server == ExecAll(Calls(uploader.helper, uploader.remoteDir, local), s0, calls)
    modifies uploader.ftp
    ensures var step := Calls(uploader.helper, uploader.remoteDir, local);
            (uploader.ftp.server, ok) == step(ExecAll(step, s0, calls), Delete(p))
  {
    ok := uploader.DeleteFile(p);
  }

  /** The delete loop of `run_sync`: each file of `keys` once, in the dictionary's order. */
  method DeleteAll(uploader: FtpUploader, keys: set<string>, local: map<string, Bytes>)
    returns (calls: seq<Call>, deleted: set<string>, failed: set<string>)
    modifies uploader.ftp
    ensures deleted !! failed && deleted + failed == keys
    ensures |calls| == |keys|
    ensures DeletesOf(calls, keys) && Distinct(calls)
    ensures deleted == Outcomes(Calls(uploader.helper, uploader.remoteDir, local), old(uploader.ftp.server), calls, true)
    ensures failed == Outcomes(Calls(uploader.helper, uploader.remoteDir, local), old(uploader.ftp.server), calls, false)
    ensures uploader.ftp.server == ExecAll(Calls(uploader.helper, uploader.remoteDir, local), old(uploader.ftp.server), calls)
  {
    ghost var s0 := uploader.ftp.server;
    ghost var step := Calls(uploader.helper, uploader.remoteDir, local);
    var remaining := keys;
    calls, deleted, failed := [], {}, {};
    ghost var done: set<string> := {};
    while remaining != {}
      invariant LoopState(keys, remaining, done, calls, deleted, failed, step, s0, false)
      invariant uploader.ftp.server == ExecAll(step, s0, calls)
      decreases |remaining|
    {
      var p :| p in remaining;
      LoopStep(keys, remaining, done, calls, deleted, failed, step, s0, false, p);
      var ok := DeleteNext(uploader, p, local, s0, calls);
      calls := calls + [Delete(p)];
      deleted, failed := if ok then deleted + {p} else deleted, if ok then failed else failed + {p};
      done := done + {p};
      remaining := remaining - {p};
    }
  }

  /**
   * The saved state does its job: after a run that saved the state, a run
   * over the same tree finds nothing to do.
   */
  lemma SavedStateMakesNextRunEmpty(tree: seq<LocalFile>)
    ensures MakePlan(Snapshot(tree), Snapshot(tree), false) == Plan(map[], map[])
  {
    EmptyPlanIffUnchanged(Snapshot(tree), Snapshot(tree));
  }
}
