/**
 * An abstract FTP server as the synchronisation code sees it through
 * `ftplib.FTP`: a tree of directories, a map from file paths to contents,
 * the session's working directory, and the record of commands sent.
 *
 * Paths are absolute lists of components; a command argument is resolved
 * against the working directory unless it starts with '/'. The commands
 * fail the way `ftplib` reports failures: a permanent (5xx) reply raises
 * `error_perm`, anything else (a lost or never-opened control connection)
 * raises some other exception.
 */
module Remote {
  import opened Strings

  type Path = seq<string>
  type Bytes = seq<bv8>

  /** Outcome of one command: success, `error_perm`, or any other exception. */
  datatype Reply = Ok | PermError | OtherError

  datatype Command = LOGIN | CWD(arg: string) | MKD(arg: string) | STOR(arg: string) | DELE(arg: string) | QUIT

  /**
   * `reachable` stands for host, port and credentials being accepted;
   * `locked` holds the directories the server refuses to create.
   */
  datatype Server = Server(
    dirs: set<Path>,
    files: map<Path, Bytes>,
    home: Path,
    cwd: Path,
    reachable: bool,
    loggedIn: bool,
    locked: set<Path>,
    sent: seq<Command>)
  {
    /** A command can succeed only on an open session to a reachable server. */
    predicate Live()
    {
      reachable && loggedIn
    }
  }

  function Parent(p: Path): Path
    requires p != []
  {
    p[..|p| - 1]
  }

  /** The server's tree is well formed and the session stands in a directory. */
  predicate Valid(s: Server)
  {
    && [] in s.dirs
    && s.home in s.dirs
    && s.cwd in s.dirs
    && (forall d :: d in s.dirs && d != [] ==> Parent(d) in s.dirs)
    && (forall f :: f in s.files ==> f != [] && Parent(f) in s.dirs && f !in s.dirs)
  }

  /** The directory a command argument names, seen from `cwd`. */
  function Resolve(cwd: Path, arg: string): (p: Path)
    ensures StartsWith(arg, "/") ==> p == Components(arg)
    ensures !StartsWith(arg, "/") ==> p == cwd + Components(arg)
  {
    (if StartsWith(arg, "/") then [] else cwd) + Components(arg)
  }

  datatype Step = Step(server: Server, reply: Reply)

  /** `ftp.connect(...)` followed by `ftp.login(...)`: a fresh session in the home directory. */
  function LoginStep(s: Server): (r: Step)
    ensures r.reply == Ok <==> s.reachable
    ensures r.reply == Ok ==> r.server.Live() && r.server.cwd == s.home
    ensures r.server.dirs == s.dirs && r.server.files == s.files
    ensures Valid(s) ==> Valid(r.server)
  {
    var s1 := s.(sent := s.sent + [LOGIN]);
    if s.reachable then Step(s1.(loggedIn := true, cwd := s.home), Ok)
    else Step(s1.(loggedIn := false), OtherError)
  }

  /** `ftp.cwd(arg)` */
  function CwdStep(s: Server, arg: string): (r: Step)
    ensures r.reply == Ok <==> s.Live() && Resolve(s.cwd, arg) in s.dirs
    ensures r.reply == OtherError <==> !s.Live()
    ensures r.server.cwd == if r.reply == Ok then Resolve(s.cwd, arg) else s.cwd
    ensures r.server == s.(cwd := r.server.cwd, sent := s.sent + [CWD(arg)])
    ensures Valid(s) ==> Valid(r.server)
  {
    var s1 := s.(sent := s.sent + [CWD(arg)]);
    if !s.Live() then Step(s1, OtherError)
    else if Resolve(s.cwd, arg) in s.dirs then Step(s1.(cwd := Resolve(s.cwd, arg)), Ok)
    else Step(s1, PermError)
  }

  /** Whether `MKD` of `t` is accepted: a new name inside an existing directory. */
  predicate CanCreate(s: Server, t: Path)
  {
    t != [] && t !in s.dirs && t !in s.files && Parent(t) in s.dirs && t !in s.locked
  }

  /** `ftp.mkd(arg)` */
  function MkdStep(s: Server, arg: string): (r: Step)
    ensures r.reply == Ok <==> s.Live() && CanCreate(s, Resolve(s.cwd, arg))
    ensures r.reply == OtherError <==> !s.Live()
    ensures r.server.dirs == if r.reply == Ok then s.dirs + {Resolve(s.cwd, arg)} else s.dirs
    ensures r.server == s.(dirs := r.server.dirs, sent := s.sent + [MKD(arg)])
    ensures Valid(s) ==> Valid(r.server)
  {
    var s1 := s.(sent := s.sent + [MKD(arg)]);
    var t := Resolve(s.cwd, arg);
    if !s.Live() then Step(s1, OtherError)
    else if CanCreate(s, t) then Step(s1.(dirs := s.dirs + {t}), Ok)
    else Step(s1, PermError)
  }

  /** Whether `STOR` to `t` is accepted: not a directory, inside an existing one. */
  predicate CanStore(s: Server, t: Path)
  {
    t != [] && t !in s.dirs && Parent(t) in s.dirs && t !in s.locked
  }

  /** `ftp.storbinary('STOR ' + arg, data)` */
  function StorStep(s: Server, arg: string, data: Bytes): (r: Step)
    ensures r.reply == Ok <==> s.Live() && CanStore(s, Resolve(s.cwd, arg))
    ensures r.reply == OtherError <==> !s.Live()
    ensures r.server.files == if r.reply == Ok then s.files[Resolve(s.cwd, arg) := data] else s.files
    ensures r.server == s.(files := r.server.files, sent := s.sent + [STOR(arg)])
    ensures Valid(s) ==> Valid(r.server)
  {
    var s1 := s.(sent := s.sent + [STOR(arg)]);
    var t := Resolve(s.cwd, arg);
    if !s.Live() then Step(s1, OtherError)
    else if CanStore(s, t) then Step(s1.(files := s.files[t := data]), Ok)
    else Step(s1, PermError)
  }

  /** `ftp.delete(arg)`: a missing file is a permanent error. */
  function DeleStep(s: Server, arg: string): (r: Step)
    ensures r.reply == Ok <==> s.Live() && Resolve(s.cwd, arg) in s.files
    ensures r.reply == OtherError <==> !s.Live()
    ensures r.server.files == if r.reply == Ok then s.files - {Resolve(s.cwd, arg)} else s.files
    ensures r.server == s.(files := r.server.files, sent := s.sent + [DELE(arg)])
    ensures Valid(s) ==> Valid(r.server)
  {
    var s1 := s.(sent := s.sent + [DELE(arg)]);
    var t := Resolve(s.cwd, arg);
    if !s.Live() then Step(s1, OtherError)
    else if t in s.files then Step(s1.(files := s.files - {t}), Ok)
    else Step(s1, PermError)
  }

  /** `ftp.quit()`: the session is closed whether or not the goodbye got through. */
  function QuitStep(s: Server): (r: Step)
    ensures r.reply == Ok <==> s.Live()
    ensures !r.server.loggedIn
    ensures r.server == s.(loggedIn := false, sent := s.sent + [QUIT])
  {
    Step(s.(loggedIn := false, sent := s.sent + [QUIT]), if s.Live() then Ok else OtherError)
  }

  /** The `ftplib.FTP` object: one session on the server, changed in place by every command. */
  class Ftp {
    var server: Server

    constructor (s: Server)
      ensures server == s
    {
      server := s;
    }

    method Login() returns (r: Reply)
      modifies this
      ensures Step(server, r) == LoginStep(old(server))
    {
      var st := LoginStep(server);
      server, r := st.server, st.reply;
    }

    method Cwd(arg: string) returns (r: Reply)
      modifies this
      ensures Step(server, r) == CwdStep(old(server), arg)
    {
      var st := CwdStep(server, arg);
      server, r := st.server, st.reply;
    }

    method Mkd(arg: string) returns (r: Reply)
      modifies this
      ensures Step(server, r) == MkdStep(old(server), arg)
    {
      var st := MkdStep(server, arg);
      server, r := st.server, st.reply;
    }

    method StorBinary(arg: string, data: Bytes) returns (r: Reply)
      modifies this
      ensures Step(server, r) == StorStep(old(server), arg, data)
    {
      var st := StorStep(server, arg, data);
      server, r := st.server, st.reply;
    }

    method Delete(arg: string) returns (r: Reply)
      modifies this
      ensures Step(server, r) == DeleStep(old(server), arg)
    {
      var st := DeleStep(server, arg);
      server, r := st.server, st.reply;
    }

    method Quit() returns (r: Reply)
      modifies this
      ensures Step(server, r) == QuitStep(old(server))
    {
      var st := QuitStep(server);
      server, r := st.server, st.reply;
    }
  }

  /**
   * How a walk down a directory path ended: every component entered, a
   * component that could be neither entered nor created (with the reply of
   * the `MKD` or `CWD` that failed), or an exception other than `error_perm`
   * from the plain `CWD`, which no caller catches.
   */
  datatype WalkEnd = Entered | CreateFailed(reply: Reply) | Broke(reply: Reply)

  /**
   * Opening a session as both uploaders' `connect` do: log in, then `CWD`
   * into the configured remote directory; `true` when both succeeded.
   */
  function OpenSession(s: Server, remoteDir: string): (r: (Server, bool))
    ensures r.1 <==> s.reachable && Resolve(s.home, remoteDir) in s.dirs
    ensures r.1 ==> r.0.Live() && r.0.cwd == Resolve(s.home, remoteDir)
    ensures r.0.dirs == s.dirs && r.0.files == s.files && r.0.locked == s.locked
    ensures r.0.reachable == s.reachable
    ensures Valid(s) ==> Valid(r.0)
  {
    var l := LoginStep(s);
    if l.reply != Ok then (l.server, false)
    else
      var c := CwdStep(l.server, remoteDir);
      (c.server, c.reply == Ok)
  }

  /**
   * One component of the walk: `CWD` into it; on `error_perm`, `MKD` it and
   * `CWD` into it.
   */
  function Enter(s: Server, part: string): (r: (Server, WalkEnd))
    ensures r.1 == Entered ==> r.0.cwd == Resolve(s.cwd, part) && r.0.cwd in r.0.dirs
    ensures r.0.dirs == s.dirs || r.0.dirs == s.dirs + {Resolve(s.cwd, part)}
    ensures r.0.files == s.files && r.0.reachable == s.reachable && r.0.loggedIn == s.loggedIn
    ensures r.0.locked == s.locked && r.0.home == s.home
    ensures r.1.Broke? ==> !s.Live()
    ensures Valid(s) ==> Valid(r.0)
  {
    var c := CwdStep(s, part);
    if c.reply == Ok then (c.server, Entered)
    else if c.reply == OtherError then (c.server, Broke(OtherError))
    else
      var m := MkdStep(c.server, part);
      if m.reply != Ok then (m.server, CreateFailed(m.reply))
      else
        var c2 := CwdStep(m.server, part);
        if c2.reply != Ok then (c2.server, CreateFailed(c2.reply))
        else (c2.server, Entered)
  }

  /** `Enter` on a live session: `CWD`, then on `error_perm` `MKD` and `CWD` again. */
  method EnterDir(ftp: Ftp, part: string) returns (end: WalkEnd)
    modifies ftp
    ensures (ftp.server, end) == Enter(old(ftp.server), part)
  {
    var r := ftp.Cwd(part);
    if r == Ok {
      return Entered;
    }
    if r == OtherError {
      return Broke(OtherError);
    }
    r := ftp.Mkd(part);
    if r != Ok {
      return CreateFailed(r);
    }
    r := ftp.Cwd(part);
    if r != Ok {
      return CreateFailed(r);
    }
    end := Entered;
  }

  /**
   * The loop shared by both uploaders' directory helpers (in sync.py once
   * corrected): `Enter` each non-empty component in turn, stopping at the
   * first that fails.
   */
  function Walk(s: Server, parts: seq<string>): (r: (Server, WalkEnd))
    ensures r.0.files == s.files && r.0.reachable == s.reachable && r.0.loggedIn == s.loggedIn
    ensures r.0.locked == s.locked && r.0.home == s.home
    ensures s.dirs <= r.0.dirs
    ensures r.1.Broke? ==> !s.Live()
    ensures Valid(s) ==> Valid(r.0)
    decreases |parts|
  {
    if parts == [] then (s, Entered)
    else if parts[0] == "" then Walk(s, parts[1..])
    else
      var e := Enter(s, parts[0]);
      if e.1 != Entered then e else Walk(e.0, parts[1..])
  }

  /** A single non-empty name without '/' resolves to one step down. */
  lemma ResolveName(cwd: Path, name: string)
    requires name != "" && '/' !in name
    ensures Resolve(cwd, name) == cwd + [name]
  {
    assert Join([name], '/') == name;
    SplitUnique([name], '/', name);
    assert !StartsWith(name, "/") by { assert name[0] in name; }
  }

  /** All the directories `base + parts[..k]` for `k` from 1 to `|parts|`. */
  ghost predicate PrefixesExist(dirs: set<Path>, base: Path, parts: seq<string>)
  {
    forall k :: 1 <= k <= |parts| ==> base + parts[..k] in dirs
  }

  /** Prefixes below `base + [p]` together with `base + [p]` itself are the prefixes of `[p] + rest`. */
  lemma PrefixesCons(dirs: set<Path>, base: Path, p: string, rest: seq<string>)
    requires base + [p] in dirs
    requires PrefixesExist(dirs, base + [p], rest)
    ensures PrefixesExist(dirs, base, [p] + rest)
  {
    forall k | 1 <= k <= |[p] + rest| ensures base + ([p] + rest)[..k] in dirs {
      if k == 1 {
        assert base + ([p] + rest)[..1] == base + [p];
      } else {
        assert base + ([p] + rest)[..k] == (base + [p]) + rest[..k - 1];
      }
    }
  }

  /**
   * A walk that entered every component leaves the session in
   * `cwd + NonEmpty(parts)`, with every intermediate directory present.
   */
  lemma {:induction false} WalkEntersAll(s: Server, parts: seq<string>)
    requires forall i :: 0 <= i < |parts| ==> '/' !in parts[i]
    requires Walk(s, parts).1 == Entered
    ensures Walk(s, parts).0.cwd == s.cwd + NonEmpty(parts)
    ensures PrefixesExist(Walk(s, parts).0.dirs, s.cwd, NonEmpty(parts))
    decreases |parts|
  {
    if parts == [] {
      assert s.cwd + [] == s.cwd;
    } else if parts[0] == "" {
      assert forall i :: 0 <= i < |parts[1..]| ==> '/' !in parts[1..][i];
      WalkEntersAll(s, parts[1..]);
      assert NonEmpty(parts) == NonEmpty(parts[1..]);
      assert Walk(s, parts) == Walk(s, parts[1..]);
    } else {
      var next := EnteredStep(s, parts);
      assert forall i :: 0 <= i < |parts[1..]| ==> '/' !in parts[1..][i];
      WalkEntersAll(next, parts[1..]);
      var rest := NonEmpty(parts[1..]);
      assert NonEmpty(parts) == [parts[0]] + rest;
      var end := Walk(next, parts[1..]).0;
      ConcatAssoc(s.cwd, [parts[0]], rest);
      assert next.dirs <= end.dirs;
      PrefixesCons(end.dirs, s.cwd, parts[0], rest);
    }
  }

  lemma ConcatAssoc(a: Path, b: Path, c: Path)
    ensures (a + b) + c == a + (b + c)
  {
  }

  /** The first step of a walk that went through: one level down, into a directory that exists. */
  lemma EnteredStep(s: Server, parts: seq<string>) returns (next: Server)
    requires parts != [] && parts[0] != "" && '/' !in parts[0]
    requires Walk(s, parts).1 == Entered
    ensures next == Enter(s, parts[0]).0
    ensures Walk(s, parts) == Walk(next, parts[1..])
    ensures next.cwd == s.cwd + [parts[0]] && next.cwd in next.dirs
  {
    var e := Enter(s, parts[0]);
    ResolveName(s.cwd, parts[0]);
    next := e.0;
  }

  /** `d` is one of the directories `base + parts[..k]`, `k` from 1 to `|parts|`. */
  ghost predicate OnPath(d: Path, base: Path, parts: seq<string>)
  {
    exists k :: 1 <= k <= |parts| && d == base + parts[..k]
  }

  lemma OnPathCons(d: Path, base: Path, p: string, rest: seq<string>)
    requires d == base + [p] || OnPath(d, base + [p], rest)
    ensures OnPath(d, base, [p] + rest)
  {
    if d == base + [p] {
      assert d == base + ([p] + rest)[..1];
    } else {
      var k :| 1 <= k <= |rest| && d == base + [p] + rest[..k];
      assert d == base + ([p] + rest)[..k + 1];
    }
  }

  /**
   * A walk creates nothing off its path: every new directory is one of the
   * prefixes `cwd + NonEmpty(parts)[..k]`.
   */
  lemma {:induction false} WalkCreatesOnlyPrefixes(s: Server, parts: seq<string>)
    requires forall i :: 0 <= i < |parts| ==> '/' !in parts[i]
    ensures forall d :: d in Walk(s, parts).0.dirs && d !in s.dirs ==> OnPath(d, s.cwd, NonEmpty(parts))
    decreases |parts|
  {
    if parts == [] {
    } else if parts[0] == "" {
      WalkCreatesOnlyPrefixes(s, parts[1..]);
      assert Walk(s, parts) == Walk(s, parts[1..]);
      assert NonEmpty(parts) == NonEmpty(parts[1..]);
    } else {
      var e := Enter(s, parts[0]);
      ResolveName(s.cwd, parts[0]);
      var rest := NonEmpty(parts[1..]);
      assert NonEmpty(parts) == [parts[0]] + rest;
      if e.1 == Entered {
        WalkCreatesOnlyPrefixes(e.0, parts[1..]);
        assert Walk(s, parts) == Walk(e.0, parts[1..]);
        forall d | d in Walk(s, parts).0.dirs && d !in s.dirs
          ensures OnPath(d, s.cwd, NonEmpty(parts))
        {
          OnPathCons(d, s.cwd, parts[0], rest);
        }
      } else {
        assert Walk(s, parts) == e;
      }
    }
  }

  /** No file and no refused directory sits on any of the paths `base + parts[..k]`. */
  ghost predicate PathFree(s: Server, base: Path, parts: seq<string>)
  {
    forall k :: 1 <= k <= |parts| ==> base + parts[..k] !in s.files && base + parts[..k] !in s.locked
  }

  lemma PathFreeCons(s: Server, t: Server, base: Path, p: string, rest: seq<string>)
    requires PathFree(s, base, [p] + rest)
    requires t.files == s.files && t.locked == s.locked
    ensures base + [p] !in s.files && base + [p] !in s.locked
    ensures PathFree(t, base + [p], rest)
  {
    assert base + ([p] + rest)[..1] == base + [p];
    forall k | 1 <= k <= |rest|
      ensures base + [p] + rest[..k] !in t.files && base + [p] + rest[..k] !in t.locked
    {
      assert base + [p] + rest[..k] == base + ([p] + rest)[..k + 1];
    }
  }

  /**
   * The walk is complete: on a live session, when nothing blocks the path
   * (no file in the way, no directory the server refuses), it enters every
   * component, creating what is missing.
   */
  lemma {:induction false} WalkSucceedsOnFreePath(s: Server, parts: seq<string>)
    requires Valid(s) && s.Live()
    requires forall i :: 0 <= i < |parts| ==> '/' !in parts[i]
    requires PathFree(s, s.cwd, NonEmpty(parts))
    ensures Walk(s, parts).1 == Entered
    decreases |parts|
  {
    if parts == [] {
    } else if parts[0] == "" {
      assert NonEmpty(parts) == NonEmpty(parts[1..]);
      WalkSucceedsOnFreePath(s, parts[1..]);
    } else {
      var p := parts[0];
      var rest := NonEmpty(parts[1..]);
      assert NonEmpty(parts) == [p] + rest;
      ResolveName(s.cwd, p);
      var e := Enter(s, p);
      PathFreeCons(s, e.0, s.cwd, p, rest);
      var c := CwdStep(s, p);
      if c.reply != Ok {
        assert CanCreate(c.server, s.cwd + [p]);
      }
      assert e.1 == Entered;
      WalkSucceedsOnFreePath(e.0, parts[1..]);
    }
  }
}
