/**
 * The lines the desktop front end logs when it saves the configuration and
 * starts watching (app.py:399-451, and the start line of sync_core.py:207),
 * and whether they mention one of the words its log handler counts. Such a
 * line mentions one exactly when the project path it quotes does.
 */
module LogLines {
  import opened Strings

  // ---------------------------------------------------------------------
  // The counted words
  // ---------------------------------------------------------------------

  /**
   * `a` then `b` spell one of the four words the log handler of app.py
   * counts (app.py:547-551): 错误 (error), 失败 (failure), 上传 (upload)
   * and 同步 (sync).
   */
  predicate CountedWord(a: char, b: char)
  {
    (a == '错' && b == '误') || (a == '失' && b == '败') || (a == '上' && b == '传') || (a == '同' && b == '步')
  }

  /** Two neighbouring characters of `msg` are `a` then `b`. */
  predicate Mentions(msg: string, a: char, b: char)
  {
    exists i :: 0 <= i < |msg| - 1 && msg[i] == a && msg[i + 1] == b
  }

  /** A text that mentions none of the counted words. */
  predicate Quiet(msg: string)
  {
    forall i :: 0 <= i < |msg| - 1 ==> !CountedWord(msg[i], msg[i + 1])
  }

  /** A two-character word occurs in `msg` exactly when two neighbouring characters spell it. */
  lemma ContainsPair(msg: string, w: string)
    requires |w| == 2
    ensures Contains(msg, w) <==> Mentions(msg, w[0], w[1])
  {
    if Contains(msg, w) {
      var i :| OccursAt(msg, w, i);
      assert msg[i..i + 2][0] == msg[i] && msg[i..i + 2][1] == msg[i + 1];
    }
    if Mentions(msg, w[0], w[1]) {
      var i :| 0 <= i < |msg| - 1 && msg[i] == w[0] && msg[i + 1] == w[1];
      assert msg[i..i + 2] == w;
      assert OccursAt(msg, w, i);
    }
  }

  /** A quiet text is one in which no counted word is mentioned. */
  lemma QuietMentions(msg: string)
    ensures Quiet(msg) <==>
              !Mentions(msg, '错', '误') && !Mentions(msg, '失', '败') && !Mentions(msg, '上', '传') && !Mentions(msg, '同', '步')
  {
    if !Quiet(msg) {
      var i :| 0 <= i < |msg| - 1 && CountedWord(msg[i], msg[i + 1]);
    }
  }

  /** `Quiet` is the handler's test: none of the four words is `in` the text. */
  lemma QuietMeansNoWords(msg: string)
    ensures Quiet(msg) <==>
              !Contains(msg, "错误") && !Contains(msg, "失败") && !Contains(msg, "上传") && !Contains(msg, "同步")
  {
    ContainsPair(msg, "错误");
    ContainsPair(msg, "失败");
    ContainsPair(msg, "上传");
    ContainsPair(msg, "同步");
  }

  /** A text without the first character of any counted word is quiet. */
  lemma QuietByChars(s: string)
    requires '错' !in s && '失' !in s && '上' !in s && '同' !in s
    ensures Quiet(s)
  {
    forall i | 0 <= i < |s| - 1
      ensures !CountedWord(s[i], s[i + 1])
    {
      assert s[i] in s;
    }
  }

  /**
   * No counted word straddles the seam between `a` and `b`: `a` does not
   * end with the first character of one, or `b` does not start with the second.
   */
  predicate SafeSeam(a: string, b: string)
  {
    a == [] || b == [] || a[|a| - 1] !in "错失上同" || b[0] !in "误败传步"
  }

  /** Two quiet texts stay quiet when joined at a safe seam. */
  lemma QuietConcat(a: string, b: string)
    requires Quiet(a) && Quiet(b) && SafeSeam(a, b)
    ensures Quiet(a + b)
  {
    var s := a + b;
    forall i | 0 <= i < |s| - 1
      ensures !CountedWord(s[i], s[i + 1])
    {
      if i + 1 < |a| {
        assert s[i] == a[i] && s[i + 1] == a[i + 1];
      } else if i >= |a| {
        assert s[i] == b[i - |a|] && s[i + 1] == b[i - |a| + 1];
      } else {
        assert s[i] == a[|a| - 1] && s[i + 1] == b[0];
      }
    }
  }

  /** A line made of quiet text around `piece`, at safe seams, is quiet exactly when `piece` is. */
  lemma AroundQuiet(pre: string, piece: string, post: string)
    requires Quiet(pre) && Quiet(post)
    requires pre == [] || pre[|pre| - 1] !in "错失上同"
    requires post == [] || post[0] !in "误败传步"
    ensures Quiet(pre + piece + post) <==> Quiet(piece)
  {
    var line := pre + piece + post;
    if Quiet(piece) {
      QuietConcat(pre, piece);
      QuietConcat(pre + piece, post);
    } else {
      var i :| 0 <= i < |piece| - 1 && CountedWord(piece[i], piece[i + 1]);
      assert line[|pre| + i] == piece[i] && line[|pre| + i + 1] == piece[i + 1];
    }
  }

  // ---------------------------------------------------------------------
  // The lines
  // ---------------------------------------------------------------------

  /** The name of the configuration file in a project directory. */
  const ConfigName: string := ".ftp_config.json"

  /**
   * `os.path.join(path, '.ftp_config.json')` on POSIX (app.py:404): a '/'
   * goes between the two exactly when the directory is not empty and does
   * not already end in one.
   */
  function ConfigPath(dir: string): (r: string)
    ensures |dir| <= |r| && r[..|dir|] == dir
    ensures r[|dir|..] == ConfigName || r[|dir|..] == "/" + ConfigName
    ensures r[|dir|..] == "/" + ConfigName <==> dir != "" && dir[|dir| - 1] != '/'
    ensures dir != "" ==> |r| > |ConfigName| && r[|r| - |ConfigName| - 1..] == "/" + ConfigName
  {
    if dir == "" || dir[|dir| - 1] == '/' then
      var r := dir + ConfigName;
      assert r[|dir|..] == ConfigName;
      assert dir != "" ==> r[|r| - |ConfigName| - 1..] == [dir[|dir| - 1]] + ConfigName;
      r
    else
      var r := dir + "/" + ConfigName;
      assert r[|dir|..] == "/" + ConfigName;
      r
  }

  /** The text of the success line of `_save_config` before and after the quoted path. */
  const SavedPrefix: string := "✓ 配置已保存到 '"
  const Quote: string := "'"

  /** The success line of `_save_config` (app.py:415). */
  function SavedLine(configPath: string): string
  {
    SavedPrefix + configPath + Quote
  }

  /** The failure line of `_save_config` (app.py:420). */
  function SaveFailedLine(configPath: string): string
  {
    "✗ 保存配置到 '" + configPath + "' 失败"
  }

  /** The text of the watcher's start line before the path. */
  const WatchingPrefix: string := "开始监控目录: "

  /** The line `Watcher.start` logs once the observer runs (sync_core.py:207). */
  function WatchingLine(dir: string): string
  {
    WatchingPrefix + dir
  }

  /** `c * n` */
  function Repeat(c: char, n: nat): (r: string)
    ensures |r| == n && forall i :: 0 <= i < n ==> r[i] == c
  {
    if n == 0 then "" else [c] + Repeat(c, n - 1)
  }

  /** The banner of `_start_watching` (app.py:449-451): a rule, the started line, a rule. */
  const Rule: string := Repeat('=', 60)
  const StartedLine: string := "🚀 监控已启动！"

  // ---------------------------------------------------------------------
  // Which lines are quiet
  // ---------------------------------------------------------------------

  /** The banner mentions none of the counted words. */
  lemma BannerQuiet()
    ensures Quiet(Rule) && Quiet(StartedLine)
  {
    QuietByChars(Rule);
    QuietByChars(StartedLine);
  }

  /** What follows the directory in the configuration file's path is quiet and starts with '.' or '/'. */
  lemma ConfigTailQuiet(tail: string)
    requires tail == ConfigName || tail == "/" + ConfigName
    ensures Quiet(tail) && tail != [] && tail[0] !in "误败传步"
  {
    QuietByChars(tail);
  }

  /** The configuration file's path mentions a counted word exactly when its directory does. */
  lemma ConfigPathQuiet(dir: string)
    ensures Quiet(ConfigPath(dir)) <==> Quiet(dir)
  {
    var path := ConfigPath(dir);
    var tail := path[|dir|..];
    assert path == dir + tail;
    ConfigTailQuiet(tail);
    if Quiet(dir) {
      QuietConcat(dir, tail);
    } else {
      var i :| 0 <= i < |dir| - 1 && CountedWord(dir[i], dir[i + 1]);
      assert path[i] == dir[i] && path[i + 1] == dir[i + 1];
    }
  }

  /** The saved-configuration line mentions a counted word exactly when the project path does. */
  lemma SavedLineQuiet(dir: string)
    ensures Quiet(SavedLine(ConfigPath(dir))) <==> Quiet(dir)
  {
    QuietByChars(SavedPrefix);
    QuietByChars(Quote);
    ConfigPathQuiet(dir);
    AroundQuiet(SavedPrefix, ConfigPath(dir), Quote);
  }

  /** The watcher's start line mentions a counted word exactly when the project path does. */
  lemma WatchingLineQuiet(dir: string)
    ensures Quiet(WatchingLine(dir)) <==> Quiet(dir)
  {
    QuietByChars(WatchingPrefix);
    QuietByChars([]);
    AroundQuiet(WatchingPrefix, dir, []);
    assert WatchingLine(dir) == WatchingPrefix + dir + [];
  }
}
