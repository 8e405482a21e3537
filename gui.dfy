/**
 * The logic inside the desktop front end (app.py) that is not widget
 * drawing: the configuration form with its placeholder texts, saving the
 * form and starting a watcher from it, the uptime shown in the status bar,
 * and the log handler that counts synced files and errors by reading the
 * log lines.
 */
module Gui {
  import opened Strings
  import opened LogLines

  // ---------------------------------------------------------------------
  // Decimal text, as Python's `str(n)` and `f"{n:02d}"` write integers
  // ---------------------------------------------------------------------

  predicate IsDigit(c: char)
  {
    '0' <= c <= '9'
  }

  function Digit(d: int): (c: char)
    requires 0 <= d < 10
    ensures IsDigit(c)
  {
    (('0' as int) + d) as char
  }

  function DigitValue(c: char): int
  {
    (c as int) - ('0' as int)
  }

  /** The decimal digits of `n`, without leading zeros. */
  function Decimal(n: nat): (r: string)
    ensures |r| >= 1
    ensures forall i :: 0 <= i < |r| ==> IsDigit(r[i])
  {
    if n < 10 then [Digit(n)] else Decimal(n / 10) + [Digit(n % 10)]
  }

  /** Reads a run of decimal digits (leading zeros allowed). */
  function ParseDecimal(s: string): int
  {
    if s == [] then 0 else ParseDecimal(s[..|s| - 1]) * 10 + DigitValue(s[|s| - 1])
  }

  /** Reads an optionally signed decimal integer. */
  function ParseInt(s: string): int
  {
    if |s| > 0 && s[0] == '-' then -ParseDecimal(s[1..]) else ParseDecimal(s)
  }

  lemma {:induction false} DecimalRoundTrip(n: nat)
    ensures ParseDecimal(Decimal(n)) == n
    decreases n
  {
    if n >= 10 {
      var r := Decimal(n);
      assert r[..|r| - 1] == Decimal(n / 10);
      DecimalRoundTrip(n / 10);
    }
  }

  lemma LeadingZero(s: string)
    ensures ParseDecimal("0" + s) == ParseDecimal(s)
    decreases |s|
  {
    if s != [] {
      assert ("0" + s)[..|"0" + s| - 1] == "0" + s[..|s| - 1];
      LeadingZero(s[..|s| - 1]);
    }
  }

  /** Decimal digits, with a minus sign allowed in front. */
  predicate Numeral(r: string)
  {
    forall i :: 0 <= i < |r| ==> IsDigit(r[i]) || (i == 0 && r[i] == '-')
  }

  /** `str(n)`. */
  function IntText(n: int): (r: string)
    ensures ParseInt(r) == n
    ensures Numeral(r) && r != []
    ensures 0 <= n ==> forall i :: 0 <= i < |r| ==> IsDigit(r[i])
  {
    DecimalRoundTrip(if n < 0 then -n else n);
    if n < 0 then "-" + Decimal(-n) else Decimal(n)
  }

  /** `f"{n:02d}"`: at least two characters, zero-padded after any sign. */
  function Pad2(n: int): (r: string)
    ensures ParseInt(r) == n
    ensures |r| >= 2
    ensures Numeral(r)
    ensures 0 <= n ==> forall i :: 0 <= i < |r| ==> IsDigit(r[i])
    ensures 0 <= n < 100 ==> |r| == 2
  {
    var d := Decimal(if n < 0 then -n else n);
    DecimalRoundTrip(if n < 0 then -n else n);
    if n < 0 then "-" + d
    else if n < 10 then
      LeadingZero(d);
      "0" + d
    else d
  }

  // ---------------------------------------------------------------------
  // Uptime in the status bar (app.py:316-331)
  // ---------------------------------------------------------------------

  /** Python's `int(x)` on a float: truncation toward zero. */
  function Truncate(x: real): (r: int)
    ensures x >= 0.0 ==> 0 <= r && r as real <= x < r as real + 1.0
    ensures x < 0.0 ==> r <= 0 && r as real - 1.0 < x <= r as real
  {
    if x >= 0.0 then x.Floor else -((-x).Floor)
  }

  /** Hours, minutes and seconds of an uptime in whole seconds. */
  datatype Clock = Clock(hours: int, minutes: int, seconds: int)

  /**
   * `uptime // 3600`, `(uptime % 3600) // 60`, `uptime % 60`; Python's
   * floor division and Dafny's agree for a positive divisor.
   */
  function SplitUptime(uptime: int): (c: Clock)
    ensures c.hours * 3600 + c.minutes * 60 + c.seconds == uptime
    ensures 0 <= c.minutes < 60 && 0 <= c.seconds < 60
    ensures uptime >= 0 ==> c.hours >= 0
  {
    var rest := uptime % 3600;
    assert rest % 60 == uptime % 60 by {
      assert uptime == (uptime / 3600) * 3600 + rest;
      assert uptime == ((uptime / 3600) * 60 + rest / 60) * 60 + rest % 60;
    }
    Clock(uptime / 3600, rest / 60, uptime % 60)
  }

  /** The decomposition is the only one with minutes and seconds in range. */
  lemma SplitUptimeUnique(uptime: int, c: Clock)
    requires c.hours * 3600 + c.minutes * 60 + c.seconds == uptime
    requires 0 <= c.minutes < 60 && 0 <= c.seconds < 60
    ensures c == SplitUptime(uptime)
  {
    var d := SplitUptime(uptime);
    var x := c.minutes * 60 + c.seconds;
    var y := d.minutes * 60 + d.seconds;
    assert 0 <= x < 3600 && 0 <= y < 3600;
    assert (c.hours - d.hours) * 3600 == y - x;
    assert c.hours == d.hours;
    assert c.minutes * 60 + c.seconds == d.minutes * 60 + d.seconds;
    assert (c.minutes - d.minutes) * 60 == d.seconds - c.seconds;
    assert c.minutes == d.minutes;
  }

  /** A numeral holds no ':' and no '|'. */
  lemma NumeralSeparators(r: string)
    requires Numeral(r)
    ensures ':' !in r && '|' !in r
  {
  }

  /**
   * `f"{hours:02d}:{minutes:02d}:{seconds:02d}"`: three ':'-separated
   * fields that read back as the hours, minutes and seconds, and no '|';
   * eight characters when every field is below 100.
   */
  function ClockText(c: Clock): (r: string)
    ensures var p := Split(r, ':');
            |p| == 3 && ParseInt(p[0]) == c.hours && ParseInt(p[1]) == c.minutes && ParseInt(p[2]) == c.seconds
    ensures '|' !in r
    ensures 0 <= c.hours < 100 && 0 <= c.minutes < 100 && 0 <= c.seconds < 100 ==> |r| == 8
  {
    var h, m, s := Pad2(c.hours), Pad2(c.minutes), Pad2(c.seconds);
    NumeralSeparators(h);
    NumeralSeparators(m);
    NumeralSeparators(s);
    SplitUnique([h, m, s], ':', Join([h, m, s], ':'));
    JoinThree(h, m, s, ':');
    h + ":" + m + ":" + s
  }

  lemma JoinThree(a: string, b: string, c: string, sep: char)
    ensures Join([a, b, c], sep) == a + [sep] + b + [sep] + c
  {
    assert JoinTail([c], sep) == [sep] + c;
    assert JoinTail([b, c], sep) == [sep] + b + [sep] + c;
  }

  /** The status line splits back into its four fields at '|'. */
  lemma StatusLine(synced: string, errors: string, uptime: string)
    requires '|' !in synced && '|' !in errors && '|' !in uptime
    ensures Split("监控中 | 已同步: " + synced + " | 错误: " + errors + " | 运行时长: " + uptime, '|')
            == ["监控中 ", " 已同步: " + synced + " ", " 错误: " + errors + " ", " 运行时长: " + uptime]
  {
    var fields := ["监控中 ", " 已同步: " + synced + " ", " 错误: " + errors + " ", " 运行时长: " + uptime];
    StatusJoin(synced, errors, uptime);
    SplitUnique(fields, '|', Join(fields, '|'));
  }

  /** Joining the status line's four fields with '|' gives the line. */
  lemma StatusJoin(synced: string, errors: string, uptime: string)
    ensures Join(["监控中 ", " 已同步: " + synced + " ", " 错误: " + errors + " ", " 运行时长: " + uptime], '|')
            == "监控中 | 已同步: " + synced + " | 错误: " + errors + " | 运行时长: " + uptime
  {
    var a, b, c, d := "监控中 ", " 已同步: " + synced + " ", " 错误: " + errors + " ", " 运行时长: " + uptime;
    assert JoinTail([d], '|') == "|" + d;
    assert JoinTail([c, d], '|') == "|" + c + "|" + d;
    assert JoinTail([b, c, d], '|') == "|" + b + "|" + c + "|" + d;
    assert Join([a, b, c, d], '|') == a + "|" + b + "|" + c + "|" + d;
    assert "监控中 " + "|" + " 已同步: " == "监控中 | 已同步: ";
    assert a + "|" + b == "监控中 | 已同步: " + synced + " ";
    assert " " + "|" + " 错误: " == " | 错误: ";
    assert a + "|" + b + "|" + c == "监控中 | 已同步: " + synced + " | 错误: " + errors + " ";
    assert " " + "|" + " 运行时长: " == " | 运行时长: ";
  }

  /**
   * The uptime shown for a watcher started at `startTime`, at time `now`:
   * its three fields add back up to the whole seconds elapsed, minutes and
   * seconds below 60.
   */
  function UptimeText(startTime: real, now: real): (r: string)
    ensures var p := Split(r, ':');
            && |p| == 3
            && ParseInt(p[0]) * 3600 + ParseInt(p[1]) * 60 + ParseInt(p[2]) == Truncate(now - startTime)
            && 0 <= ParseInt(p[1]) < 60 && 0 <= ParseInt(p[2]) < 60
    ensures '|' !in r
  {
    ClockText(SplitUptime(Truncate(now - startTime)))
  }

  /** A form field: its name, the entry's text, and whether it is shown in grey. */
  datatype Field = Field(name: string, text: string, gray: bool)

  predicate DistinctNames(form: seq<Field>)
  {
    forall i, j :: 0 <= i < j < |form| ==> form[i].name != form[j].name
  }

  /** The form's fields, in order. */
  const FieldNames: seq<string> := ["host", "port", "username", "password", "remote_dir"]

  /** The prefix that marks an example placeholder rather than a value. */
  const ExamplePrefix: string := "例如:"

  /** The form as it is built (app.py:92-115): each placeholder is inserted, in grey. */
  function InitialForm(): (r: seq<Field>)
    ensures |r| == |FieldNames| && forall i :: 0 <= i < |r| ==> r[i].name == FieldNames[i]
    ensures DistinctNames(r)
    ensures forall i :: 0 <= i < |r| ==> (r[i].gray <==> r[i].text != "")
  {
    [ Field("host", "例如: ftp.example.com", true),
      Field("port", "21", true),
      Field("username", "your_username", true),
      Field("password", "", false),
      Field("remote_dir", "/public_html", true) ]
  }

  // ---------------------------------------------------------------------
  // Placeholder behaviour (app.py:224-234)
  // ---------------------------------------------------------------------

  /** Focus in: the placeholder text is cleared and the entry turns black. */
  function FocusIn(f: Field, placeholder: string): (r: Field)
    ensures r.name == f.name
    ensures r.text == (if f.text == placeholder then "" else f.text)
    ensures f.text != placeholder ==> r == f
  {
    if f.text == placeholder then f.(text := "", gray := false) else f
  }

  /** Focus out: an empty entry gets the placeholder back, in grey. */
  function FocusOut(f: Field, placeholder: string): (r: Field)
    ensures r.name == f.name
    ensures r.text == (if f.text == "" then placeholder else f.text)
    ensures f.text != "" ==> r == f
  {
    if f.text == "" then f.(text := placeholder, gray := true) else f
  }

  /**
   * Focusing in and out without typing gives back the same text exactly
   * when the entry was not empty (an empty entry comes back holding the
   * placeholder), or the placeholder is itself empty.
   */
  lemma FocusInOutRestores(f: Field, placeholder: string)
    ensures FocusOut(FocusIn(f, placeholder), placeholder).text == f.text
            <==> f.text != "" || placeholder == ""
  {
  }

  /** An entry showing its placeholder in grey comes back exactly as it was. */
  lemma PlaceholderSurvivesFocus(f: Field, placeholder: string)
    requires f.text == placeholder && f.gray && placeholder != ""
    ensures FocusOut(FocusIn(f, placeholder), placeholder) == f
  {
  }

  /** Either handler applied twice is the same as applied once. */
  lemma FocusIdempotent(f: Field, placeholder: string)
    ensures FocusIn(FocusIn(f, placeholder), placeholder) == FocusIn(f, placeholder)
    ensures FocusOut(FocusOut(f, placeholder), placeholder) == FocusOut(f, placeholder)
  {
  }

  // ---------------------------------------------------------------------
  // The form filter of `_save_config` and the check of `_start_watching`
  // ---------------------------------------------------------------------

  /** A value is kept when it is non-empty and not an example placeholder. */
  predicate Keep(v: string): (r: bool)
    ensures r ==> v != ""
    ensures v != "" && v[0] != ExamplePrefix[0] ==> r
  {
    v != "" && !StartsWith(v, ExamplePrefix)
  }

  /** No example value is ever kept, whatever follows the prefix. */
  lemma ExamplesNeverKept(rest: string)
    ensures !Keep(ExamplePrefix + rest)
  {
    assert (ExamplePrefix + rest)[..|ExamplePrefix|] == ExamplePrefix;
  }

  /** The configuration the form yields: each kept value under its field's name. */
  function Collected(form: seq<Field>): (r: map<string, string>)
    ensures forall k :: k in r <==> exists i :: 0 <= i < |form| && form[i].name == k && Keep(form[i].text)
    ensures DistinctNames(form) ==>
              forall i :: 0 <= i < |form| && Keep(form[i].text) ==> r[form[i].name] == form[i].text
  {
    if form == [] then map[]
    else
      var init := form[..|form| - 1];
      var last := form[|form| - 1];
      var c := Collected(init);
      assert forall i :: 0 <= i < |init| ==> init[i] == form[i];
      if Keep(last.text) then c[last.name := last.text] else c
  }

  /** Every field holds a value (none empty, none an example): then saving keeps every field, as it is. */
  predicate Complete(form: seq<Field>): (r: bool)
    ensures r ==> Collected(form).Keys == set i | 0 <= i < |form| :: form[i].name
    ensures r && DistinctNames(form) ==> forall i :: 0 <= i < |form| ==> Collected(form)[form[i].name] == form[i].text
  {
    forall i :: 0 <= i < |form| ==> Keep(form[i].text)
  }

  /** Which values of the untouched form count as values. */
  lemma UntouchedFormValues(form: seq<Field>)
    requires form == InitialForm()
    ensures !Keep(form[0].text) && Keep(form[1].text) && Keep(form[2].text)
    ensures !Keep(form[3].text) && Keep(form[4].text)
  {
    assert form[0].text[..|ExamplePrefix|] == ExamplePrefix;
    assert form[1].text[0] != ExamplePrefix[0];
    assert form[2].text[0] != ExamplePrefix[0];
    assert form[4].text[0] != ExamplePrefix[0];
  }

  /**
   * The untouched form is not complete (the host shows an example and the
   * password is empty), yet saving it stores the port, user name and remote
   * directory placeholders as values: only the `例如:` placeholder is skipped.
   */
  lemma UntouchedForm(form: seq<Field>)
    requires form == InitialForm()
    ensures !Complete(form)
    ensures "host" !in Collected(form) && "password" !in Collected(form)
    ensures "port" in Collected(form) && Collected(form)["port"] == "21"
    ensures "username" in Collected(form) && Collected(form)["username"] == "your_username"
    ensures "remote_dir" in Collected(form) && Collected(form)["remote_dir"] == "/public_html"
  {
    UntouchedFormValues(form);
    assert DistinctNames(form);
    var r := Collected(form);
    assert form[1].name == "port" && form[2].name == "username" && form[4].name == "remote_dir";
    assert r[form[1].name] == form[1].text && r[form[2].name] == form[2].text;
    assert r[form[4].name] == form[4].text;
    assert forall i :: 0 <= i < |form| && form[i].name == "host" ==> i == 0;
    assert forall i :: 0 <= i < |form| && form[i].name == "password" ==> i == 3;
  }

  /** The loop of `_save_config` (app.py:407-412) that builds the configuration. */
  method CollectConfig(form: seq<Field>) returns (config: map<string, string>)
    ensures config == Collected(form)
  {
    config := map[];
    for i := 0 to |form|
      invariant config == Collected(form[..i])
    {
      assert form[..i + 1][..i] == form[..i];
      if Keep(form[i].text) {
        config := config[form[i].name := form[i].text];
      }
    }
    assert form[..|form|] == form;
  }

  /** The check loop of `_start_watching` (app.py:429-433): the first field without a value. */
  method FirstIncomplete(form: seq<Field>) returns (missing: Option<string>)
    ensures missing == None <==> Complete(form)
    ensures missing.Some? ==>
              exists i :: 0 <= i < |form| && form[i].name == missing.value && !Keep(form[i].text)
                          && forall j :: 0 <= j < i ==> Keep(form[j].text)
  {
    for i := 0 to |form|
      invariant forall j :: 0 <= j < i ==> Keep(form[j].text)
    {
      if !Keep(form[i].text) {
        return Some(form[i].name);
      }
    }
    return None;
  }

  // ---------------------------------------------------------------------
  // The application state
  // ---------------------------------------------------------------------

  /** `self.stats`: the counters shown to the user and when watching started. */
  datatype Stats = Stats(syncedFiles: int, errors: int, startTime: Option<real>)

  /** A running watcher, with the project directory and configuration it was given. */
  datatype Running = Running(projectPath: string, config: map<string, string>)

  /**
   * The application window's state: the chosen project directory, the
   * form, the configuration last saved, the configuration files written
   * (by project directory), the statistics and the watcher.
   */
  class App {
    var projectPath: string
    var form: seq<Field>
    var ftpConfig: map<string, string>
    var configFiles: map<string, map<string, string>>
    var stats: Stats
    var watcher: Option<Running>

    constructor ()
      ensures projectPath == "" && form == InitialForm() && ftpConfig == map[] && configFiles == map[]
      ensures stats == Stats(0, 0, None) && watcher == None
    {
      projectPath := "";
      form := InitialForm();
      ftpConfig := map[];
      configFiles := map[];
      stats := Stats(0, 0, None);
      watcher := None;
    }

    /**
     * `_on_entry_focus_in` on entry `i`, as bound at app.py:109-115: only
     * entries with a placeholder have the handler, each with its own.
     */
    method OnEntryFocusIn(i: int)
      requires 0 <= i < |form| && i < |FieldNames| && InitialForm()[i].text != ""
      modifies this
      ensures form == old(form)[i := FocusIn(old(form[i]), InitialForm()[i].text)]
      ensures projectPath == old(projectPath) && ftpConfig == old(ftpConfig) && configFiles == old(configFiles)
      ensures stats == old(stats) && watcher == old(watcher)
    {
      form := form[i := FocusIn(form[i], InitialForm()[i].text)];
    }

    /**
     * `_on_entry_focus_out` on entry `i`, as bound at app.py:109-115: only
     * entries with a placeholder have the handler, each with its own.
     */
    method OnEntryFocusOut(i: int)
      requires 0 <= i < |form| && i < |FieldNames| && InitialForm()[i].text != ""
      modifies this
      ensures form == old(form)[i := FocusOut(old(form[i]), InitialForm()[i].text)]
      ensures projectPath == old(projectPath) && ftpConfig == old(ftpConfig) && configFiles == old(configFiles)
      ensures stats == old(stats) && watcher == old(watcher)
    {
      form := form[i := FocusOut(form[i], InitialForm()[i].text)];
    }

    /**
     * `_save_config`. Without a project directory nothing happens; otherwise
     * the kept fields are written to the directory's configuration file
     * (`writeOk` says whether the write succeeded) and, on success, become
     * the current configuration. The line it logs either way reaches the
     * app's own log handler, which counts it as `Emit` does: a failure is
     * one more error, and a success moves a counter only when the project
     * path itself mentions uploading, syncing, an error or a failure.
     */
    method SaveConfig(writeOk: bool) returns (ok: bool)
      modifies this
      ensures ok <==> old(projectPath) != "" && writeOk
      ensures ok ==> ftpConfig == Collected(old(form))
                     && configFiles == old(configFiles)[old(projectPath) := Collected(old(form))]
      ensures !ok ==> ftpConfig == old(ftpConfig) && configFiles == old(configFiles)
      ensures projectPath == old(projectPath) && form == old(form) && watcher == old(watcher)
      ensures old(projectPath) == "" ==> stats == old(stats)
      ensures old(projectPath) != "" && !writeOk ==> stats == old(stats).(errors := old(stats).errors + 1)
      ensures ok ==> stats == AfterSave(old(stats), old(projectPath))
      ensures ok && Quiet(old(projectPath)) ==> stats == old(stats)
    {
      if projectPath == "" {
        return false;
      }
      var config := CollectConfig(form);
      if !writeOk {
        stats := AfterSaveFailed(stats, projectPath);
        return false;
      }
      stats := AfterSave(stats, projectPath);
      configFiles := configFiles[projectPath := config];
      ftpConfig := config;
      ok := true;
    }

    /**
     * `_start_watching` at time `now`: needs a project directory and a
     * complete form, saves it, resets the counters and starts a watcher
     * on the saved configuration. When it does not start, only a failed
     * save changes anything: its error line is counted. After a start the
     * counters hold only what the lines logged since the reset add: the
     * watcher's `开始监控目录` line (sync_core.py:207), which names the
     * project path, and the app's own banner, which counts nothing.
     */
    method StartWatching(now: real, writeOk: bool) returns (started: bool)
      modifies this
      ensures started <==> old(projectPath) != "" && Complete(old(form)) && writeOk
      ensures started ==>
                && ftpConfig == Collected(old(form))
                && configFiles == old(configFiles)[old(projectPath) := ftpConfig]
                && stats == AfterStart(Stats(0, 0, Some(now)), old(projectPath))
                && watcher == Some(Running(old(projectPath), ftpConfig))
      ensures started && Quiet(old(projectPath)) ==> stats == Stats(0, 0, Some(now))
      ensures !started ==>
                && ftpConfig == old(ftpConfig) && configFiles == old(configFiles) && watcher == old(watcher)
                && stats == if old(projectPath) != "" && Complete(old(form))
                            then old(stats).(errors := old(stats).errors + 1)
                            else old(stats)
      ensures projectPath == old(projectPath) && form == old(form)
    {
      started := false;
      if projectPath != "" {
        var missing := FirstIncomplete(form);
        if missing == None {
          started := SaveConfig(writeOk);
          if started {
            Launch(now);
          }
        }
      }
    }

    /** The tail of a successful `_start_watching`: reset the counters and start the watcher. */
    method Launch(now: real)
      modifies this
      ensures stats == AfterStart(Stats(0, 0, Some(now)), projectPath)
      ensures watcher == Some(Running(projectPath, ftpConfig))
      ensures projectPath == old(projectPath) && form == old(form)
      ensures ftpConfig == old(ftpConfig) && configFiles == old(configFiles)
    {
      stats := Stats(0, 0, Some(now));
      watcher := Some(Running(projectPath, ftpConfig));
      stats := AfterStart(stats, projectPath);
    }

    /** Whether the status bar shows a running watcher (both tests are Python truthiness). */
    predicate ShowsUptime()
      reads this
    {
      watcher.Some? && stats.startTime.Some? && stats.startTime.value != 0.0
    }

    /** The status bar text of `_update_status_bar` at time `now`. */
    function StatusBar(now: real): (r: string)
      reads this
      ensures !ShowsUptime() ==> r == "就绪"
      ensures ShowsUptime() ==>
                Split(r, '|') == [ "监控中 ", " 已同步: " + IntText(stats.syncedFiles) + " ",
                                   " 错误: " + IntText(stats.errors) + " ",
                                   " 运行时长: " + UptimeText(stats.startTime.value, now) ]
      ensures ShowsUptime() ==>
                r == "监控中 | 已同步: " + IntText(stats.syncedFiles) + " | 错误: " + IntText(stats.errors)
                     + " | 运行时长: " + UptimeText(stats.startTime.value, now)
    {
      if ShowsUptime() then
        var synced, errors, uptime := IntText(stats.syncedFiles), IntText(stats.errors),
                                      UptimeText(stats.startTime.value, now);
        NumeralSeparators(synced);
        NumeralSeparators(errors);
        StatusLine(synced, errors, uptime);
        "监控中 | 已同步: " + synced + " | 错误: " + errors + " | 运行时长: " + uptime
      else "就绪"
    }
  }

  // ---------------------------------------------------------------------
  // Counting log lines (app.py:531-553)
  // ---------------------------------------------------------------------

  /** Which counter a log record moves. */
  datatype Counted = CountsError | CountsSynced | CountsNothing

  /**
   * Errors first: the level name contains `ERROR` or the message mentions
   * an error (`错误`) or a failure (`失败`); otherwise a message that
   * mentions uploading (`上传`) or syncing (`同步`) counts as a synced file.
   */
  function Classify(levelName: string, msg: string): Counted
  {
    if Contains(levelName, "ERROR") || Mentions(msg, '错', '误') || Mentions(msg, '失', '败') then CountsError
    else if Mentions(msg, '上', '传') || Mentions(msg, '同', '步') then CountsSynced
    else CountsNothing
  }

  /** `Classify` is the handler's chain of `in` tests. */
  lemma ClassifyByWords(levelName: string, msg: string)
    ensures Classify(levelName, msg) == CountsError <==>
              Contains(levelName, "ERROR") || Contains(msg, "错误") || Contains(msg, "失败")
    ensures Classify(levelName, msg) == CountsSynced <==>
              !(Contains(levelName, "ERROR") || Contains(msg, "错误") || Contains(msg, "失败"))
              && (Contains(msg, "上传") || Contains(msg, "同步"))
  {
    ContainsPair(msg, "错误");
    ContainsPair(msg, "失败");
    ContainsPair(msg, "上传");
    ContainsPair(msg, "同步");
  }

  /** The statistics after one record: at most one counter moves, by one. */
  function Count(st: Stats, c: Counted): (r: Stats)
    ensures r.startTime == st.startTime
    ensures r.errors == st.errors + (if c == CountsError then 1 else 0)
    ensures r.syncedFiles == st.syncedFiles + (if c == CountsSynced then 1 else 0)
    ensures (r.errors - st.errors) + (r.syncedFiles - st.syncedFiles) <= 1
  {
    match c
    case CountsError => st.(errors := st.errors + 1)
    case CountsSynced => st.(syncedFiles := st.syncedFiles + 1)
    case CountsNothing => st
  }

  lemma ContainsLiteral(big: string, small: string, i: int)
    requires 0 <= i && i + |small| <= |big| && big[i..i + |small|] == small
    ensures Contains(big, small)
  {
    assert OccursAt(big, small, i);
  }

  /** The level name `WARNING` does not contain `ERROR`. */
  lemma NoWarningIsError()
    ensures !Contains("WARNING", "ERROR")
  {
    var s := "WARNING";
    assert forall i :: 0 <= i < |s| ==> s[i] != 'E';
    assert forall i :: OccursAt(s, "ERROR", i) ==> s[i..i + 5][0] == s[i] == 'E';
  }

  /** A failed upload line (`[上传失败]`) counts as an error, not as a synced file. */
  lemma FailedUploadCountsAsError(levelName: string, msg: string, tag: string)
    requires tag == "[上传失败]"
    requires Contains(msg, tag)
    ensures Classify(levelName, msg) == CountsError
  {
    assert tag[3..5] == "失败";
    ContainsLiteral(tag, "失败", 3);
    ContainsTrans(msg, tag, "失败");
    ClassifyByWords(levelName, msg);
  }

  /** A failed delete counts as an error even when it is only logged as a warning. */
  lemma FailedDeleteWarningCountsAsError(msg: string, tag: string)
    requires tag == "[删除失败]"
    requires Contains(msg, tag)
    ensures Classify("WARNING", msg) == CountsError
  {
    assert tag[3..5] == "失败";
    ContainsLiteral(tag, "失败", 3);
    ContainsTrans(msg, tag, "失败");
    ClassifyByWords("WARNING", msg);
  }

  /**
   * A skipped upload (`[上传跳过]`, the file had vanished) counts as a
   * synced file, since its line mentions uploading and no failure.
   */
  lemma SkippedUploadCountsAsSynced(msg: string, tag: string)
    requires tag == "[上传跳过]"
    requires Contains(msg, tag)
    requires !Contains(msg, "错误") && !Contains(msg, "失败")
    ensures Classify("WARNING", msg) == CountsSynced
  {
    assert tag[1..3] == "上传";
    ContainsLiteral(tag, "上传", 1);
    ContainsTrans(msg, tag, "上传");
    NoWarningIsError();
    ClassifyByWords("WARNING", msg);
  }

  // ---------------------------------------------------------------------
  // Counting the application's own lines (app.py:399-451)
  // ---------------------------------------------------------------------

  /** The level name `INFO` does not contain `ERROR`, so an `INFO` line counts by its words alone. */
  lemma InfoCountsByWords(msg: string)
    ensures Classify("INFO", msg) == CountsNothing <==> Quiet(msg)
  {
    assert forall i :: !OccursAt("INFO", "ERROR", i);
    QuietMentions(msg);
  }

  /** A record at level `ERROR` always counts as an error. */
  lemma ErrorLevelCounts(msg: string)
    ensures Classify("ERROR", msg) == CountsError
  {
    ContainsLiteral("ERROR", "ERROR", 0);
  }

  /** The counters after `_save_config` logs that it saved the configuration of project `dir`. */
  function AfterSave(st: Stats, dir: string): (r: Stats)
    ensures r == Count(st, Classify("INFO", SavedLine(ConfigPath(dir))))
    ensures Quiet(dir) ==> r == st
  {
    SavedLineQuiet(dir);
    InfoCountsByWords(SavedLine(ConfigPath(dir)));
    Count(st, Classify("INFO", SavedLine(ConfigPath(dir))))
  }

  /** The counters after `_save_config` logs that saving the configuration of project `dir` failed. */
  function AfterSaveFailed(st: Stats, dir: string): (r: Stats)
    ensures r == st.(errors := st.errors + 1)
  {
    ErrorLevelCounts(SaveFailedLine(ConfigPath(dir)));
    Count(st, Classify("ERROR", SaveFailedLine(ConfigPath(dir))))
  }

  /**
   * The counters after the lines logged once a watcher on `dir` starts: the
   * watcher's start line, then the banner. Only the start line can count.
   */
  function AfterStart(st: Stats, dir: string): (r: Stats)
    ensures r == Count(st, Classify("INFO", WatchingLine(dir)))
    ensures Quiet(dir) ==> r == st
  {
    WatchingLineQuiet(dir);
    InfoCountsByWords(WatchingLine(dir));
    BannerQuiet();
    InfoCountsByWords(Rule);
    InfoCountsByWords(StartedLine);
    Count(Count(Count(Count(st, Classify("INFO", WatchingLine(dir))),
                      Classify("INFO", Rule)),
                Classify("INFO", StartedLine)),
          Classify("INFO", Rule))
  }

  /** `TextHandler`: appends each record to the log view and counts it in the app. */
  class TextHandler {
    const app: App?
    /** The log view's lines, each with its display tag. */
    var lines: seq<(string, string)>

    constructor (app: App?)
      ensures this.app == app && lines == []
    {
      this.app := app;
      lines := [];
    }

    /**
     * `emit` for a record with level `levelName`, formatted text `msg` and
     * an optional explicit `tag` (the level name stands in otherwise).
     */
    method Emit(levelName: string, msg: string, tag: Option<string>)
      modifies this, app
      ensures lines == old(lines) + [(msg + "\n", if tag.Some? then tag.value else levelName)]
      ensures app != null ==> app.stats == Count(old(app.stats), Classify(levelName, msg))
      ensures app != null ==>
                && app.projectPath == old(app.projectPath) && app.form == old(app.form)
                && app.ftpConfig == old(app.ftpConfig) && app.configFiles == old(app.configFiles)
                && app.watcher == old(app.watcher)
    {
      lines := lines + [(msg + "\n", if tag.Some? then tag.value else levelName)];
      if app != null {
        app.stats := Count(app.stats, Classify(levelName, msg));
      }
    }
  }
}
