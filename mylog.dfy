/**
 * Log set-up of the command-line tool (`initLog` in cmd/mygossh/mygossh.go):
 * the choice of log level from the `-l` flag and the configuration string
 * handed to the file logger, whose backslashes are doubled so that a Windows
 * path survives the logger's JSON parsing.
 */
module MyLog {
  import opened Wrappers

  /** The logger levels `initLog` can select. */
  datatype Level = Debug | Info | Warn | Error

  /** The level for the `-l` flag: the four known names, and `Info` for
      every other value. */
  function LevelOf(flag: string): (l: Level)
    ensures l == Debug <==> flag == "debug"
    ensures l == Error <==> flag == "error"
    ensures l == Warn <==> flag == "warn"
    ensures l == Info <==> flag != "debug" && flag != "error" && flag != "warn"
  {
    match flag
    case "debug" => Debug
    case "error" => Error
    case "info" => Info
    case "warn" => Warn
    case _ => Info
  }

  /** The flag value that names a level. */
  function LevelName(l: Level): string {
    match l
    case Debug => "debug"
    case Info => "info"
    case Warn => "warn"
    case Error => "error"
  }

  /** Every level is selected by its own name. */
  lemma LevelNameSelects(l: Level)
    ensures LevelOf(LevelName(l)) == l
  {
  }

  /** `strings.Replace(s, `\`, `\\`, -1)`: every backslash doubled, every
      other character kept in place. */
  function Escape(s: string): (r: string)
    ensures |r| >= |s|
    ensures '\\' !in s ==> r == s
    decreases |s|
  {
    if s == [] then []
    else (if s[0] == '\\' then "\\\\" else [s[0]]) + Escape(s[1..])
  }

  /** Reference inverse of `Escape`: a doubled backslash stands for one
      backslash; a backslash that is not doubled has no reading. */
  function Unescape(r: string): Option<string>
    decreases |r|
  {
    if r == [] then Some([])
    else if r[0] != '\\' then
      match Unescape(r[1..])
      case Some(t) => Some([r[0]] + t)
      case None => None
    else if |r| >= 2 && r[1] == '\\' then
      match Unescape(r[2..])
      case Some(t) => Some("\\" + t)
      case None => None
    else None
  }

  /** `Unescape` undoes `Escape`, so no two names give the same escaped string. */
  lemma {:induction false} UnescapeEscape(s: string)
    ensures Unescape(Escape(s)) == Some(s)
    decreases |s|
  {
    if s != [] {
      UnescapeEscape(s[1..]);
      var r := Escape(s);
      if s[0] == '\\' {
        assert r[2..] == Escape(s[1..]);
        assert "\\" + s[1..] == s;
      } else {
        assert r[1..] == Escape(s[1..]);
        assert [s[0]] + s[1..] == s;
      }
    }
  }

  /** Every string that has a reading is the escape of that reading. */
  lemma {:induction false} EscapeUnescape(r: string)
    requires Unescape(r).Some?
    ensures Escape(Unescape(r).value) == r
    decreases |r|
  {
    if r != [] {
      var s := Unescape(r).value;
      if r[0] != '\\' {
        EscapeUnescape(r[1..]);
        assert s[1..] == Unescape(r[1..]).value;
        assert r == [r[0]] + r[1..];
      } else {
        EscapeUnescape(r[2..]);
        assert s[1..] == Unescape(r[2..]).value;
        assert r == "\\\\" + r[2..];
      }
    }
  }

  /** Escaping works character by character. */
  lemma {:induction false} EscapeAppend(a: string, b: string)
    ensures Escape(a + b) == Escape(a) + Escape(b)
    decreases |a|
  {
    if a == [] {
      assert a + b == b;
    } else {
      assert (a + b)[0] == a[0];
      assert (a + b)[1..] == a[1..] + b;
      EscapeAppend(a[1..], b);
    }
  }

  const ConfigPrefix: string := "{\"filename\":\""
  const ConfigSuffix: string := "\"}"

  /** The JSON framing has no backslash, so escaping leaves it alone. */
  lemma ConfigFramingKept(logname: string)
    ensures Escape(ConfigPrefix + logname + ConfigSuffix) == ConfigPrefix + Escape(logname) + ConfigSuffix
  {
    assert '\\' !in ConfigPrefix by {
      forall k | 0 <= k < |ConfigPrefix| ensures ConfigPrefix[k] != '\\' { }
    }
    assert '\\' !in ConfigSuffix;
    EscapeAppend(ConfigPrefix + logname, ConfigSuffix);
    EscapeAppend(ConfigPrefix, logname);
  }

  /** The configuration string for the file logger: the JSON text built
      around the log file name, then escaped as a whole. Only the name's
      backslashes are doubled; the JSON around it is unchanged. */
  function LogConfig(logname: string): (r: string)
    ensures r == ConfigPrefix + Escape(logname) + ConfigSuffix
    ensures Unescape(r) == Some(ConfigPrefix + logname + ConfigSuffix)
  {
    var logstring := ConfigPrefix + logname + ConfigSuffix;
    ConfigFramingKept(logname);
    UnescapeEscape(logstring);
    Escape(logstring)
  }

  /** The collaborators `initLog` calls and this model does not see:
      `tools.MakePath`, `filepath.Join` and the logger's `SetLogger`, each
      error given as `Some(message)`. */
  datatype LogEnv = LogEnv(
    makePath: string -> Option<string>,
    join: (string, string) -> string,
    setLogger: (string, string) -> Option<string>)

  const LogFile: string := "mygossh.log"

  /** What `initLog` leaves behind: the level is always set; the file sink is
      configured with `config`, or set-up failed with `err`. */
  datatype LogOutcome = LogReady(level: Level, config: string) | LogFailed(level: Level, err: string)

  /** `initLog(level, logPath)`. */
  function InitLog(levelFlag: string, logPath: string, env: LogEnv): (o: LogOutcome)
    ensures o.level == LevelOf(levelFlag)
    ensures env.makePath(logPath).Some? ==> o == LogFailed(o.level, env.makePath(logPath).value)
    ensures env.makePath(logPath).None? ==>
      var config := LogConfig(env.join(logPath, LogFile));
      match env.setLogger("file", config)
      case Some(e) => o == LogFailed(o.level, e)
      case None => o == LogReady(o.level, config)
  {
    var level := LevelOf(levelFlag);
    match env.makePath(logPath)
    case Some(err) => LogFailed(level, err)
    case None =>
      var logname := env.join(logPath, LogFile);
      var logstring := LogConfig(logname);
      match env.setLogger("file", logstring)
      case Some(err) => LogFailed(level, err)
      case None => LogReady(level, logstring)
  }
}
