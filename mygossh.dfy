/**
 * The decision `main` of cmd/mygossh/mygossh.go takes: from the parsed flags,
 * the verdict of the command safety check and the outcome of the log set-up
 * to the one thing the program then does (print its version or the usage
 * text, stop, refuse a dangerous command, or hand a job to the runner for one
 * host or for the hosts of a list file).
 */
module Mygossh {
  import opened MyLog

  const AppVersion: string := "mygossh 0.7"

  /** Commands `tools.CheckSafe` is asked about (`blackList`). */
  const BlackList: seq<string> :=
    ["rm", "mkfs", "mkfs.ext3", "make.ext2", "make.ext4", "make2fs", "shutdown", "reboot", "init", "dd"]

  /** The parsed command line: the flags `main` reads and the positional
      arguments (`flag.Args()`). */
  datatype Flags = Flags(
    version: bool,        // -version
    args: seq<string>,    // positional arguments
    runType: string,      // -t, default "cmd"
    host: string,         // -h
    port: string,         // -P, default "22"
    user: string,         // -u, default "root"
    password: string,     // -p
    ipFile: string,       // -i, default "ip.txt"
    cons: int,            // -c, default 30
    encrypted: bool,      // -e
    force: bool,          // -f
    serialSafe: bool,     // -s
    logLevel: string,     // -l, default "info"
    logPath: string,      // -logpath, default "./mygossh_log/"
    timeout: int)         // -timeout, default 10

  /** The flags' defaults, as declared with the `flag` package. */
  function DefaultFlags(args: seq<string>): Flags {
    Flags(false, args, "cmd", "", "22", "root", "", "ip.txt", 30, false, false, false,
          "info", "./mygossh_log/", 10)
  }

  /** The arguments of `run.NewUser(*user, *port, *psw, *force, *encFlag)`. */
  datatype RunUser = RunUser(name: string, port: string, password: string, force: bool, encrypted: bool)

  function NewUser(f: Flags): (u: RunUser)
    ensures u.name == f.user && u.port == f.port && u.password == f.password
    ensures u.force == f.force && u.encrypted == f.encrypted
  {
    RunUser(f.user, f.port, f.password, f.force, f.encrypted)
  }

  /** What `main` ends up doing, with the arguments it passes on. The batch
      variants carry the capacity of the channel that bounds concurrency. */
  datatype Plan =
    | Version(text: string)
    | Usage
    | LogInitFailed(err: string)
    | DangerousRejected(cmd: string)
    | SingleRun(host: string, cmd: string, user: RunUser, force: bool, timeout: int)
    | ServersRun(cmd: string, user: RunUser, ipFile: string, cons: int, serialSafe: bool, timeout: int)
    | SinglePush(host: string, src: string, dst: string, user: RunUser, force: bool, timeout: int)
    | ServersPush(src: string, dst: string, user: RunUser, ipFile: string, cons: int, timeout: int)
    | SinglePull(host: string, user: RunUser, src: string, dst: string, force: bool)
    | ServersPull(src: string, dst: string, user: RunUser, ipFile: string, force: bool)
    | MakeChanPanic(size: int)   // make(chan struct{}, n) with n < 0

  /** The plan contacts remote hosts. */
  predicate Remote(p: Plan) {
    p.SingleRun? || p.ServersRun? || p.SinglePush? || p.ServersPush? || p.SinglePull? || p.ServersPull?
  }

  /** The plan is for the one host given with `-h`. */
  predicate Single(p: Plan) {
    p.SingleRun? || p.SinglePush? || p.SinglePull?
  }

  /** The command-line checks before the log is set up: no version request,
      at least one positional argument, a run type and a non-empty first
      argument. */
  predicate WellFormed(f: Flags) {
    !f.version && |f.args| >= 1 && f.runType != "" && f.args[0] != ""
  }

  /** A run type `main` knows, with the number of positional arguments it
      takes: one command for `cmd`, a source and a destination otherwise. */
  predicate Accepted(f: Flags) {
    || (f.runType == "cmd" && |f.args| == 1)
    || ((f.runType == "scp" || f.runType == "push" || f.runType == "pull") && |f.args| == 2)
  }

  /** The runner plans that are handed `*ptimeout`. */
  predicate Timed(p: Plan) {
    p.SingleRun? || p.ServersRun? || p.SinglePush? || p.ServersPush?
  }

  /** The runner plans that are handed `*force`. */
  predicate Forced(p: Plan) {
    p.SingleRun? || p.SinglePush? || p.SinglePull? || p.ServersPull?
  }

  /** The `switch *prunType` of `main`, reached once the log is set up. */
  function Dispatch(f: Flags, checkSafe: (string, seq<string>) -> bool): (p: Plan)
    requires |f.args| >= 1
    ensures f.runType == "cmd" && |f.args| != 1 ==> p == Usage
    ensures (f.runType == "scp" || f.runType == "push" || f.runType == "pull") && |f.args| != 2 ==> p == Usage
    ensures f.runType != "cmd" && f.runType != "scp" && f.runType != "push" && f.runType != "pull" ==> p == Usage
    ensures p.Usage? <==> !Accepted(f)
    ensures p.DangerousRejected? <==>
      f.runType == "cmd" && |f.args| == 1 && !checkSafe(f.args[0], BlackList) && !f.force
    ensures p.DangerousRejected? ==> p.cmd == f.args[0]
    ensures Remote(p) ==> p.user == NewUser(f) && (Single(p) <==> f.host != "")
    ensures Single(p) ==> p.host == f.host
    ensures p.SingleRun? || p.ServersRun? ==>
      f.runType == "cmd" && p.cmd == f.args[0] && (checkSafe(f.args[0], BlackList) || f.force)
    ensures p.ServersRun? ==> p.ipFile == f.ipFile && p.cons == f.cons && p.serialSafe == f.serialSafe
    ensures p.SinglePush? || p.ServersPush? ==>
      (f.runType == "scp" || f.runType == "push") && p.src == f.args[0] && p.dst == f.args[1]
    ensures p.SinglePull? || p.ServersPull? ==>
      f.runType == "pull" && p.src == f.args[1] && p.dst == f.args[0]
    ensures p.ServersPush? ==> p.ipFile == f.ipFile && p.cons == f.cons
    ensures p.ServersPull? ==> p.ipFile == f.ipFile
    ensures p.MakeChanPanic? <==>
      && f.host == "" && f.cons < 0
      && ((f.runType == "cmd" && |f.args| == 1 && (checkSafe(f.args[0], BlackList) || f.force))
          || ((f.runType == "scp" || f.runType == "push") && |f.args| == 2))
    ensures p.MakeChanPanic? ==> p.size == f.cons
    ensures Timed(p) ==> p.timeout == f.timeout
    ensures Forced(p) ==> p.force == f.force
    ensures !p.Version? && !p.LogInitFailed?
  {
    var puser := NewUser(f);
    match f.runType
    case "cmd" =>
      if |f.args| != 1 then Usage
      else
        var cmd := f.args[0];
        if !checkSafe(cmd, BlackList) && !f.force then DangerousRejected(cmd)
        else if f.host != "" then SingleRun(f.host, cmd, puser, f.force, f.timeout)
        else if f.cons < 0 then MakeChanPanic(f.cons)
        else ServersRun(cmd, puser, f.ipFile, f.cons, f.serialSafe, f.timeout)
    case "scp" => Push(f, puser)
    case "push" => Push(f, puser)
    case "pull" =>
      if |f.args| != 2 then Usage
      else
        var src := f.args[1];
        var dst := f.args[0];
        if f.host != "" then SinglePull(f.host, puser, src, dst, f.force)
        else ServersPull(src, dst, puser, f.ipFile, f.force)
    case _ => Usage
  }

  /** The shared branch of `case "scp", "push"`: the local source and the
      remote destination in the order given. */
  function Push(f: Flags, puser: RunUser): (p: Plan)
    ensures p.Usage? <==> |f.args| != 2
    ensures p.SinglePush? <==> |f.args| == 2 && f.host != ""
    ensures p.MakeChanPanic? <==> |f.args| == 2 && f.host == "" && f.cons < 0
    ensures p.ServersPush? <==> |f.args| == 2 && f.host == "" && f.cons >= 0
    ensures p.SinglePush? ==> p == SinglePush(f.host, f.args[0], f.args[1], puser, f.force, f.timeout)
    ensures p.ServersPush? ==> p == ServersPush(f.args[0], f.args[1], puser, f.ipFile, f.cons, f.timeout)
    ensures p.MakeChanPanic? ==> p.size == f.cons
  {
    if |f.args| != 2 then Usage
    else
      var src := f.args[0];
      var dst := f.args[1];
      if f.host != "" then SinglePush(f.host, src, dst, puser, f.force, f.timeout)
      else if f.cons < 0 then MakeChanPanic(f.cons)
      else ServersPush(src, dst, puser, f.ipFile, f.cons, f.timeout)
  }

  /** `main`. `checkSafe` stands for `tools.CheckSafe`, `logEnv` for what
      `initLog` calls. */
  function Main(f: Flags, checkSafe: (string, seq<string>) -> bool, logEnv: LogEnv): (p: Plan)
    ensures f.version ==> p == Version(AppVersion)
    ensures !f.version && (|f.args| < 1 || f.runType == "" || f.args[0] == "") ==> p == Usage
    ensures p.LogInitFailed? <==> WellFormed(f) && InitLog(f.logLevel, f.logPath, logEnv).LogFailed?
    ensures p.LogInitFailed? ==> p.err == InitLog(f.logLevel, f.logPath, logEnv).err
    ensures Remote(p) || p.DangerousRejected? || p.MakeChanPanic? ==>
      WellFormed(f) && InitLog(f.logLevel, f.logPath, logEnv).LogReady?
    ensures WellFormed(f) && InitLog(f.logLevel, f.logPath, logEnv).LogReady? ==> p == Dispatch(f, checkSafe)
  {
    if f.version then Version(AppVersion)
    else if |f.args| < 1 then Usage
    else if f.runType == "" || f.args[0] == "" then Usage
    else
      match InitLog(f.logLevel, f.logPath, logEnv)
      case LogFailed(_, err) => LogInitFailed(err)
      case LogReady(_, _) => Dispatch(f, checkSafe)
  }

  /** `-t scp` and `-t push` are the same mode. */
  lemma ScpIsPush(f: Flags, checkSafe: (string, seq<string>) -> bool, logEnv: LogEnv)
    requires f.runType == "scp"
    ensures Main(f, checkSafe, logEnv) == Main(f.(runType := "push"), checkSafe, logEnv)
  {
  }

  /** Only `cmd` mode asks the safety check: for every other run type the
      plan is the same whatever `tools.CheckSafe` answers. */
  lemma OnlyCmdIsChecked(f: Flags, safe1: (string, seq<string>) -> bool, safe2: (string, seq<string>) -> bool,
                         logEnv: LogEnv)
    requires f.runType != "cmd"
    ensures Main(f, safe1, logEnv) == Main(f, safe2, logEnv)
  {
  }

  /** With `-f`, an unsafe command is run like a safe one. */
  lemma ForceOverridesCheck(f: Flags, checkSafe: (string, seq<string>) -> bool, logEnv: LogEnv)
    requires f.force
    ensures Main(f, checkSafe, logEnv) == Main(f, (c, b) => true, logEnv)
  {
  }

  /** Every accepted job the safety check lets through is handed to a
      runner, unless a negative `-c` makes the channel allocation panic. */
  lemma AcceptedJobRuns(f: Flags, checkSafe: (string, seq<string>) -> bool)
    requires Accepted(f)
    requires f.runType == "cmd" ==> checkSafe(f.args[0], BlackList) || f.force
    requires f.host != "" || f.cons >= 0 || f.runType == "pull"
    ensures Remote(Dispatch(f, checkSafe))
  {
  }

  /** With every flag at its default and one command the check lets
      through, `mygossh <cmd>` runs it as root on port 22 on the hosts of
      ip.txt, thirty at a time, with a ten-second timeout. */
  lemma DefaultsRunOnServers(cmd: string, checkSafe: (string, seq<string>) -> bool, logEnv: LogEnv)
    requires cmd != "" && checkSafe(cmd, BlackList)
    requires InitLog("info", "./mygossh_log/", logEnv).LogReady?
    ensures Main(DefaultFlags([cmd]), checkSafe, logEnv)
         == ServersRun(cmd, RunUser("root", "22", "", false, false), "ip.txt", 30, false, 10)
  {
  }
}
