/** The pg_ctl wrapper: one method per subcommand, each building the exact
    argument string and handing it to `Execute`. `Execute` is modelled by the
    invocation it would make: the executable's directory and file name, the
    argument string and the optional password, appended to `log`. */
module Control {
  import opened Wrappers
  import opened Decimal
  import opened CommandLine

  datatype ShutdownMode = Smart | Fast | Immediate

  datatype StartType = Auto | Demand

  /** One pg_ctl subcommand and its parameters; `None` stands for a null reference. */
  datatype Command =
    | Init(dataDirectory: string, options: Option<string>)
    | Start(dataDirectory: string, logFile: Option<string>)
    | Stop(dataDirectory: string, mode: ShutdownMode)
    | Restart(dataDirectory: string, mode: ShutdownMode)
    | Reload(dataDirectory: string)
    | Status(dataDirectory: string)
    | Promote(dataDirectory: string)
    | Kill(processId: Int32)
    | Register(serviceName: string, userName: string, password: string, dataDirectory: string, startType: StartType)
    | UnRegister(serviceName: string)

  /** One call of `Execute`. */
  datatype Invocation = Invocation(workingDirectory: string, executableFilename: string, arguments: string, password: Option<string>)

  function ModeLetter(m: ShutdownMode): string {
    match m
    case Smart => "s"
    case Fast => "f"
    case Immediate => "i"
  }

  function StartTypeLetter(t: StartType): string {
    match t
    case Auto => "a"
    case Demand => "d"
  }

  /** A value wrapped in single quotes. */
  function SingleQuoted(x: string): string {
    "'" + x + "'"
  }

  /** `flag 'value'` when the value is present, nothing otherwise. */
  function OptionalArgs(flag: string, value: Option<string>): seq<Arg> {
    match value
    case None => []
    case Some(x) => [Bare(flag), Bare(SingleQuoted(x))]
  }

  /** The arguments pg_ctl receives for each subcommand. */
  function CommandArgs(c: Command): seq<Arg> {
    match c
    case Init(dir, options) => [Bare("init"), Bare("-D"), Bare(dir)] + OptionalArgs("-o", options)
    case Start(dir, logFile) => [Bare("start"), Bare("-D"), Bare(dir)] + OptionalArgs("-l", logFile)
    case Stop(dir, mode) => [Bare("stop"), Bare("-D"), Bare(dir), Bare("-m"), Bare(ModeLetter(mode))]
    case Restart(dir, mode) => [Bare("restart"), Bare("-D"), Bare(dir), Bare("-m"), Bare(ModeLetter(mode))]
    case Reload(dir) => [Bare("reload"), Bare("-D"), Bare(dir)]
    case Status(dir) => [Bare("status"), Bare("-D"), Bare(dir)]
    case Promote(dir) => [Bare("promote"), Bare("-D"), Bare(dir)]
    case Kill(pid) => [Bare("kill"), Bare(IntToString(pid))]
    case Register(svc, user, pass, dir, st) =>
      [Bare("register"), Bare("-N"), Bare(svc), Bare("-U"), Bare(user), Bare("-P"), Bare(pass),
       Bare("-D"), Bare(dir), Bare("-S"), Bare(StartTypeLetter(st))]
    case UnRegister(svc) => [Bare("unregister"), Bare("-N"), Bare(svc)]
  }

  /** The argument string of a subcommand. */
  function ControlLine(c: Command): string {
    Join(CommandArgs(c))
  }

  class PgCtrl {
    var executablePath: string
    var executableFilename: string
    /** Every invocation made so far, oldest first. */
    var log: seq<Invocation>

    constructor (executablePath: string)
      ensures this.executablePath == executablePath
      ensures executableFilename == "pg_ctrl.exe"
      ensures log == []
    {
      this.executablePath := executablePath;
      executableFilename := "pg_ctrl.exe";
      log := [];
    }

    /** Runs the executable with the given arguments; process handling is not modelled. */
    method Execute(arguments: string, password: Option<string> := None)
      modifies this`log
      ensures log == old(log) + [Invocation(executablePath, executableFilename, arguments, password)]
    {
      log := log + [Invocation(executablePath, executableFilename, arguments, password)];
    }

    method Initialize(dataDirectory: string, options: Option<string> := None)
      modifies this`log
      ensures log == old(log) + [Invocation(executablePath, executableFilename,
                                            ControlLine(Command.Init(dataDirectory, options)), None)]
    {
      var arguments := " init";
      arguments := arguments + (" -D " + dataDirectory);
      if options.Some? {
        arguments := arguments + (" -o '" + options.value + "'");
      }
      InitLine(dataDirectory, options);
      Execute(arguments);
    }

    method Start(dataDirectory: string, filename: Option<string> := None)
      modifies this`log
      ensures log == old(log) + [Invocation(executablePath, executableFilename,
                                            ControlLine(Command.Start(dataDirectory, filename)), None)]
    {
      var arguments := " start";
      arguments := arguments + (" -D " + dataDirectory);
      if filename.Some? {
        arguments := arguments + (" -l '" + filename.value + "'");
      }
      StartLine(dataDirectory, filename);
      Execute(arguments);
    }

    method Stop(dataDirectory: string, shutdownMode: ShutdownMode := Smart)
      modifies this`log
      ensures log == old(log) + [Invocation(executablePath, executableFilename,
                                            ControlLine(Command.Stop(dataDirectory, shutdownMode)), None)]
    {
      var arguments := " stop";
      arguments := arguments + (" -D " + dataDirectory);
      ghost var prefix := arguments;
      match shutdownMode {
        case Fast => arguments := arguments + " -m f";
        case Immediate => arguments := arguments + " -m i";
        case Smart => arguments := arguments + " -m s";
      }
      assert arguments == prefix + (" -m " + ModeLetter(shutdownMode));
      StopLine(dataDirectory, shutdownMode);
      Execute(arguments);
    }

    method Restart(dataDirectory: string, shutdownMode: ShutdownMode := Smart)
      modifies this`log
      ensures log == old(log) + [Invocation(executablePath, executableFilename,
                                            ControlLine(Command.Restart(dataDirectory, shutdownMode)), None)]
    {
      var arguments := " restart";
      arguments := arguments + (" -D " + dataDirectory);
      ghost var prefix := arguments;
      match shutdownMode {
        case Fast => arguments := arguments + " -m f";
        case Immediate => arguments := arguments + " -m i";
        case Smart => arguments := arguments + " -m s";
      }
      assert arguments == prefix + (" -m " + ModeLetter(shutdownMode));
      RestartLine(dataDirectory, shutdownMode);
      Execute(arguments);
    }

    method Reload(dataDirectory: string)
      modifies this`log
      ensures log == old(log) + [Invocation(executablePath, executableFilename,
                                            ControlLine(Command.Reload(dataDirectory)), None)]
    {
      var arguments := " reload";
      arguments := arguments + (" -D " + dataDirectory);
      ReloadLine(dataDirectory);
      Execute(arguments);
    }

    method Status(dataDirectory: string)
      modifies this`log
      ensures log == old(log) + [Invocation(executablePath, executableFilename,
                                            ControlLine(Command.Status(dataDirectory)), None)]
    {
      var arguments := " status";
      arguments := arguments + (" -D " + dataDirectory);
      StatusLine(dataDirectory);
      Execute(arguments);
    }

    method Promote(dataDirectory: string)
      modifies this`log
      ensures log == old(log) + [Invocation(executablePath, executableFilename,
                                            ControlLine(Command.Promote(dataDirectory)), None)]
    {
      var arguments := " promote";
      arguments := arguments + (" -D " + dataDirectory);
      PromoteLine(dataDirectory);
      Execute(arguments);
    }

    method Kill(processId: Int32)
      modifies this`log
      ensures log == old(log) + [Invocation(executablePath, executableFilename,
                                            ControlLine(Command.Kill(processId)), None)]
    {
      var arguments := " kill";
      arguments := arguments + (" " + IntToString(processId));
      KillLine(processId);
      Execute(arguments);
    }

    method Register(serviceName: string, userName: string, password: string, dataDirectory: string,
                    startType: StartType := Auto)
      modifies this`log
      ensures log == old(log) + [Invocation(executablePath, executableFilename,
                                            ControlLine(Command.Register(serviceName, userName, password, dataDirectory, startType)), None)]
    {
      var arguments := " register";
      arguments := arguments + (" -N " + serviceName);
      arguments := arguments + (" -U " + userName);
      arguments := arguments + (" -P " + password);
      arguments := arguments + (" -D " + dataDirectory);
      ghost var prefix := arguments;
      match startType {
        case Auto => arguments := arguments + " -S a";
        case Demand => arguments := arguments + " -S d";
      }
      assert arguments == prefix + (" -S " + StartTypeLetter(startType));
      RegisterLine(serviceName, userName, password, dataDirectory, startType);
      Execute(arguments);
    }

    method UnRegister(serviceName: string)
      modifies this`log
      ensures log == old(log) + [Invocation(executablePath, executableFilename,
                                            ControlLine(Command.UnRegister(serviceName)), None)]
    {
      var arguments := " unregister";
      arguments := arguments + (" -N " + serviceName);
      UnRegisterLine(serviceName);
      Execute(arguments);
    }
  }

  // The argument strings in the form the wrapper appends them

  /** `flag value` as one appended piece. */
  lemma FlagSegment(flag: string, value: string)
    ensures Join([Bare(flag), Bare(value)]) == " " + flag + " " + value
  {
    JoinTwo(Bare(flag), Bare(value));
  }

  /** `flag 'value'` as one appended piece, when the value is present. */
  lemma OptionalSegment(flag: string, value: Option<string>)
    ensures Join(OptionalArgs(flag, value)) ==
      if value.Some? then " " + flag + " '" + value.value + "'" else ""
  {
    if value.Some? {
      var x := value.value;
      FlagSegment(flag, SingleQuoted(x));
      Assoc(" " + flag + " ", "'" + x, "'");
      Assoc(" " + flag + " ", "'", x);
    }
  }

  /** A verb followed by one flag and its value. */
  lemma VerbSegment(verb: string, flag: string, value: string)
    ensures Join([Bare(verb), Bare(flag), Bare(value)]) == " " + verb + (" " + flag + " " + value)
  {
    assert [Bare(verb), Bare(flag), Bare(value)] == [Bare(verb)] + [Bare(flag), Bare(value)];
    JoinAppend([Bare(verb)], [Bare(flag), Bare(value)]);
    JoinOne(Bare(verb));
    FlagSegment(flag, value);
  }

  lemma InitLine(dir: string, options: Option<string>)
    ensures options.None? ==> ControlLine(Command.Init(dir, options)) == " init" + (" -D " + dir)
    ensures options.Some? ==>
              ControlLine(Command.Init(dir, options)) == " init" + (" -D " + dir) + (" -o '" + options.value + "'")
  {
    assert " " + "init" == " init";
    assert " " + "-D" + " " == " -D ";
    assert " " + "-o" + " '" == " -o '";
    VerbSegment("init", "-D", dir);
    JoinAppend([Bare("init"), Bare("-D"), Bare(dir)], OptionalArgs("-o", options));
    OptionalSegment("-o", options);
    if options.None? {
      assert CommandArgs(Command.Init(dir, options)) == [Bare("init"), Bare("-D"), Bare(dir)];
    }
  }

  lemma StartLine(dir: string, logFile: Option<string>)
    ensures logFile.None? ==> ControlLine(Command.Start(dir, logFile)) == " start" + (" -D " + dir)
    ensures logFile.Some? ==>
              ControlLine(Command.Start(dir, logFile)) == " start" + (" -D " + dir) + (" -l '" + logFile.value + "'")
  {
    assert " " + "start" == " start";
    assert " " + "-D" + " " == " -D ";
    assert " " + "-l" + " '" == " -l '";
    VerbSegment("start", "-D", dir);
    JoinAppend([Bare("start"), Bare("-D"), Bare(dir)], OptionalArgs("-l", logFile));
    OptionalSegment("-l", logFile);
    if logFile.None? {
      assert CommandArgs(Command.Start(dir, logFile)) == [Bare("start"), Bare("-D"), Bare(dir)];
    }
  }

  lemma ModeLine(verb: string, dir: string, mode: ShutdownMode)
    ensures Join([Bare(verb), Bare("-D"), Bare(dir), Bare("-m"), Bare(ModeLetter(mode))]) ==
      " " + verb + (" -D " + dir) + (" -m " + ModeLetter(mode))
  {
    var head := [Bare(verb), Bare("-D"), Bare(dir)];
    var tail := [Bare("-m"), Bare(ModeLetter(mode))];
    assert head + tail == [Bare(verb), Bare("-D"), Bare(dir), Bare("-m"), Bare(ModeLetter(mode))];
    JoinAppend(head, tail);
    VerbSegment(verb, "-D", dir);
    FlagSegment("-m", ModeLetter(mode));
  }

  lemma StopLine(dir: string, mode: ShutdownMode)
    ensures ControlLine(Command.Stop(dir, mode)) == " stop" + (" -D " + dir) + (" -m " + ModeLetter(mode))
  {
    ModeLine("stop", dir, mode);
  }

  lemma RestartLine(dir: string, mode: ShutdownMode)
    ensures ControlLine(Command.Restart(dir, mode)) == " restart" + (" -D " + dir) + (" -m " + ModeLetter(mode))
  {
    ModeLine("restart", dir, mode);
  }

  lemma KillLine(pid: Int32)
    ensures ControlLine(Command.Kill(pid)) == " kill" + (" " + IntToString(pid))
  {
    JoinTwo(Bare("kill"), Bare(IntToString(pid)));
    Assoc(" kill", " ", IntToString(pid));
  }

  lemma RegisterHead(svc: string, user: string, pass: string)
    ensures Join([Bare("register"), Bare("-N"), Bare(svc), Bare("-U"), Bare(user), Bare("-P"), Bare(pass)]) ==
      " register" + (" -N " + svc) + (" -U " + user) + (" -P " + pass)
  {
    var a := [Bare("register"), Bare("-N"), Bare(svc)];
    var b := [Bare("-U"), Bare(user)];
    var c := [Bare("-P"), Bare(pass)];
    assert a + b + c == [Bare("register"), Bare("-N"), Bare(svc), Bare("-U"), Bare(user), Bare("-P"), Bare(pass)];
    JoinAppend(a + b, c);
    JoinAppend(a, b);
    VerbSegment("register", "-N", svc);
    FlagSegment("-U", user);
    FlagSegment("-P", pass);
    assert " " + "register" == " register";
    assert " " + "-N" + " " == " -N ";
    assert " " + "-U" + " " == " -U ";
    assert " " + "-P" + " " == " -P ";
  }

  lemma RegisterLine(svc: string, user: string, pass: string, dir: string, st: StartType)
    ensures ControlLine(Command.Register(svc, user, pass, dir, st)) ==
      " register" + (" -N " + svc) + (" -U " + user) + (" -P " + pass) + (" -D " + dir)
      + (" -S " + StartTypeLetter(st))
  {
    var h := [Bare("register"), Bare("-N"), Bare(svc), Bare("-U"), Bare(user), Bare("-P"), Bare(pass)];
    var d := [Bare("-D"), Bare(dir)];
    var e := [Bare("-S"), Bare(StartTypeLetter(st))];
    assert " " + "-D" + " " == " -D ";
    assert " " + "-S" + " " == " -S ";
    assert CommandArgs(Command.Register(svc, user, pass, dir, st)) == h + d + e;
    JoinAppend(h + d, e);
    JoinAppend(h, d);
    RegisterHead(svc, user, pass);
    FlagSegment("-D", dir);
    FlagSegment("-S", StartTypeLetter(st));
  }

  lemma UnRegisterLine(svc: string)
    ensures ControlLine(Command.UnRegister(svc)) == " unregister" + (" -N " + svc)
  {
    VerbSegment("unregister", "-N", svc);
  }

  lemma ReloadLine(dir: string)
    ensures ControlLine(Command.Reload(dir)) == " reload" + (" -D " + dir)
  {
    VerbSegment("reload", "-D", dir);
  }

  lemma StatusLine(dir: string)
    ensures ControlLine(Command.Status(dir)) == " status" + (" -D " + dir)
  {
    VerbSegment("status", "-D", dir);
  }

  lemma PromoteLine(dir: string)
    ensures ControlLine(Command.Promote(dir)) == " promote" + (" -D " + dir)
  {
    VerbSegment("promote", "-D", dir);
  }

  /** A fast shutdown of the cluster in `dir`. */
  lemma StopFastLine(dir: string)
    ensures ControlLine(Command.Stop(dir, Fast)) == " stop -D " + dir + " -m f"
  {
    StopLine(dir, Fast);
    Assoc(" stop", " -D ", dir);
  }

  // Reading the argument string back

  /** Values that survive splitting: single words, and an optional value that
      has no space and no double quote. */
  predicate OptionalBare(value: Option<string>) {
    value.Some? ==> IsBare(SingleQuoted(value.value))
  }

  predicate WellFormed(c: Command) {
    match c
    case Init(dir, options) => IsBare(dir) && OptionalBare(options)
    case Start(dir, logFile) => IsBare(dir) && OptionalBare(logFile)
    case Stop(dir, _) => IsBare(dir)
    case Restart(dir, _) => IsBare(dir)
    case Reload(dir) => IsBare(dir)
    case Status(dir) => IsBare(dir)
    case Promote(dir) => IsBare(dir)
    case Kill(_) => true
    case Register(svc, user, pass, dir, _) => IsBare(svc) && IsBare(user) && IsBare(pass) && IsBare(dir)
    case UnRegister(svc) => IsBare(svc)
  }

  function Unquote(t: string): (r: Option<string>)
    ensures r.Some? ==> SingleQuoted(r.value) == t
  {
    if |t| >= 2 && t[0] == '\'' && t[|t| - 1] == '\'' then Some(t[1..|t| - 1]) else None
  }

  function ParseMode(t: string): (r: Option<ShutdownMode>)
    ensures r.Some? ==> ModeLetter(r.value) == t
  {
    if t == "s" then Some(Smart) else if t == "f" then Some(Fast) else if t == "i" then Some(Immediate) else None
  }

  function ParseStartType(t: string): (r: Option<StartType>)
    ensures r.Some? ==> StartTypeLetter(r.value) == t
  {
    if t == "a" then Some(Auto) else if t == "d" then Some(Demand) else None
  }

  /** Reads nothing as `None`, or `flag 'value'` as the value. */
  function ParseOptional(flag: string, t: seq<string>): Option<Option<string>> {
    if t == [] then Some(None)
    else if |t| == 2 && t[0] == flag && Unquote(t[1]).Some? then Some(Some(Unquote(t[1]).value))
    else None
  }

  /** Reads pg_ctl arguments back into the subcommand they came from. */
  function ParseCommand(t: seq<string>): Option<Command> {
    if |t| >= 3 && t[0] == "init" && t[1] == "-D" then
      match ParseOptional("-o", t[3..])
      case None => None
      case Some(options) => Some(Command.Init(t[2], options))
    else if |t| >= 3 && t[0] == "start" && t[1] == "-D" then
      match ParseOptional("-l", t[3..])
      case None => None
      case Some(logFile) => Some(Command.Start(t[2], logFile))
    else if |t| == 5 && t[0] == "stop" && t[1] == "-D" && t[3] == "-m" && ParseMode(t[4]).Some? then
      Some(Command.Stop(t[2], ParseMode(t[4]).value))
    else if |t| == 5 && t[0] == "restart" && t[1] == "-D" && t[3] == "-m" && ParseMode(t[4]).Some? then
      Some(Command.Restart(t[2], ParseMode(t[4]).value))
    else if |t| == 3 && t[0] == "reload" && t[1] == "-D" then Some(Command.Reload(t[2]))
    else if |t| == 3 && t[0] == "status" && t[1] == "-D" then Some(Command.Status(t[2]))
    else if |t| == 3 && t[0] == "promote" && t[1] == "-D" then Some(Command.Promote(t[2]))
    else if |t| == 2 && t[0] == "kill" && ParseInt(t[1]).Some?
         && -0x8000_0000 <= ParseInt(t[1]).value < 0x8000_0000 then
      Some(Command.Kill(ParseInt(t[1]).value as Int32))
    else if |t| == 11 && t[0] == "register" && t[1] == "-N" && t[3] == "-U" && t[5] == "-P"
         && t[7] == "-D" && t[9] == "-S" && ParseStartType(t[10]).Some? then
      Some(Command.Register(t[2], t[4], t[6], t[8], ParseStartType(t[10]).value))
    else if |t| == 3 && t[0] == "unregister" && t[1] == "-N" then Some(Command.UnRegister(t[2]))
    else None
  }

  lemma UnquoteSingleQuoted(x: string)
    ensures Unquote(SingleQuoted(x)) == Some(x)
  {
    var t := SingleQuoted(x);
    assert t[1..|t| - 1] == x;
  }

  lemma ParseOptionalValues(flag: string, value: Option<string>)
    ensures ParseOptional(flag, Values(OptionalArgs(flag, value))) == Some(value)
  {
    if value.Some? {
      UnquoteSingleQuoted(value.value);
    }
  }

  lemma OptionalArgsSplittable(flag: string, value: Option<string>)
    requires IsBare(flag) && OptionalBare(value)
    ensures AllSplittable(OptionalArgs(flag, value))
  {
  }

  lemma DirectoryArgsSplittable(verb: string, flag: string, dir: string)
    requires IsBare(verb) && IsBare(flag) && IsBare(dir)
    ensures AllSplittable([Bare(verb), Bare(flag), Bare(dir)])
  {
  }

  lemma OptionalCommandSplittable(verb: string, dir: string, flag: string, value: Option<string>)
    requires IsBare(verb) && IsBare(dir) && IsBare(flag) && OptionalBare(value)
    ensures AllSplittable([Bare(verb), Bare("-D"), Bare(dir)] + OptionalArgs(flag, value))
  {
    assert IsBare("-D");
    DirectoryArgsSplittable(verb, "-D", dir);
    OptionalArgsSplittable(flag, value);
    AllSplittableAppend([Bare(verb), Bare("-D"), Bare(dir)], OptionalArgs(flag, value));
  }

  lemma ModeArgsSplittable(verb: string, dir: string, mode: ShutdownMode)
    requires IsBare(verb) && IsBare(dir)
    ensures AllSplittable([Bare(verb), Bare("-D"), Bare(dir), Bare("-m"), Bare(ModeLetter(mode))])
  {
    assert IsBare("-D") && IsBare("-m") && IsBare(ModeLetter(mode));
  }

  lemma RegisterArgsSplittable(svc: string, user: string, pass: string, dir: string, st: StartType)
    requires WellFormed(Command.Register(svc, user, pass, dir, st))
    ensures AllSplittable(CommandArgs(Command.Register(svc, user, pass, dir, st)))
  {
    assert IsBare("register") && IsBare("-N") && IsBare("-U") && IsBare("-P") && IsBare("-D") && IsBare("-S");
    assert IsBare(StartTypeLetter(st));
  }

  lemma CommandArgsSplittable(c: Command)
    requires WellFormed(c)
    ensures AllSplittable(CommandArgs(c))
  {
    match c
    case Init(dir, options) => OptionalCommandSplittable("init", dir, "-o", options);
    case Start(dir, logFile) => OptionalCommandSplittable("start", dir, "-l", logFile);
    case Stop(dir, mode) => ModeArgsSplittable("stop", dir, mode);
    case Restart(dir, mode) => ModeArgsSplittable("restart", dir, mode);
    case Reload(dir) => DirectoryArgsSplittable("reload", "-D", dir);
    case Status(dir) => DirectoryArgsSplittable("status", "-D", dir);
    case Promote(dir) => DirectoryArgsSplittable("promote", "-D", dir);
    case Kill(pid) => assert IsBare("kill") && IsBare(IntToString(pid));
    case Register(svc, user, pass, dir, st) => RegisterArgsSplittable(svc, user, pass, dir, st);
    case UnRegister(svc) => DirectoryArgsSplittable("unregister", "-N", svc);
  }

  /** The texts pg_ctl receives for a well-formed subcommand. */
  lemma ControlArgv(c: Command)
    requires WellFormed(c)
    ensures Argv(ControlLine(c)) == Values(CommandArgs(c))
  {
    var args := CommandArgs(c);
    CommandArgsSplittable(c);
    ArgvJoin(args, "");
    assert Join(args) + "" == Join(args);
  }

  lemma InitValuesParse(dir: string, options: Option<string>)
    ensures ParseCommand(Values(CommandArgs(Command.Init(dir, options)))) == Some(Command.Init(dir, options))
  {
    var t := Values(CommandArgs(Command.Init(dir, options)));
    ValuesAppend([Bare("init"), Bare("-D"), Bare(dir)], OptionalArgs("-o", options));
    assert t[..3] == ["init", "-D", dir];
    assert t[3..] == Values(OptionalArgs("-o", options));
    ParseOptionalValues("-o", options);
  }

  lemma StartValuesParse(dir: string, logFile: Option<string>)
    ensures ParseCommand(Values(CommandArgs(Command.Start(dir, logFile)))) == Some(Command.Start(dir, logFile))
  {
    var t := Values(CommandArgs(Command.Start(dir, logFile)));
    ValuesAppend([Bare("start"), Bare("-D"), Bare(dir)], OptionalArgs("-l", logFile));
    assert t[..3] == ["start", "-D", dir];
    assert t[3..] == Values(OptionalArgs("-l", logFile));
    ParseOptionalValues("-l", logFile);
  }

  lemma StopValuesParse(dir: string, mode: ShutdownMode)
    ensures ParseCommand(Values(CommandArgs(Command.Stop(dir, mode)))) == Some(Command.Stop(dir, mode))
  {
    assert Values(CommandArgs(Command.Stop(dir, mode))) == ["stop", "-D", dir, "-m", ModeLetter(mode)];
  }

  lemma RestartValuesParse(dir: string, mode: ShutdownMode)
    ensures ParseCommand(Values(CommandArgs(Command.Restart(dir, mode)))) == Some(Command.Restart(dir, mode))
  {
    assert Values(CommandArgs(Command.Restart(dir, mode))) == ["restart", "-D", dir, "-m", ModeLetter(mode)];
  }

  lemma KillValuesParse(pid: Int32)
    ensures ParseCommand(Values(CommandArgs(Command.Kill(pid)))) == Some(Command.Kill(pid))
  {
    assert Values(CommandArgs(Command.Kill(pid))) == ["kill", IntToString(pid)];
    ParseIntRoundTrip(pid);
  }

  lemma RegisterValues(svc: string, user: string, pass: string, dir: string, st: StartType)
    ensures Values(CommandArgs(Command.Register(svc, user, pass, dir, st)))
         == ["register", "-N", svc, "-U", user, "-P", pass, "-D", dir, "-S", StartTypeLetter(st)]
  {
  }

  lemma ParseRegisterTokens(svc: string, user: string, pass: string, dir: string, st: StartType)
    ensures ParseCommand(["register", "-N", svc, "-U", user, "-P", pass, "-D", dir, "-S", StartTypeLetter(st)])
         == Some(Command.Register(svc, user, pass, dir, st))
  {
    var t := ["register", "-N", svc, "-U", user, "-P", pass, "-D", dir, "-S", StartTypeLetter(st)];
    assert |t| == 11 && t[0] == "register";
    assert ParseStartType(StartTypeLetter(st)) == Some(st);
  }

  lemma RegisterValuesParse(svc: string, user: string, pass: string, dir: string, st: StartType)
    ensures ParseCommand(Values(CommandArgs(Command.Register(svc, user, pass, dir, st))))
         == Some(Command.Register(svc, user, pass, dir, st))
  {
    RegisterValues(svc, user, pass, dir, st);
    ParseRegisterTokens(svc, user, pass, dir, st);
  }

  /** The argument string of a well-formed subcommand reads back as that
      subcommand, with every parameter in its place. */
  lemma ControlRoundTrip(c: Command)
    requires WellFormed(c)
    ensures ParseCommand(Argv(ControlLine(c))) == Some(c)
  {
    ControlArgv(c);
    match c
    case Init(dir, options) => InitValuesParse(dir, options);
    case Start(dir, logFile) => StartValuesParse(dir, logFile);
    case Stop(dir, mode) => StopValuesParse(dir, mode);
    case Restart(dir, mode) => RestartValuesParse(dir, mode);
    case Reload(dir) =>
      assert Values(CommandArgs(c)) == ["reload", "-D", dir];
    case Status(dir) =>
      assert Values(CommandArgs(c)) == ["status", "-D", dir];
    case Promote(dir) =>
      assert Values(CommandArgs(c)) == ["promote", "-D", dir];
    case Kill(pid) => KillValuesParse(pid);
    case Register(svc, user, pass, dir, st) => RegisterValuesParse(svc, user, pass, dir, st);
    case UnRegister(svc) =>
      assert Values(CommandArgs(c)) == ["unregister", "-N", svc];
  }

  /** Well-formed subcommands have the same argument string exactly when
      they are the same subcommand with the same parameters. */
  lemma ControlLineInjective(c1: Command, c2: Command)
    requires WellFormed(c1) && WellFormed(c2)
    ensures ControlLine(c1) == ControlLine(c2) <==> c1 == c2
  {
    ControlRoundTrip(c1);
    ControlRoundTrip(c2);
  }

  lemma QuotedOptionWords(first: string, second: string)
    ensures Join([Bare("-o"), Bare(SingleQuoted(first + " " + second))])
         == Join([Bare("-o"), Bare("'" + first), Bare(second + "'")])
  {
    var w := "'" + first;
    var v := second + "'";
    assert SingleQuoted(first + " " + second) == w + " " + v;
    assert [Bare("-o"), Bare(w), Bare(v)] == [Bare("-o")] + [Bare(w), Bare(v)];
    JoinTwo(Bare("-o"), Bare(w + " " + v));
    JoinCons(Bare("-o"), [Bare(w), Bare(v)]);
    JoinTwo(Bare(w), Bare(v));
    Assoc(" " + "-o", " " + w, " " + v);
    Assoc(" " + "-o" + " ", w, " " + v);
    Assoc(w, " ", v);
  }

  lemma InitOptionsLine(dir: string, first: string, second: string)
    ensures ControlLine(Command.Init(dir, Some(first + " " + second)))
         == Join([Bare("init"), Bare("-D"), Bare(dir)] + [Bare("-o"), Bare("'" + first), Bare(second + "'")])
  {
    var head := [Bare("init"), Bare("-D"), Bare(dir)];
    assert CommandArgs(Command.Init(dir, Some(first + " " + second)))
        == head + [Bare("-o"), Bare(SingleQuoted(first + " " + second))];
    JoinAppend(head, [Bare("-o"), Bare(SingleQuoted(first + " " + second))]);
    JoinAppend(head, [Bare("-o"), Bare("'" + first), Bare(second + "'")]);
    QuotedOptionWords(first, second);
  }

  /** Single quotes group nothing when the line is split: init options
      `a b` with a space in them reach pg_ctl as the two words `'a` and `b'`. */
  lemma InitOptionsUnquoted(dir: string, first: string, second: string)
    requires IsBare(dir) && IsBare("'" + first) && IsBare(second + "'")
    ensures Argv(ControlLine(Command.Init(dir, Some(first + " " + second))))
         == ["init", "-D", dir, "-o", "'" + first, second + "'"]
  {
    var args := [Bare("init"), Bare("-D"), Bare(dir)] + [Bare("-o"), Bare("'" + first), Bare(second + "'")];
    InitOptionsLine(dir, first, second);
    assert IsBare("init") && IsBare("-D") && IsBare("-o");
    assert AllSplittable(args);
    ArgvJoin(args, "");
    assert Join(args) + "" == Join(args);
    assert Values(args) == ["init", "-D", dir, "-o", "'" + first, second + "'"];
  }

  /** `Register` puts the service password in the argument string, right
      after `-P`, and does not pass it to `Execute` as the secret. */
  lemma RegisterPasswordInArguments(svc: string, user: string, pass: string, dir: string, st: StartType)
    requires WellFormed(Command.Register(svc, user, pass, dir, st))
    ensures var argv := Argv(ControlLine(Command.Register(svc, user, pass, dir, st)));
            |argv| == 11 && argv[5] == "-P" && argv[6] == pass
  {
    ControlArgv(Command.Register(svc, user, pass, dir, st));
  }
}
