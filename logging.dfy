/**
  Package state, channel initialisation and the logging facade (log/com.go,
  log/init.go).

  The package holds one configuration and two logger clients, general and
  access.  A client is nil until its channel is initialised; initialisation
  creates it first and only then tries the directory and the rotating
  writers, so a failed initialisation leaves a client with no file hook.
  The outcomes of the file-system calls are supplied by a Host value.
 */
module Logging {
  import opened Wrappers
  import opened Format
  import opened Routing
  import opened Environment

  /** Which of the two line formatters a file hook uses. */
  datatype Formatter = ComFormatter | AccessFormatter

  function FormatWith(f: Formatter, e: Entry): Formatted
  {
    match f
    case ComFormatter => ComFormat(e)
    case AccessFormatter => AccessFormat(e)
  }

  /** An lfshook file hook: a writer per level and the formatter for its lines. */
  datatype Hook = Hook(writers: map<Level, Writer>, formatter: Formatter)

  /** The console formatter: the one a new logger has, or text with full timestamps. */
  datatype ConsoleFormat = DefaultText | FullTimestampText

  /**
    Where console output goes: a new logger's own default, standard output,
    or `os.NewFile(0, os.DevNull)`: a file wrapping descriptor 0 (standard
    input) under the name /dev/null.  No file is opened, so that output goes
    to whatever descriptor 0 is, not to the null device.
   */
  datatype Output = DefaultOutput | Stdout | Fd0

  /**
    A logrus logger as this package configures it; `level` is None until
    SetLevel is called, meaning the logger's own default.
   */
  datatype Client = Client(level: Option<Level>, hooks: seq<Hook>, console: ConsoleFormat, output: Output)

  /** What logrus.New() hands back, before any setting. */
  const NewLogger: Client := Client(None, [], DefaultText, DefaultOutput)

  /**
    The outcomes the package cannot compute: the environment, the
    directories MkdirAll fails on and the files rotatelogs.New fails for.
   */
  datatype Host = Host(vars: map<string, string>, mkdirFails: set<string>, writerFails: set<FilePath>)

  /** One line handed to one writer. */
  datatype Delivery = Delivery(path: FilePath, bytes: string)

  /**
    What the file hooks do with an entry: every hook that has a writer for
    the entry's level formats the entry and hands the line to that writer;
    a hook without one ignores it.
   */
  function Deliveries(hooks: seq<Hook>, e: Entry): (d: seq<Delivery>)
    ensures |d| <= |hooks|
    ensures (forall i :: 0 <= i < |hooks| ==> e.level !in hooks[i].writers) ==> d == []
  {
    if hooks == [] then []
    else
      var h := hooks[0];
      var here := if e.level in h.writers
                  then [Delivery(h.writers[e.level].path, FormatWith(h.formatter, e).bytes)]
                  else [];
      here + Deliveries(hooks[1..], e)
  }

  /** The writer map a channel's hook gets: each routed level to the writer of its template. */
  function WriterMap(c: LogConfig, ch: Channel): (m: map<Level, Writer>)
    ensures m.Keys == Routes(ch).Keys
  {
    map l | l in Routes(ch) :: NewWriter(c, Routes(ch)[l])
  }

  /**
    Console set-up by environment: in development the text formatter with
    full timestamps and standard output; otherwise descriptor 0.
   */
  function ConsoleGated(cl: Client, vars: map<string, string>): Client
  {
    if IsDev(vars) then cl.(console := FullTimestampText, output := Stdout)
    else cl.(output := Fd0)
  }

  /** The general channel's directory and both of its writers could be set up. */
  predicate GeneralOpens(c: LogConfig, h: Host)
  {
    c.logDir !in h.mkdirFails &&
    NewWriter(c, InfoLog).path !in h.writerFails &&
    NewWriter(c, ErrorLog).path !in h.writerFails
  }

  /** The access channel's directory and its writer could be set up. */
  predicate AccessOpens(c: LogConfig, h: Host)
  {
    c.logDir !in h.mkdirFails && NewWriter(c, AccessLog).path !in h.writerFails
  }

  /** The general client that initLog leaves behind. */
  function GeneralClient(c: LogConfig, h: Host): Client
  {
    if c.logDir in h.mkdirFails then NewLogger
    else if !GeneralOpens(c, h) then NewLogger.(level := Some(Info))
    else
      var hooked := NewLogger.(level := Some(Info), hooks := [Hook(WriterMap(c, General), ComFormatter)]);
      ConsoleGated(hooked, h.vars)
  }

  /** The access client that initAccessLog leaves behind. */
  function AccessClient(c: LogConfig, h: Host): Client
  {
    if c.logDir in h.mkdirFails then NewLogger
    else if !AccessOpens(c, h) then NewLogger.(level := Some(Info))
    else
      var hooked := NewLogger.(level := Some(Info), hooks := [Hook(WriterMap(c, Access), AccessFormatter)]);
      ConsoleGated(hooked, h.vars)
  }

  /**
    After initLog: a client always exists; it has the file hook exactly when
    the directory and both writers were set up, and then Info and Warn share
    the info writer, Error has its own, and console output follows the
    environment.  A failed set-up leaves the new logger's own console output.
   */
  lemma GeneralClientState(c: LogConfig, h: Host)
    ensures GeneralClient(c, h).hooks != [] <==> GeneralOpens(c, h)
    ensures GeneralClient(c, h).level == Some(Info) <==> c.logDir !in h.mkdirFails
    ensures !GeneralOpens(c, h) ==> GeneralClient(c, h).output == DefaultOutput
    ensures GeneralOpens(c, h) ==>
      (GeneralClient(c, h).output == Stdout <==> IsDev(h.vars)) &&
      (GeneralClient(c, h).output == Fd0 <==> !IsDev(h.vars))
    ensures GeneralOpens(c, h) ==>
      var cl := GeneralClient(c, h);
      |cl.hooks| == 1 && cl.hooks[0].formatter == ComFormatter &&
      var m := cl.hooks[0].writers;
      m.Keys == {Info, Warn, Error} && m[Info] == m[Warn] && m[Info].path != m[Error].path &&
      m[Info] == NewWriter(c, InfoLog) && m[Error] == NewWriter(c, ErrorLog)
  {
    ChannelsShareNoFile(Info, Info, InfoLog, ErrorLog);
  }

  /**
    After initAccessLog: a client always exists; it has the file hook exactly
    when the directory and the writer were set up, and then only Info has a
    writer, the access file.
   */
  lemma AccessClientState(c: LogConfig, h: Host)
    ensures AccessClient(c, h).hooks != [] <==> AccessOpens(c, h)
    ensures AccessClient(c, h).level == Some(Info) <==> c.logDir !in h.mkdirFails
    ensures !AccessOpens(c, h) ==> AccessClient(c, h).output == DefaultOutput
    ensures AccessOpens(c, h) ==> (AccessClient(c, h).output == Stdout <==> IsDev(h.vars))
    ensures AccessOpens(c, h) ==> (AccessClient(c, h).output == Fd0 <==> !IsDev(h.vars))
    ensures AccessOpens(c, h) ==>
      var cl := AccessClient(c, h);
      |cl.hooks| == 1 && cl.hooks[0].formatter == AccessFormatter &&
      cl.hooks[0].writers == map[Info := NewWriter(c, AccessLog)]
  {
  }

  /** LogConfig.EnableConsole is never read: changing it changes neither client. */
  lemma EnableConsoleUnused(c: LogConfig, h: Host, enable: bool)
    ensures GeneralClient(c.(enableConsole := enable), h) == GeneralClient(c, h)
    ensures AccessClient(c.(enableConsole := enable), h) == AccessClient(c, h)
  {
    assert WriterMap(c.(enableConsole := enable), General) == WriterMap(c, General);
    assert WriterMap(c.(enableConsole := enable), Access) == WriterMap(c, Access);
  }

  /** `line` handed to the file that level `l` routes to on a channel, under directory `dir`. */
  function Routed(ch: Channel, dir: string, line: string, l: Level): seq<Delivery>
  {
    match Route(ch, l)
    case None => []
    case Some(t) => [Delivery(FilePath(dir, Pattern(t)), line)]
  }

  /**
    Logging on the general client: with its hook in place an entry becomes
    one ComLogFormatter line in the file its level routes to, or nothing for
    an unrouted level; without the hook (a failed set-up) nothing is written.
   */
  lemma GeneralDispatch(c: LogConfig, h: Host, e: Entry)
    ensures Deliveries(GeneralClient(c, h).hooks, e) ==
            if GeneralOpens(c, h) then Routed(General, c.logDir, ComFormat(e).bytes, e.level) else []
  {
    var hooks := GeneralClient(c, h).hooks;
    if GeneralOpens(c, h) {
      assert hooks[1..] == [];
    }
  }

  /**
    Logging on the access client: with its hook in place an Info entry
    becomes one AccessFormatter line in the access file and any other level
    nothing; without the hook nothing is written.
   */
  lemma AccessDispatch(c: LogConfig, h: Host, e: Entry)
    ensures Deliveries(AccessClient(c, h).hooks, e) ==
            if AccessOpens(c, h) then Routed(Access, c.logDir, AccessFormat(e).bytes, e.level) else []
  {
    var hooks := AccessClient(c, h).hooks;
    if AccessOpens(c, h) {
      assert hooks[1..] == [];
    }
  }

  /** Info and Warn lines land in the same file, Error lines in another. */
  lemma WarnSharesInfoFile(c: LogConfig, h: Host, time: string, message: string)
    requires GeneralOpens(c, h)
    ensures var info := Deliveries(GeneralClient(c, h).hooks, Entry(time, Info, message, map[]));
            var warn := Deliveries(GeneralClient(c, h).hooks, Entry(time, Warn, message, map[]));
            var err := Deliveries(GeneralClient(c, h).hooks, Entry(time, Error, message, map[]));
            |info| == |warn| == |err| == 1 && info[0].path == warn[0].path != err[0].path
  {
    GeneralDispatch(c, h, Entry(time, Info, message, map[]));
    GeneralDispatch(c, h, Entry(time, Warn, message, map[]));
    GeneralDispatch(c, h, Entry(time, Error, message, map[]));
  }

  /** The package's global state: the configuration and the two logger clients. */
  class LogState {
    var config: LogConfig
    var com: Option<Client>
    var access: Option<Client>

    /** The package variables before init runs: default configuration, no clients. */
    constructor ()
      ensures config == DefaultConfig && com == None && access == None
    {
      config := DefaultConfig;
      com := None;
      access := None;
    }

    /** The package init function: both channels from the current configuration. */
    method Init(h: Host)
      modifies this
      ensures config == old(config)
      ensures com == Some(GeneralClient(config, h)) && access == Some(AccessClient(config, h))
    {
      InitLog(h);
      InitAccessLog(h);
    }

    /** initLog: the general client is replaced first, then set up step by step. */
    method InitLog(h: Host)
      modifies this
      ensures config == old(config) && access == old(access)
      ensures com == Some(GeneralClient(config, h))
    {
      com := Some(NewLogger);
      if config.logDir in h.mkdirFails {
        return;
      }
      com := Some(com.value.(level := Some(Info)));
      var infoWriter := NewWriter(config, InfoLog);
      if infoWriter.path in h.writerFails {
        return;
      }
      var errorWriter := NewWriter(config, ErrorLog);
      if errorWriter.path in h.writerFails {
        return;
      }
      var writeMap := map[Info := infoWriter, Error := errorWriter, Warn := infoWriter];
      assert writeMap == WriterMap(config, General);
      com := Some(com.value.(hooks := com.value.hooks + [Hook(writeMap, ComFormatter)]));
      assert com.value == NewLogger.(level := Some(Info), hooks := [Hook(WriterMap(config, General), ComFormatter)]);
      assert GeneralOpens(config, h);
      if IsDev(h.vars) {
        com := Some(com.value.(console := FullTimestampText, output := Stdout));
      } else {
        com := Some(com.value.(output := Fd0));
      }
    }

    /** initAccessLog: the access client is replaced first, then set up step by step. */
    method InitAccessLog(h: Host)
      modifies this
      ensures config == old(config) && com == old(com)
      ensures access == Some(AccessClient(config, h))
    {
      access := Some(NewLogger);
      if config.logDir in h.mkdirFails {
        return;
      }
      access := Some(access.value.(level := Some(Info)));
      var accessWriter := NewWriter(config, AccessLog);
      if accessWriter.path in h.writerFails {
        return;
      }
      var writeMap := map[Info := accessWriter];
      assert writeMap == WriterMap(config, Access);
      access := Some(access.value.(hooks := access.value.hooks + [Hook(writeMap, AccessFormatter)]));
      assert access.value == NewLogger.(level := Some(Info), hooks := [Hook(WriterMap(config, Access), AccessFormatter)]);
      assert AccessOpens(config, h);
      if IsDev(h.vars) {
        access := Some(access.value.(console := FullTimestampText, output := Stdout));
      } else {
        access := Some(access.value.(output := Fd0));
      }
    }

    /**
      SetConfig: the configuration is replaced and both clients are rebuilt
      from it; nothing of the previous clients survives.
     */
    method SetConfig(c: LogConfig, h: Host)
      modifies this
      ensures config == c && GetDefaultConfig() == c
      ensures com == Some(GeneralClient(c, h)) && access == Some(AccessClient(c, h))
    {
      config := c;
      InitLog(h);
      InitAccessLog(h);
    }

    /** GetDefaultConfig: the configuration currently in force. */
    function GetDefaultConfig(): (c: LogConfig)
      reads this
      ensures c == config
    {
      config
    }

    /**
      Info, Warn, Error, Debug and the other leveled calls: nothing at all
      before the general client exists, otherwise the client's file hooks
      receive the entry.
     */
    method Log(level: Level, time: string, message: string) returns (d: seq<Delivery>)
      ensures com.None? ==> d == []
      ensures com.Some? ==> d == Deliveries(com.value.hooks, Entry(time, level, message, map[]))
    {
      d := [];
      if com.Some? {
        d := Deliveries(com.value.hooks, Entry(time, level, message, map[]));
      }
    }

    /** AccessInfo: an Info entry carrying the request's fields, on the access client. */
    method AccessInfo(time: string, message: string, fields: map<string, Value>) returns (d: seq<Delivery>)
      ensures access.None? ==> d == []
      ensures access.Some? ==> d == Deliveries(access.value.hooks, Entry(time, Info, message, fields))
    {
      d := [];
      if access.Some? {
        d := Deliveries(access.value.hooks, Entry(time, Info, message, fields));
      }
    }
  }
}
