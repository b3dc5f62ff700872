/**
  Configuration and severity-to-file routing (log/com.go).

  Each channel sends a level to a rotating writer through a fixed table;
  a writer is named by a strftime-style template under the configured log
  directory and carries the rotation settings it was created with.
 */
module Routing {
  import opened Wrappers
  import opened Format

  /** Durations are Go time.Duration values: nanoseconds. */
  const Hour: int := 60 * 60 * 1000 * 1000 * 1000

  /** LogConfig: directory, retention, rotation interval and size, console flag. */
  datatype LogConfig = LogConfig(logDir: string, maxAge: int, rotationTime: int,
                                 rotationSize: int, enableConsole: bool)

  /**
    The configuration the package starts with: directory `logs` (the
    cleaned join of `.` and `logs`), 20 days of retention, daily rotation,
    rotation at 5 MiB, console enabled.
   */
  const DefaultConfig: LogConfig :=
    LogConfig("logs", 20 * 24 * Hour, 24 * Hour, 5 * 1024 * 1024, true)

  /** The two logger channels. */
  datatype Channel = General | Access

  /** The file-name templates, one per destination file. */
  datatype Template = InfoLog | ErrorLog | AccessLog

  function Pattern(t: Template): string
  {
    match t
    case InfoLog => "info.%Y-%m-%d.log"
    case ErrorLog => "error.%Y-%m-%d.log"
    case AccessLog => "access.%Y-%m-%d.log"
  }

  /** The channel whose writers use a template. */
  function Owner(t: Template): Channel
  {
    if t == AccessLog then Access else General
  }

  /** The general channel's writer map: warnings share the info file. */
  const GeneralRoutes: map<Level, Template> := map[Info := InfoLog, Error := ErrorLog, Warn := InfoLog]

  /** The access channel's writer map: only Info is written. */
  const AccessRoutes: map<Level, Template> := map[Info := AccessLog]

  function Routes(ch: Channel): map<Level, Template>
  {
    match ch
    case General => GeneralRoutes
    case Access => AccessRoutes
  }

  /** The file template a level is written to on a channel, if any. */
  function Route(ch: Channel, l: Level): (r: Option<Template>)
    ensures r.Some? ==> Owner(r.value) == ch
    ensures r.None? <==> l !in Routes(ch)
  {
    if l in Routes(ch) then Some(Routes(ch)[l]) else None
  }

  /**
    The general channel: Info and Warn go to the info file, Error to the
    error file, and every other level to no file.
   */
  lemma GeneralRouting(l: Level)
    ensures Route(General, Info) == Route(General, Warn) == Some(InfoLog)
    ensures Route(General, Error) == Some(ErrorLog)
    ensures Route(General, l).Some? <==> l in {Info, Warn, Error}
  {
  }

  /** The access channel writes Info and nothing else. */
  lemma AccessRouting(l: Level)
    ensures Route(Access, l).Some? <==> l == Info
    ensures Route(Access, Info) == Some(AccessLog)
  {
  }

  /** No two channels, and no two templates, share a file name. */
  lemma ChannelsShareNoFile(l1: Level, l2: Level, t1: Template, t2: Template)
    ensures Route(General, l1).Some? && Route(Access, l2).Some? ==>
            Pattern(Route(General, l1).value) != Pattern(Route(Access, l2).value)
    ensures t1 != t2 ==> Pattern(t1) != Pattern(t2)
  {
    assert Pattern(InfoLog)[0] == 'i' && Pattern(ErrorLog)[0] == 'e' && Pattern(AccessLog)[0] == 'a';
  }

  /** A file as the directory it lives in and its name template inside it. */
  datatype FilePath = FilePath(dir: string, name: string)

  /** A rotating writer: where it writes and the rotation settings it was given. */
  datatype Writer = Writer(path: FilePath, maxAge: int, rotationTime: int, rotationSize: int)

  /** rotatelogs.New as called here: the template under the log directory, settings from the config. */
  function NewWriter(c: LogConfig, t: Template): (w: Writer)
    ensures w.path.dir == c.logDir && w.path.name == Pattern(t)
    ensures w.maxAge == c.maxAge && w.rotationTime == c.rotationTime && w.rotationSize == c.rotationSize
  {
    Writer(FilePath(c.logDir, Pattern(t)), c.maxAge, c.rotationTime, c.rotationSize)
  }
}
