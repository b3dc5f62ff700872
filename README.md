# pm-goPkg `log` package — a Dafny model

The `log` package is a process-wide logging facility with two channels. The
general channel takes leveled messages and writes them, one line per entry, to
an info file and an error file. The access channel takes HTTP access records
and writes them to an access file. Both files are rotated by date under a
configurable log directory. Console output follows the environment. When
the environment name is `dev` or `development`, it goes to standard output.
Otherwise it goes to a file wrapping descriptor 0 (see below).

This model covers the logic the package itself contains:

- `environment.dfy` — `isDEV`. It picks the first non-empty value among `ENV`,
  `APP_ENV` and `env`, lower-cases it and compares it with `dev` and
  `development`. The environment is a `map<string, string>`, and an absent
  variable reads as `""`.
- `format.dfy` — `getStringValue` and the two line formatters. A field value is
  a tagged variant: string, integer, boolean, nil, or any other kind carrying
  its own `%v` text. `ParseLine` reads the bracketed-field line layout back. It
  is the independent partner of both formatters: a line parses back to exactly
  the fields and message that went in. The round trip needs fields without a
  `]`. A field that contains `] ` makes the line ambiguous, because the layout
  has no escaping.
- `routing.dfy` — the configuration record and its defaults, the file-name
  templates and the two severity-to-file tables.
- `logging.dfy` — the package state as a class `LogState`. It holds the
  configuration and the two clients, each an `Option<Client>` where `None`
  stands for a nil pointer. `InitLog` and `InitAccessLog` rebuild a client step
  by step with the source's early returns. `SetConfig`, `GetDefaultConfig` and
  the package `init` are also on the class, and so are the nil-guarded facade
  calls. Each method is proved against a specification function
  (`GeneralClient`, `AccessClient`, `Deliveries`), and the lemmas beside them
  state what those functions guarantee.

Outcomes the package cannot compute are inputs, carried by a `Host` value:
- the environment variables;
- the directories on which `os.MkdirAll` fails;
- the files for which `rotatelogs.New` fails.

The timestamp is also an input, already formatted.

Four behaviours of the code worth knowing:
- A failed initialisation does not leave a nil client. The client is created
  before the directory check (log/com.go:102 and 164). So the nil guard of
  the facade (log/com.go:218-313) only protects against use before `init`.
  After a failed initialisation, entries reach no file, and console output
  goes wherever a new logrus logger sends it by default.
- `LogConfig.EnableConsole` is never read, although the example at
  log/doc.go:46 suggests it controls console output. Console output depends
  only on the environment (log/com.go:147 and 194; `EnableConsoleUnused`).
- Outside development, console output is set to `os.NewFile(0, os.DevNull)`
  (log/com.go:157 and 204). That wraps the already open descriptor 0, standard
  input, under the name `/dev/null`. It opens nothing and discards nothing,
  so console text is written to descriptor 0. The model names this output
  `Fd0`.
- The level in a general line is logrus's own lower-case level name (`warning`
  for Warn).

## Model

| member | source | states |
|---|---|---|
| `Environment.ToLower` | log/init.go:17 | the result has the input's length and every character is that character lowered (ASCII) |
| `Environment.LowerEqualsIff` | log/init.go:17 | lower-casing gives a lower-case word exactly when the input spells that word with any mix of capitals, both directions |
| `Environment.SelectedEnv` | log/init.go:10-16 | the compared name is ENV when it is non-empty, else APP_ENV when that is non-empty, else env (absent reads as empty) |
| `Environment.IsDevValue` | log/init.go:17 | the comparison holds exactly when the value spells `dev` or `development` in any case |
| `Environment.IsDev` | log/init.go:8-18 | isDEV holds exactly when the selected name spells `dev` or `development` in any case |
| `Environment.EnvDecides` | log/init.go:10-17 | a non-empty ENV decides alone; changing APP_ENV or env changes nothing |
| `Environment.AppEnvDecidesWhenEnvEmpty` | log/init.go:11-13 | APP_ENV is used only when ENV is empty, and then env is ignored |
| `Environment.LowerEnvDecidesLast` | log/init.go:14-16 | env is used only when both ENV and APP_ENV are empty |
| `Environment.UnsetIsNotDev` | log/init.go:10-17 | with all three variables unset or empty the result is false |
| `Environment.MixedCaseIsDev` | log/init.go:17 | ENV=Development gives true |
| `Environment.UpperCaseAppEnvIsDev` | log/init.go:11-17 | ENV unset and APP_ENV=DEV gives true |
| `Environment.EnvShadowsAppEnv` | log/init.go:10-17 | ENV=production with APP_ENV=dev gives false |
| `Format.GetStringValue` | log/com.go:88-97 | an absent key yields the default; a present string is returned unchanged, even when empty; any present value yields its `%v` rendering and never falls back to the default |
| `Format.DefaultOnlyWhenAbsent` | log/com.go:89-96 | for a present key the result does not depend on the default; for an absent key different defaults give different results |
| `Format.DecimalRoundTrip` | log/com.go:94 | the `%v` text of an integer reads back as the same integer |
| `Format.IntFieldReadsBack` | log/com.go:93-94 | an integer field (such as a numeric status code) is rendered as decimal text that reads back as that integer |
| `Format.ParseLine` | log/com.go:82-84 | whatever it accepts is a line of exactly n bracketed fields followed by a message and a newline |
| `Format.LineRoundTrip` | log/com.go:82-84 | a line whose fields contain no `]` parses back into the same fields, in order, and the same message |
| `Format.ComFormat` | log/com.go:65-69 | the error is always nil; the line is `[time] [level] message` and a newline, and, when the timestamp holds no `]`, reads back into time, level name and message |
| `Format.AccessFormat` | log/com.go:72-85 | the error is always nil; the line holds time, ip, method, url, status_code and response_size (each looked up with its default) in that order, then the message and a newline, and, when the fields hold no `]`, reads back into them |
| `Format.AccessDefaults` | log/com.go:76-84 | with an empty field map the line is `[time] [0.0.0.0] [GET] [/] [200] [0] message` and a newline |
| `Format.AccessVerbatim` | log/com.go:76-84 | with all five fields present as strings, the line is those five strings verbatim, bracketed, in the order ip, method, url, status_code, response_size, followed by the message; without a `]` in them it reads back into exactly those fields |
| `Routing.Route` | log/com.go:139-143 | a level is routed exactly when it is in the channel's table, and only to a file of that channel |
| `Routing.GeneralRouting` | log/com.go:139-143 | Info and Warn go to the info file, Error to the error file, and no other level has a file |
| `Routing.AccessRouting` | log/com.go:188-190 | on the access channel only Info has a file, the access file |
| `Routing.ChannelsShareNoFile` | log/com.go:114-175 | the info, error and access templates are pairwise different, so the channels never share a file |
| `Routing.NewWriter` | log/com.go:114-120 | a writer uses the template under the configured directory and passes maximum age, rotation time and rotation size through unchanged |
| `Logging.Deliveries` | log/com.go:139-145 | each file hook writes at most one line per entry, and an entry whose level no hook routes is written nowhere |
| `Logging.GeneralClientState` | log/com.go:100-159 | after initLog a client exists; it has a file hook exactly when the directory and both writers were set up; then Info and Warn share the info writer, Error has its own, and console output is stdout in development and descriptor 0 otherwise |
| `Logging.AccessClientState` | log/com.go:162-206 | after initAccessLog a client exists; it has a file hook exactly when the directory and the writer were set up; then only Info has a writer, and console output is stdout in development and descriptor 0 otherwise |
| `Logging.EnableConsoleUnused` | log/com.go:147-158 | changing the EnableConsole setting changes neither client |
| `Logging.GeneralDispatch` | log/com.go:139-145 | a general entry becomes one ComLogFormatter line in the file its level routes to; an unrouted level, or a client whose set-up failed, writes nothing |
| `Logging.AccessDispatch` | log/com.go:188-192 | an access entry at Info becomes one AccessFormatter line in the access file; any other level, or a client whose set-up failed, writes nothing |
| `Logging.WarnSharesInfoFile` | log/com.go:139-143 | Info and Warn lines land in the same file and Error lines in a different one |
| `Logging.LogState.constructor` | log/com.go:31-37 | before init the configuration is the default (`logs`, 20 days, 24 h, 5 MiB, console on) and both clients are nil |
| `Logging.LogState.Init` | log/init.go:30-33 | package init builds both clients from the current configuration |
| `Logging.LogState.InitLog` | log/com.go:100-159 | the general client is replaced by a new one before any check, and the early returns leave the state `GeneralClient` describes; nothing else changes |
| `Logging.LogState.InitAccessLog` | log/com.go:162-206 | the access client is replaced by a new one before any check, and the early returns leave the state `AccessClient` describes; nothing else changes |
| `Logging.LogState.SetConfig` | log/com.go:40-45 | the configuration becomes c, GetDefaultConfig returns c, and both clients are rebuilt from c regardless of their previous state |
| `Logging.LogState.GetDefaultConfig` | log/com.go:48-50 | returns the configuration currently in force |
| `Logging.LogState.Log` | log/com.go:218-271 | with no general client nothing happens; otherwise the client's file hooks receive the entry |
| `Logging.LogState.AccessInfo` | log/com.go:302-313 | with no access client nothing happens; otherwise an Info entry with the given fields goes to the access client's file hooks |

## Left out

- Rotation and retention are left out. The time and size triggers and the pruning by maximum age happen inside `rotatelogs.New`, which is not part of this model. Writers only carry the configured values.
- File I/O is left out. This covers directory creation, writing lines to files, console output to standard output or to descriptor 0 (what a write there does depends on how descriptor 0 is open), and the failure messages printed with `fmt.Printf`. Their outcomes come in through `Host`, and `Deliveries` returns which line goes to which file instead of writing it.
- `ComLoggerFmt` (log/com.go:209-215) only prints to the console with the current time. It is not modelled.
- logrus and lfshook are not part of this model. The model does not cover logrus level filtering from `SetLevel`, the `TextFormatter` console rendering or logrus's own mutex. `Deliveries` models only the writer-map lookup that `lfshook.NewHook` is configured with. Levels below Info have no file route, so the missing level filter changes no file output.
- `Format.LevelText`: level names follow logrus's `Level.String`, which is not part of this model.
- Fatal, Fatalf, Panic and Panicf are left out: process exit and panics are not modelled. `Log(Fatal, …)` and `Log(Panic, …)` still show that these levels reach no file, because neither level has a route.
- The formatted variants (Infof, Errorf, AccessInfof, …) differ only in how `fmt.Sprintf` builds the message. The model takes the message as an already rendered string. The same holds for `fmt.Sprint` of variadic arguments and for `time.Format` of the timestamp.
- `Format.Render`: `%v` is spelled out for strings, integers (unbounded, with no Go integer width), booleans and nil. Every other kind of value carries its own text.
- `Environment.ToLower`: only ASCII letters are lowered. Unicode case mapping is not modelled.
- `Routing.NewWriter`: `filepath.Join` is kept as a (directory, name) pair, and path cleaning is not modelled. The default directory is the cleaned `logs`.
- `Logging.GeneralClientState`: in the source, Info and Warn share one writer object. The model shows equal writer values (same path, same settings), not object identity.
- Concurrency is left out. logrus serialises writes internally, and `SetConfig` is not synchronised with writes in flight.
- log/doc.go contains only package documentation.
