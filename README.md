# cloudglog log filter, modelled in Dafny

cloudglog is a levelled console logger for Go. Each severity (TRACE, INFO,
WARNING, ERROR, FATAL) has its own `log.Logger`. That logger composes one line,
`PREFIX: date time /long/path/pkg/file.go:N: message`, and writes it to a filter.
The filter does five things in order. It splits the line on spaces. It finds the
location token. In the Modern format it rewrites that token to
`[pkg][file.go][:N]` followed by a tab. It wraps a span of tokens in ANSI colour
sequences, following the current colour scheme. Finally it joins the tokens with
single spaces and forwards the result to the real destination.

This project models that filter and the small amount of package state around it.
The state is the `Format`, `colorFormating` and `LogLevel` globals, the five
logger variables, `SetFormat`, `SetColors`, `setupLogger`, `LogFilter`, the `V`
verbosity gate with its guarded methods, the `Exit` functions, and `init`.

Modules:

- `Strings` (strings.dfy): `strings.FieldsFunc` as `Fields` and `strings.Join`
  as `Join`. It proves that the two are inverse on words, and that a line whose
  only spaces are single separators is rebuilt by joining its fields.
- `Coloring` (coloring.dfy): severities, `colorSeq`/`colorSeqBold`, the
  `colors`/`boldcolors` tables, the seven schemes, the scheme table `Decorated`,
  and `AddColor`, which follows the source's switch and is proved equal to the
  table.
- `Layout` (layout.dfy): the `prefixEnd` sniff, the Modern location rewrite, and
  `DefaultLine`/`ModernLine`, which give what each writer forwards for one line.
  It also proves the properties of those lines. `LayoutExamples` works one
  INFO line through both writers.
- `Filters` (filters.dfy): destinations as append-only `Sink` objects
  (`ioutil.Discard` is one that keeps nothing), the `defaultLogger` and
  `modernLogger` writers with their `Write` methods, and `LogFilter`.
- `Glog` (glog.dfy): the package state as the class `Logging`, and the newline
  step of `Infof`/`Errorf`/`Fatalf`/`Exitf`.

Where the Go code would panic on an index out of range, the model uses a
precondition. `format[3]` needs at least four tokens (`DefaultAccepts`).
`subFormat[len-3:]` needs at least three location components (`ModernAccepts`).
`buf.Bytes()[buf.Len()-1]` in `Infof`, `Errorf`, `Fatalf` and `Exitf` needs a
non-empty formatted text, so `EnsureNewline` requires `s != []`; `Infof("")`
panics in the source.
Writing through a logger variable that was never set up is a nil dereference.
The model reports that as the `panicked` result of `Logging.Log`.

`formatType` and `colorFormat` are Go integers, so they are modelled as `int`
with named constants. A value outside the named ones reaches the source's
default branch: `LogFilter` discards, and `addColor` changes nothing.

The writer kind (Default or Modern) is fixed when `setupLogger` runs
`LogFilter`. It is not read anew on each write. Assigning the exported `Format` variable therefore
changes nothing until `SetFormat` rebuilds the loggers. The model follows the
code: `Logging.format` and the filter kinds are separate state, tied together
only by `SetUp` after `SetFormat` and `init`. The colour scheme, by contrast, is
read on every write.

Under the four Full* schemes, the reset token is appended after the message,
and so after the message's trailing newline. The forwarded line then ends in
`\n ESC[0m` (`LayoutExamples.FullColorInfoLine`).

The Go doc comments of `Exit`, `ExitDepth`, `Exitln` and `Exitf` say they log
to the FATAL, ERROR, WARNING and INFO logs. Their code writes to the FATAL logger
only, and the model follows the code.

The `Logging` constructor takes the three destinations and requires that the
discard sink keeps nothing and that standard output and standard error keep
everything. The `exited` flag stays set once an exit has happened.

## Model

| member | source | states |
|---|---|---|
| `Strings.Fields` | logging.go:206-212 | every field of the space split is non-empty and holds no separator |
| `Strings.JoinShape` | logging.go:225 | `strings.Join` starts with the first token, ends with the last, and is as long as the tokens plus one separator between each pair |
| `Strings.FieldsAtSeparator` | logging.go:256-261 | the fields of `a + sep + b` are the fields of `a` followed by those of `b` |
| `Strings.FieldsOfJoin` | logging.go:212-225 | splitting a space-join of words gives back exactly those words |
| `Strings.JoinOfFields` | logging.go:212-225 | joining the fields of a line with no leading, trailing or doubled spaces rebuilds the line |
| `Strings.FieldsNoneOf` | logging.go:261 | the location components of a space-free token are space-free |
| `Coloring.Decimal` | logging.go:88-94 | the `%d` rendering of a colour code is a non-empty string of digits |
| `Coloring.DecimalRoundTrip` | logging.go:88-94 | reading the digits back gives the colour code |
| `Coloring.ColorSeqInjective` | logging.go:88-94 | distinct codes give distinct plain sequences, and distinct bold ones |
| `Coloring.PlainIsNotBold` | logging.go:88-94 | no `ESC[<n>m` sequence equals any `ESC[<m>;1m` sequence |
| `Coloring.ColorSeqReadsBack` | logging.go:88-94 | `colorSeq` is `ESC[`, digits that read back as the colour code, then `m`; `colorSeqBold` the same with `;1m` |
| `Coloring.Code` | logging.go:71-85 | every severity's table entry uses a terminal colour code between 30 and 37 |
| `Coloring.ColorTables` | logging.go:58-85 | `colors[lType]` and `boldcolors[lType]`: the five severities map to `ESC[36m`, `ESC[32m`, `ESC[33m`, `ESC[31m`, `ESC[35m` and their `;1` bold forms |
| `Coloring.ColorsDistinct` | logging.go:71-85 | each severity has its own plain and bold colour, and no plain colour is a bold one |
| `Coloring.ColorsAreWords` | logging.go:88-94 | colour and reset sequences are non-empty and hold no space |
| `Coloring.Decorated` | logging.go:113-140 | the scheme table: NoColor and unknown schemes keep the token count, the Prefix* schemes add one token, the Full* schemes two |
| `Coloring.AddColor` | logging.go:108-144 | the switch over the schemes yields the scheme table: lead token, suffix at `prefixEnd`, trailing reset |
| `Coloring.NoColorIdentity` | logging.go:108-143 | under NoColor, and any value outside the seven schemes, the tokens are returned unchanged |
| `Coloring.DecoratedShape` | logging.go:113-140 | every scheme adds one colour token, bold exactly for PrefixBold/FullBold/WithBoldPrefix; Full* schemes add a trailing reset; one token grows by its suffix and the rest keep their order |
| `Coloring.DecoratedWords` | logging.go:113-140 | decorating space-free tokens yields space-free tokens |
| `Layout.PrefixEnd` | logging.go:214-219 | `prefixEnd` is 3 exactly when token 3 starts with `/` and ends with `:`, and 2 otherwise |
| `Layout.LocationSniffed` | logging.go:246-253 | in a composed `PREFIX date time /loc: msg` line the sniff returns 3 and token 3 is the location |
| `Layout.Components` | logging.go:255-261 | the `longFileSplit` fields of a location are non-empty and hold no `/` or `:` |
| `Layout.ModernLocation` | logging.go:259-265 | the Modern location token starts with `[` and ends with `]` and a tab; `ModernLocationOfLongfile` gives its exact value |
| `Layout.ModernTokens` | logging.go:259-265 | the Modern rewrite keeps the token count, changes only token `prefixEnd`, and puts the Modern location there |
| `Layout.ModernLocationOfLongfile` | logging.go:255-265 | `<dir>/<pkg>/<file>:<line>:` becomes `[<pkg>][<file>][:<line>]` and a tab, for any directory |
| `Layout.ModernTokensAreWords` | logging.go:259-265 | the rewritten location token holds no space |
| `Layout.DefaultLine` | logging.go:202-228 | the line the Default writer forwards splits back into exactly the decorated tokens of the raw line |
| `Layout.ModernLine` | logging.go:236-274 | the line the Modern writer forwards splits back into exactly the decorated Modern tokens of the raw line |
| `Layout.DefaultNoColorIsJoin` | logging.go:202-228 | Default with NoColor forwards the fields joined by single spaces |
| `Layout.DefaultNoColorReproduces` | logging.go:202-228 | Default with NoColor forwards a well-spaced line unchanged, message and newline included |
| `Layout.DefaultNoColorIdempotent` | logging.go:202-228 | filtering a Default NoColor line again changes nothing |
| `Layout.DecoratedLineRetokenizes` | logging.go:221-225 | the forwarded line splits back into exactly the decorated tokens |
| `Layout.FullColorFrame` | logging.go:121-140 | under Full* schemes, in both formats, the first forwarded token is the severity colour and the last is the reset |
| `Layout.ModernNoColorOfComposed` | logging.go:236-274 | a composed line through the Modern writer without colour changes only its location token |
| `LayoutExamples.DefaultInfoLine` | logging_test.go:20-25 | the line for `Info("Info")` passes the Default writer unchanged, so ` Info\n` follows the location |
| `LayoutExamples.ModernInfoLine` | logging.go:9-10 | the same line in Modern format reads `INFO: 2024/01/01 00:00:00 [pkg][file.go][:10]\t Info\n` |
| `LayoutExamples.FullColorInfoLine` | logging.go:121-124 | under FullColor the INFO line becomes `ESC[32m`, a space, the line, a space and `ESC[0m` |
| `Filters.Sink.Write` | logging.go:227 | a destination keeps all the written text, or none of it for the discard writer, and reports its length |
| `Filters.DefaultLogger.Write` | logging.go:197-228 | appends exactly `DefaultLine` of the raw line to the destination and returns its length |
| `Filters.ModernLogger.Write` | logging.go:230-274 | appends exactly `ModernLine` of the raw line to the destination and returns its length |
| `Filters.LogFilter` | logging.go:186-195 | Default format gives the default writer, Modern the modern writer, any other value the discard writer |
| `Filters.ModernLogFilter` | logging.go:276-278 | builds the same Modern writer that `LogFilter` builds for the Modern format |
| `Glog.EnsureNewline` | logging.go:327-329 | the result ends in `\n`; it is the input when that already ends in `\n`, and the input plus `\n` otherwise |
| `Glog.EnsureNewlineIdempotent` | logging.go:381-383 | normalising twice equals normalising once |
| `Glog.Logging.constructor` | logging.go:151-157 | before `init`, all five logger variables are nil and the scheme is NoColor |
| `Glog.Logging.SetupLogger` | logging.go:159-184 | each logger becomes `LogFilter` of the current format over its handle; nothing else changes |
| `Glog.Logging.StandardRouting` | logging.go:151-184 | after set-up over the standard handles, the logger of TRACE reaches only the discard sink, INFO and WARNING only standard output, ERROR and FATAL only standard error |
| `Glog.Logging.SetFormat` | logging.go:40-43 | sets the format and rebuilds the loggers over discard, stdout, stdout, stderr, stderr |
| `Glog.Logging.SetColors` | logging.go:147-149 | sets only the colour scheme |
| `Glog.Logging.Log` | logging.go:305-307 | the severity's writer forwards the line under the current scheme; a nil logger panics |
| `Glog.Logging.Exit` | logging.go:418-421 | logs to the FATAL logger only (as the code does, not as its comment says), then marks the process exited; the flag is never cleared |
| `Glog.Logging.V` | logging.go:461-471 | true exactly when `LogLevel >= level` |
| `Glog.Logging.VerboseLog` | logging.go:475-479 | with `v` false nothing is written; with `v` true it writes as `Log` does |
| `Glog.Logging.VerboseExit` | logging.go:618-623 | with `v` false nothing is written and the process goes on; with `v` true it acts as `Exit` |
| `Glog.Logging.Init` | logging.go:280-301 | as written: a malformed `LOG_LEVEL` reaches `Error` while `errorLog` is nil, and init panics |
| `Glog.Logging.InitFixed` | logging.go:280-301 | with setup first: the level is the number or 0, and a malformed value is reported on standard error |

## Left out

- Argument formatting (`fmt.Sprint`, `Sprintln`, `Sprintf`, `Fprintf`) is a standard-library call over `interface{}` values. The model takes its result as a string.
- Composing the line in `log.Logger.Output`, and `log.New`. The prefix, date, time and caller location come from the clock and the call stack. `Logging.Log` and the Write methods take the composed line. So `Info`, `InfoDepth`, `Infoln`, `Warning*`, `Error*`, `Fatal*` and their Verbose forms are all `Log` or `VerboseLog` of the line they compose.
- `Infof`, `Errorf`, `Fatalf`, `Exitf`: their own step is modelled as `EnsureNewline`, and the rest is `Log`. `Warningf` performs no such step.
- `CallDepth` and the depth arguments (`CallDepth+1` in the Verbose methods). They only choose which caller location `Output` reports.
- Reading `LOG_LEVEL` and `strconv.Atoi` in `init`. The parsed outcome is the input `LevelSetting`, and the report line `Error` would compose is a parameter.
- `os.Exit(1)` is the `exited` flag. `Fatal`, `Fatalln` and `Fatalf` only log, in the source and in the model.
- The real destinations (`os.Stdout`, `os.Stderr`, `ioutil.Discard`, `bufio`) are append-only `Sink` buffers that never fail. Propagation of write errors is therefore not modelled.
- Strings are `seq<char>`, not bytes. The length a Write returns counts characters, not UTF-8 bytes. The byte-wise sniff on `/` and `:` agrees with the character-wise one, because both are ASCII.
- Coloring.Decimal: renders non-negative integers only. Go's `%d` would print a minus sign, but every colour code is between 30 and 37.
- `LogFile`, which the test calls, is not defined in logging.go and is not part of this model.
- Concurrency: there are races on the globals and no synchronisation in the source.

## Findings

| source | as written | input that shows it | evidently intended | confidence | as-written member | corrected member |
|---|---|---|---|---|---|---|
| logging.go:290-300 | `init` calls `Error` for a malformed `LOG_LEVEL` before `setupLogger` has set `errorLog`, so `errorLog.Output` dereferences a nil logger | `LOG_LEVEL=abc` | fall back to level 0 and report the problem through the ERROR logger | high; not executed | `Glog.Logging.Init` | `Glog.Logging.InitFixed` |
