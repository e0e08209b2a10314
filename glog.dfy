/**
 * The package state: the `Format`, `colorFormating` and `LogLevel` globals,
 * the five logger variables `setupLogger` fills, and the entry points that
 * reconfigure them, gate on verbosity and write through them.
 */
module Glog {
  import opened Strings
  import opened Coloring
  import opened Layout
  import opened Filters

  /** The `LOG_LEVEL` environment variable as `init` finds it, after `strconv.Atoi`. */
  datatype LevelSetting = Unset | Number(level: int) | Malformed

  /** The level `init` means to settle on: the number, or 0 when unset or malformed. */
  function LevelOf(env: LevelSetting): (level: int)
  {
    if env.Number? then env.level else 0
  }

  /**
   * The newline step of `Infof`, `Errorf`, `Fatalf` and `Exitf`: append `\n`
   * unless the formatted text already ends in one. The text must not be
   * empty, since its last byte is read.
   */
  function EnsureNewline(s: string): (r: string)
    requires s != []
    ensures r != [] && r[|r| - 1] == '\n'
    ensures s[|s| - 1] == '\n' ==> r == s
    ensures s[|s| - 1] != '\n' ==> r == s + "\n"
  {
    if s[|s| - 1] != '\n' then s + "\n" else s
  }

  /** Normalising twice is normalising once. */
  lemma EnsureNewlineIdempotent(s: string)
    requires s != []
    ensures EnsureNewline(EnsureNewline(s)) == EnsureNewline(s)
  {
  }

  /** The line a sink receives when a filter writes `line`, the coloring read at write time. */
  twostate predicate Delivered(f: Filter, colorFormating: ColorFormat, line: string)
    requires f.Accepts(line)
    reads f.Targets()
  {
    match f
    case Default(d) => d.out.data == old(d.out.data) + d.out.Kept(DefaultLine(colorFormating, d.logType, line))
    case Modern(m) => m.out.data == old(m.out.data) + m.out.Kept(ModernLine(colorFormating, m.logType, line))
    case _ => true
  }

  class Logging {
    var format: FormatType
    var colorFormating: ColorFormat
    var logLevel: int
    var exited: bool
    var traceLog: Filter
    var infoLog: Filter
    var warningLog: Filter
    var errorLog: Filter
    var fatalLog: Filter

    // os.Stdout, os.Stderr and ioutil.Discard.
    const stdout: Sink
    const stderr: Sink
    const discard: Sink

    /** `ioutil.Discard` keeps nothing; standard output and standard error keep everything. */
    ghost predicate StandardHandles()
    {
      discard.discards && !stdout.discards && !stderr.discards
    }

    /** The package variables before `init` runs: zero values, and `colorFormating = NoColor`. */
    constructor (stdout: Sink, stderr: Sink, discard: Sink)
      requires discard.discards && !stdout.discards && !stderr.discards
      ensures StandardHandles()
      ensures this.stdout == stdout && this.stderr == stderr && this.discard == discard
      ensures format == DefaultFormat && colorFormating == NoColor && logLevel == 0 && !exited
      ensures traceLog == Nil && infoLog == Nil && warningLog == Nil && errorLog == Nil && fatalLog == Nil
    {
      this.stdout, this.stderr, this.discard := stdout, stderr, discard;
      format, colorFormating, logLevel, exited := DefaultFormat, NoColor, 0, false;
      traceLog, infoLog, warningLog, errorLog, fatalLog := Nil, Nil, Nil, Nil, Nil;
    }

    /** The logger variable of each severity. */
    function LoggerFor(sev: Severity): (f: Filter)
      reads this
    {
      match sev
      case TRACE => traceLog
      case INFO => infoLog
      case WARNING => warningLog
      case ERROR => errorLog
      case FATAL => fatalLog
    }

    /** The five loggers as `setupLogger` leaves them for the current format. */
    ghost predicate SetUp(traceHandle: Sink, infoHandle: Sink, warningHandle: Sink, errorHandle: Sink, fatalHandle: Sink)
      reads this
    {
      && traceLog == LogFilter(format, traceHandle, TRACE)
      && infoLog == LogFilter(format, infoHandle, INFO)
      && warningLog == LogFilter(format, warningHandle, WARNING)
      && errorLog == LogFilter(format, errorHandle, ERROR)
      && fatalLog == LogFilter(format, fatalHandle, FATAL)
    }

    /** `setupLogger`: one filtered logger per severity over the given handles. */
    method SetupLogger(traceHandle: Sink, infoHandle: Sink, warningHandle: Sink, errorHandle: Sink, fatalHandle: Sink)
      modifies this
      ensures SetUp(traceHandle, infoHandle, warningHandle, errorHandle, fatalHandle)
      ensures format == old(format) && colorFormating == old(colorFormating)
      ensures logLevel == old(logLevel) && exited == old(exited)
    {
      traceLog := LogFilter(format, traceHandle, TRACE);
      infoLog := LogFilter(format, infoHandle, INFO);
      warningLog := LogFilter(format, warningHandle, WARNING);
      errorLog := LogFilter(format, errorHandle, ERROR);
      fatalLog := LogFilter(format, fatalHandle, FATAL);
    }

    /**
     * The routing `SetFormat` and `init` set up: whatever the format, TRACE
     * output reaches only the discarding sink, INFO and WARNING output only
     * standard output, ERROR and FATAL output only standard error.
     */
    lemma StandardRouting()
      requires StandardHandles() && SetUp(discard, stdout, stdout, stderr, stderr)
      ensures forall s :: s in LoggerFor(TRACE).Targets() ==> s.discards
      ensures stdout !in LoggerFor(TRACE).Targets() && stderr !in LoggerFor(TRACE).Targets()
      ensures LoggerFor(INFO).Targets() <= {stdout} && LoggerFor(WARNING).Targets() <= {stdout}
      ensures LoggerFor(ERROR).Targets() <= {stderr} && LoggerFor(FATAL).Targets() <= {stderr}
    {
    }

    /** `SetFormat`: switch the format and rebuild the loggers over the standard handles. */
    method SetFormat(f: FormatType)
      modifies this
      ensures format == f
      ensures SetUp(discard, stdout, stdout, stderr, stderr)
      ensures colorFormating == old(colorFormating) && logLevel == old(logLevel) && exited == old(exited)
    {
      format := f;
      SetupLogger(discard, stdout, stdout, stderr, stderr);
    }

    /** `SetColors`: the scheme every later write reads. */
    method SetColors(cformat: ColorFormat)
      modifies this`colorFormating
      ensures colorFormating == cformat
    {
      colorFormating := cformat;
    }

    /**
     * The write `log.Logger.Output` ends with: the composed line goes to the
     * severity's writer. Writing through a logger variable that was never set
     * up dereferences nil, which `panicked` reports.
     */
    method Log(sev: Severity, line: string) returns (panicked: bool)
      requires LoggerFor(sev).Accepts(line)
      modifies LoggerFor(sev).Targets()
      ensures panicked <==> LoggerFor(sev).Nil?
      ensures Delivered(LoggerFor(sev), colorFormating, line)
    {
      panicked := false;
      match LoggerFor(sev)
      case Nil =>
        panicked := true;
      case Default(d) =>
        var _ := d.Write(colorFormating, line);
      case Modern(m) =>
        var _ := m.Write(colorFormating, line);
      case Discard =>
    }

    /**
     * `Exit`, `ExitDepth`, `Exitln`, `Exitf`: log to the FATAL logger, then
     * `os.Exit(1)`. Once exited, the process stays exited.
     */
    method Exit(line: string) returns (panicked: bool)
      requires fatalLog.Accepts(line)
      modifies fatalLog.Targets(), this`exited
      ensures panicked <==> fatalLog.Nil?
      ensures Delivered(fatalLog, colorFormating, line)
      ensures exited == (old(exited) || !panicked)
    {
      panicked := Log(FATAL, line);
      exited := exited || !panicked;
    }

    /** `V`: whether verbosity is at least `level`. */
    function V(level: int): (v: bool)
      reads this
      ensures v <==> logLevel >= level
    {
      logLevel >= level
    }

    /** The `Verbose` methods: write as the package function would, but only when `v` holds. */
    method VerboseLog(v: bool, sev: Severity, line: string) returns (panicked: bool)
      requires LoggerFor(sev).Accepts(line)
      modifies LoggerFor(sev).Targets()
      ensures !v ==> !panicked && unchanged(LoggerFor(sev).Targets())
      ensures v ==> (panicked <==> LoggerFor(sev).Nil?) && Delivered(LoggerFor(sev), colorFormating, line)
    {
      panicked := false;
      if v {
        panicked := Log(sev, line);
      }
    }

    /** The `Verbose` exit methods: log and exit only when `v` holds. */
    method VerboseExit(v: bool, line: string) returns (panicked: bool)
      requires fatalLog.Accepts(line)
      modifies fatalLog.Targets(), this`exited
      ensures !v ==> !panicked && exited == old(exited) && unchanged(fatalLog.Targets())
      ensures v ==> (panicked <==> fatalLog.Nil?) && Delivered(fatalLog, colorFormating, line) && exited == (old(exited) || !panicked)
    {
      panicked := false;
      if v {
        panicked := Exit(line);
      }
    }

    /**
     * `init` as written: read the level, and when it is malformed report that
     * through `Error` -- before `setupLogger` has run, while `errorLog` is
     * still nil -- then set the format and set up the loggers.
     */
    method Init(env: LevelSetting, reportLine: string) returns (panicked: bool)
      requires traceLog == Nil && infoLog == Nil && warningLog == Nil && errorLog == Nil && fatalLog == Nil
      modifies this
      ensures panicked <==> env.Malformed?
      ensures colorFormating == old(colorFormating) && exited == old(exited)
      ensures !panicked ==> logLevel == LevelOf(env) && format == DefaultFormat
      ensures !panicked ==> SetUp(discard, stdout, stdout, stderr, stderr)
    {
      panicked := false;
      if env.Unset? {
        logLevel := 0;
      } else {
        // strconv.Atoi yields 0 along with its error, the value the fallback sets again
        logLevel := if env.Number? then env.level else 0;
        if env.Malformed? {
          panicked := Log(ERROR, reportLine);
          if panicked {
            return;
          }
        }
      }
      format := DefaultFormat;
      SetupLogger(discard, stdout, stdout, stderr, stderr);
    }

    /**
     * `init` with the report moved after `setupLogger`: a malformed level falls
     * back to 0 and the report reaches standard error through the ERROR logger.
     */
    method InitFixed(env: LevelSetting, reportLine: string)
      requires env.Malformed? ==> DefaultAccepts(reportLine)
      modifies this, stderr
      ensures logLevel == LevelOf(env) && format == DefaultFormat
      ensures SetUp(discard, stdout, stdout, stderr, stderr)
      ensures colorFormating == old(colorFormating) && exited == old(exited)
      ensures stderr.data == old(stderr.data) +
        (if env.Malformed? then stderr.Kept(DefaultLine(colorFormating, ERROR, reportLine)) else [])
    {
      logLevel := LevelOf(env);
      format := DefaultFormat;
      SetupLogger(discard, stdout, stdout, stderr, stderr);
      if env.Malformed? {
        var _ := Log(ERROR, reportLine);
      }
    }
  }
}
