/**
 * The destinations and the per-severity writers the package puts in front of
 * them: `defaultLogger` and `modernLogger`, each of which rewrites every line
 * it is handed and forwards the result to its `out` writer.
 */
module Filters {
  import opened Strings
  import opened Coloring
  import opened Layout

  /**
   * An output destination (standard output, standard error, a file) as an
   * append-only buffer; `ioutil.Discard` is a sink that keeps nothing.
   */
  class Sink {
    const discards: bool
    var data: seq<char>

    constructor (discards: bool)
      ensures this.discards == discards && data == []
    {
      this.discards := discards;
      data := [];
    }

    /** What writing `p` adds to this sink. */
    function Kept(p: string): (r: string)
    {
      if discards then [] else p
    }

    /** Accepts all of `p`, keeping it unless the sink discards. */
    method Write(p: string) returns (n: int)
      modifies this
      ensures n == |p|
      ensures data == old(data) + Kept(p)
    {
      if !discards {
        data := data + p;
      }
      n := |p|;
    }
  }

  // The values of `formatType`. Any other value makes `LogFilter` discard.
  type FormatType = int
  const DefaultFormat: FormatType := 0
  const ModernFormat: FormatType := 1

  /** `defaultLogger`: keeps the location token as it is. */
  datatype DefaultLogger = DefaultLogger(out: Sink, logType: Severity)
  {
    /** Tokenize, sniff the location, colour, join with single spaces and forward. */
    method Write(colorFormating: ColorFormat, bytes: string) returns (n: int)
      requires DefaultAccepts(bytes)
      modifies out
      ensures out.data == old(out.data) + out.Kept(DefaultLine(colorFormating, logType, bytes))
      ensures n == |DefaultLine(colorFormating, logType, bytes)|
    {
      var format := Fields(bytes, Space);
      var prefixEnd := PrefixEnd(format);
      format := AddColor(colorFormating, logType, prefixEnd, format);
      var defaultFormat := Join(format, " ");
      n := out.Write(defaultFormat);
    }
  }

  /** `modernLogger`: rewrites the location token to `[pkg][file][:line]` and a tab. */
  datatype ModernLogger = ModernLogger(out: Sink, logType: Severity)
  {
    /** As the Default writer, with the location token rewritten before colouring. */
    method Write(colorFormating: ColorFormat, bytes: string) returns (n: int)
      requires ModernAccepts(bytes)
      modifies out
      ensures out.data == old(out.data) + out.Kept(ModernLine(colorFormating, logType, bytes))
      ensures n == |ModernLine(colorFormating, logType, bytes)|
    {
      var format := Fields(bytes, Space);
      var prefixEnd := PrefixEnd(format);
      var subFormat := Fields(format[prefixEnd], LocationSeps);
      var modernLongFile := subFormat[|subFormat| - 3..];
      format := format[prefixEnd := "[" + modernLongFile[0] + "][" + modernLongFile[1] + "][:" + modernLongFile[2] + "]\t"];
      format := AddColor(colorFormating, logType, prefixEnd, format);
      var modernFormat := Join(format, " ");
      n := out.Write(modernFormat);
    }
  }

  /** `ModernLogFilter`: a Modern writer whatever the current format, the one `LogFilter` builds for it. */
  function ModernLogFilter(w: Sink, ltype: Severity): (m: ModernLogger)
    ensures Modern(m) == LogFilter(ModernFormat, w, ltype)
  {
    ModernLogger(w, ltype)
  }

  /**
   * The writer a `log.Logger` writes to: one of the two filters, the discard
   * writer, or `Nil`, the zero value of a logger variable nobody has set up.
   */
  datatype Filter = Nil | Default(d: DefaultLogger) | Modern(m: ModernLogger) | Discard
  {
    /** The sinks a write through this filter may change. */
    function Targets(): set<Sink>
    {
      match this
      case Default(d) => {d.out}
      case Modern(m) => {m.out}
      case _ => {}
    }

    /** The line can be written without an index going out of range. */
    ghost predicate Accepts(line: string)
    {
      match this
      case Default(_) => DefaultAccepts(line)
      case Modern(_) => ModernAccepts(line)
      case _ => true
    }
  }

  /** `LogFilter`: picks the writer for the current format, discarding for unknown formats. */
  function LogFilter(format: FormatType, w: Sink, ltype: Severity): (f: Filter)
    ensures format == DefaultFormat <==> f == Default(DefaultLogger(w, ltype))
    ensures format == ModernFormat <==> f == Modern(ModernLogger(w, ltype))
    ensures format != DefaultFormat && format != ModernFormat <==> f == Discard
  {
    if format == DefaultFormat then Default(DefaultLogger(w, ltype))
    else if format == ModernFormat then Modern(ModernLogger(w, ltype))
    else Discard
  }
}
