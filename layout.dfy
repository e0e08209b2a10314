/**
 * What the two log filters do to one composed line: tokenize it on spaces,
 * find the location token, rewrite it (Modern format only), colour a span of
 * it and join it again with single spaces.
 */
module Layout {
  import opened Strings
  import opened Coloring

  const Space: set<char> := {' '}

  /** The separators of the `longFileSplit` predicate. */
  const LocationSeps: set<char> := {'/', ':'}

  /**
   * The sniff of `prefixEnd`: token 3 is the location when it starts with `/`
   * and ends with `:`; otherwise the location is taken to be token 2.
   */
  function PrefixEnd(format: seq<string>): (prefixEnd: nat)
    requires |format| >= 4 && format[3] != []
    ensures prefixEnd == 2 || prefixEnd == 3
    ensures prefixEnd == 3 <==> format[3][0] == '/' && format[3][|format[3]| - 1] == ':'
  {
    if format[3][0] == '/' && format[3][|format[3]| - 1] == ':' then 3 else 2
  }

  /** The location components: the token split on `/` and `:`. */
  function Components(location: string): (c: seq<string>)
    ensures Words(c, LocationSeps)
  {
    Fields(location, LocationSeps)
  }

  /** The Modern location token `[pkg][file][:line]` and a tab, from the last three components. */
  function ModernLocation(location: string): (r: string)
    requires |Components(location)| >= 3
    ensures |r| >= 2 && r[0] == '[' && r[|r| - 2..] == "]\t"
  {
    var c := Components(location);
    var k := |c|;
    "[" + c[k - 3] + "][" + c[k - 2] + "][:" + c[k - 1] + "]\t"
  }

  /** A line the Default writer can handle without indexing out of range. */
  ghost predicate DefaultAccepts(raw: string)
  {
    |Fields(raw, Space)| >= 4
  }

  /** A line the Modern writer can handle: also three location components. */
  ghost predicate ModernAccepts(raw: string)
  {
    DefaultAccepts(raw) &&
    var t := Fields(raw, Space);
    |Components(t[PrefixEnd(t)])| >= 3
  }

  /**
   * The tokens of a Modern line before colouring: the token count stays and
   * only the location token changes, to its Modern form.
   */
  function ModernTokens(t: seq<string>): (m: seq<string>)
    requires |t| >= 4 && Words(t, Space)
    requires |Components(t[PrefixEnd(t)])| >= 3
    ensures |m| == |t|
    ensures forall i :: 0 <= i < |t| && i != PrefixEnd(t) ==> m[i] == t[i]
    ensures m[PrefixEnd(t)] == ModernLocation(t[PrefixEnd(t)])
  {
    var pe := PrefixEnd(t);
    t[pe := ModernLocation(t[pe])]
  }

  /**
   * What `defaultLogger.Write` forwards for one composed line: a line that
   * splits into exactly the decorated tokens of the raw line.
   */
  function DefaultLine(colorFormating: ColorFormat, sev: Severity, raw: string): (r: string)
    requires DefaultAccepts(raw)
    ensures var t := Fields(raw, Space); Fields(r, Space) == Decorated(colorFormating, sev, PrefixEnd(t), t)
  {
    var t := Fields(raw, Space);
    DecoratedLineRetokenizes(colorFormating, sev, PrefixEnd(t), t);
    Join(Decorated(colorFormating, sev, PrefixEnd(t), t), " ")
  }

  /**
   * What `modernLogger.Write` forwards for one composed line: a line that
   * splits into exactly the decorated Modern tokens of the raw line.
   */
  function ModernLine(colorFormating: ColorFormat, sev: Severity, raw: string): (r: string)
    requires ModernAccepts(raw)
    ensures var t := Fields(raw, Space);
      Fields(r, Space) == Decorated(colorFormating, sev, PrefixEnd(t), ModernTokens(t))
  {
    var t := Fields(raw, Space);
    ModernTokensAreWords(t);
    DecoratedLineRetokenizes(colorFormating, sev, PrefixEnd(t), ModernTokens(t));
    Join(Decorated(colorFormating, sev, PrefixEnd(t), ModernTokens(t)), " ")
  }

  /**
   * For a `log.Llongfile` location `<dir>/<pkg>/<file>:<line>:` the Modern
   * token is `[<pkg>][<file>][:<line>]` and a tab, whatever the directory.
   */
  lemma {:induction false} ModernLocationOfLongfile(dir: string, pkg: string, file: string, line: string)
    requires Words([pkg, file, line], LocationSeps)
    ensures var loc := dir + "/" + pkg + "/" + file + ":" + line + ":";
      |Components(loc)| >= 3 &&
      ModernLocation(loc) == "[" + pkg + "][" + file + "][:" + line + "]\t"
  {
    var w := [pkg, file, line];
    assert w[0] == pkg && w[1] == file && w[2] == line;
    var loc := dir + "/" + pkg + "/" + file + ":" + line + ":";
    assert loc == dir + ['/'] + (pkg + ['/'] + (file + [':'] + (line + [':'] + "")));
    FieldsAtSeparator(line, ':', "", LocationSeps);
    FieldsAtSeparator(file, ':', line + [':'] + "", LocationSeps);
    FieldsAtSeparator(pkg, '/', file + [':'] + (line + [':'] + ""), LocationSeps);
    FieldsAtSeparator(dir, '/', pkg + ['/'] + (file + [':'] + (line + [':'] + "")), LocationSeps);
    FieldsOfWord(pkg, LocationSeps);
    FieldsOfWord(file, LocationSeps);
    FieldsOfWord(line, LocationSeps);
    var c := Components(loc);
    assert c == Fields(dir, LocationSeps) + [pkg, file, line];
  }

  /**
   * In a line the standard logger composes, `PREFIX: date time location: msg`
   * with a location starting with `/` and ending with `:`, the sniff finds the
   * location as token 3.
   */
  lemma LocationSniffed(prefix: string, date: string, time: string, loc: string, msg: seq<string>)
    requires Words([prefix, date, time, loc] + msg, Space)
    requires loc != [] && loc[0] == '/' && loc[|loc| - 1] == ':'
    ensures var t := Fields(Join([prefix, date, time, loc] + msg, " "), Space);
      |t| >= 4 && PrefixEnd(t) == 3 && t[3] == loc
  {
    FieldsOfJoin([prefix, date, time, loc] + msg, ' ', Space);
  }

  /** With no colour the Default writer forwards the fields joined by single spaces. */
  lemma DefaultNoColorIsJoin(sev: Severity, raw: string)
    requires DefaultAccepts(raw)
    ensures DefaultLine(NoColor, sev, raw) == Join(Fields(raw, Space), " ")
  {
    var t := Fields(raw, Space);
    NoColorIdentity(NoColor, sev, PrefixEnd(t), t);
  }

  /**
   * With no colour the Default writer forwards a line with no leading,
   * trailing or doubled spaces unchanged: the message after the location,
   * newline included, survives byte for byte.
   */
  lemma DefaultNoColorReproduces(sev: Severity, raw: string)
    requires DefaultAccepts(raw) && WellSpaced(raw, ' ')
    ensures DefaultLine(NoColor, sev, raw) == raw
  {
    DefaultNoColorIsJoin(sev, raw);
    JoinOfFields(raw, ' ');
  }

  /** Filtering a Default line without colour a second time changes nothing. */
  lemma DefaultNoColorIdempotent(sev: Severity, raw: string)
    requires DefaultAccepts(raw)
    ensures DefaultAccepts(DefaultLine(NoColor, sev, raw))
    ensures DefaultLine(NoColor, sev, DefaultLine(NoColor, sev, raw)) == DefaultLine(NoColor, sev, raw)
  {
    var t := Fields(raw, Space);
    DefaultNoColorIsJoin(sev, raw);
    FieldsOfJoin(t, ' ', Space);
    DefaultNoColorIsJoin(sev, DefaultLine(NoColor, sev, raw));
  }

  /** The forwarded line tokenizes back into exactly the decorated tokens. */
  lemma DecoratedLineRetokenizes(cf: ColorFormat, sev: Severity, prefixEnd: nat, t: seq<string>)
    requires Words(t, Space) && (TouchesPrefix(cf) ==> prefixEnd < |t|)
    ensures Fields(Join(Decorated(cf, sev, prefixEnd, t), " "), Space) == Decorated(cf, sev, prefixEnd, t)
  {
    DecoratedWords(cf, sev, prefixEnd, t);
    FieldsOfJoin(Decorated(cf, sev, prefixEnd, t), ' ', Space);
  }

  /** The Modern location token holds no space, so the Modern tokens are words. */
  lemma ModernTokensAreWords(t: seq<string>)
    requires |t| >= 4 && Words(t, Space)
    requires |Components(t[PrefixEnd(t)])| >= 3
    ensures Words(ModernTokens(t), Space)
  {
    var pe := PrefixEnd(t);
    var c := Components(t[pe]);
    var k := |c|;
    FieldsNoneOf(t[pe], LocationSeps, Space);
    assert NoneOf(c[k - 3], Space) && NoneOf(c[k - 2], Space) && NoneOf(c[k - 1], Space);
    NoneOfConcat("[", c[k - 3], Space);
    NoneOfConcat("[" + c[k - 3], "][", Space);
    NoneOfConcat("[" + c[k - 3] + "][", c[k - 2], Space);
    NoneOfConcat("[" + c[k - 3] + "][" + c[k - 2], "][:", Space);
    NoneOfConcat("[" + c[k - 3] + "][" + c[k - 2] + "][:", c[k - 1], Space);
    NoneOfConcat("[" + c[k - 3] + "][" + c[k - 2] + "][:" + c[k - 1], "]\t", Space);
  }

  /**
   * Under every Full* scheme the forwarded line, in either format, starts
   * with the severity's colour token and ends with the reset token; for
   * FullColor that leading token is the plain colour.
   */
  lemma FullColorFrame(cf: ColorFormat, sev: Severity, raw: string, modern: bool)
    requires Full(cf)
    requires if modern then ModernAccepts(raw) else DefaultAccepts(raw)
    ensures var line := if modern then ModernLine(cf, sev, raw) else DefaultLine(cf, sev, raw);
      var r := Fields(line, Space);
      && |r| >= 2
      && r[0] == (if cf == FullColor || cf == FullColorWithBoldMessage then Colors(sev) else BoldColors(sev))
      && r[|r| - 1] == Reset
  {
    var t := Fields(raw, Space);
    var pe := PrefixEnd(t);
    if modern {
      var m := ModernTokens(t);
      assert Fields(ModernLine(cf, sev, raw), Space) == Decorated(cf, sev, pe, m);
      DecoratedShape(cf, sev, pe, m);
    } else {
      assert Fields(DefaultLine(cf, sev, raw), Space) == Decorated(cf, sev, pe, t);
      DecoratedShape(cf, sev, pe, t);
    }
  }

  /**
   * A composed line with a `log.Llongfile` location, through the Modern
   * writer without colour: only the location token changes, to
   * `[<pkg>][<file>][:<line>]` and a tab.
   */
  lemma ModernNoColorOfComposed(sev: Severity, prefix: string, date: string, time: string,
                                dir: string, pkg: string, file: string, line: string, msg: seq<string>)
    requires var loc := dir + "/" + pkg + "/" + file + ":" + line + ":";
      Words([prefix, date, time, loc] + msg, Space)
    requires Words([pkg, file, line], LocationSeps)
    requires dir == [] || dir[0] == '/'
    ensures var loc := dir + "/" + pkg + "/" + file + ":" + line + ":";
      var raw := Join([prefix, date, time, loc] + msg, " ");
      ModernAccepts(raw) &&
      ModernLine(NoColor, sev, raw) ==
        Join([prefix, date, time, "[" + pkg + "][" + file + "][:" + line + "]\t"] + msg, " ")
  {
    var loc := dir + "/" + pkg + "/" + file + ":" + line + ":";
    assert loc[0] == '/' && loc[|loc| - 1] == ':';
    var ts := [prefix, date, time, loc] + msg;
    var raw := Join(ts, " ");
    FieldsOfJoin(ts, ' ', Space);
    ModernLocationOfLongfile(dir, pkg, file, line);
    var t := Fields(raw, Space);
    assert t == ts && PrefixEnd(t) == 3;
    var m := ModernTokens(t);
    assert m == [prefix, date, time, "[" + pkg + "][" + file + "][:" + line + "]\t"] + msg;
    NoColorIdentity(NoColor, sev, 3, m);
    assert ModernLine(NoColor, sev, raw) == Join(Decorated(NoColor, sev, 3, m), " ");
  }
}

/** The shapes of one INFO line through both writers, written out in full. */
module LayoutExamples {
  import opened Strings
  import opened Coloring
  import opened Layout

  /** `INFO: 2024/01/01 00:00:00 /src/pkg/file.go:10: Info\n`, as `log.Logger` composes it. */
  const InfoLine: string := "INFO:" + " " + "2024/01/01" + " " + "00:00:00" + " " + InfoLocation + " " + "Info\n"

  /** `/src/pkg/file.go:10:`, the `log.Llongfile` location. */
  const InfoLocation: string := "/src" + "/" + "pkg" + "/" + "file.go" + ":" + "10" + ":"

  /** The tokens the standard logger puts into `InfoLine`. */
  const InfoTokens: seq<string> := ["INFO:", "2024/01/01", "00:00:00", InfoLocation, "Info\n"]

  lemma JoinFive(a: string, b: string, c: string, d: string, e: string)
    ensures Join([a, b, c, d, e], " ") == a + " " + b + " " + c + " " + d + " " + e
  {
    assert Join([e], " ") == e;
    assert [d, e][1..] == [e];
    assert Join([d, e], " ") == d + " " + e;
    assert [c, d, e][1..] == [d, e];
    assert Join([c, d, e], " ") == c + " " + (d + " " + e);
    assert [b, c, d, e][1..] == [c, d, e];
    assert Join([b, c, d, e], " ") == b + " " + (c + " " + (d + " " + e));
    assert [a, b, c, d, e][1..] == [b, c, d, e];
    assert Join([a, b, c, d, e], " ") == a + " " + (b + " " + (c + " " + (d + " " + e)));
  }

  lemma InfoTokensOfLine()
    ensures Words(InfoTokens, Space)
    ensures InfoLine == Join(InfoTokens, " ")
    ensures Fields(InfoLine, Space) == InfoTokens
  {
    JoinFive("INFO:", "2024/01/01", "00:00:00", InfoLocation, "Info\n");
    assert Words(InfoTokens, Space);
    FieldsOfJoin(InfoTokens, ' ', Space);
  }

  /** The Default writer without colour forwards the line as it came, message and newline included. */
  lemma DefaultInfoLine()
    ensures DefaultAccepts(InfoLine)
    ensures DefaultLine(NoColor, INFO, InfoLine) == InfoLine
  {
    InfoTokensOfLine();
    DefaultNoColorIsJoin(INFO, InfoLine);
  }

  /** The Modern writer without colour rewrites only the location token. */
  lemma ModernInfoLine()
    ensures ModernAccepts(InfoLine)
    ensures ModernLine(NoColor, INFO, InfoLine) ==
      "INFO:" + " " + "2024/01/01" + " " + "00:00:00" + " " + ("[" + "pkg" + "][" + "file.go" + "][:" + "10" + "]\t") + " " + "Info\n"
  {
    InfoTokensOfLine();
    assert InfoTokens == ["INFO:", "2024/01/01", "00:00:00", InfoLocation] + ["Info\n"];
    assert Words(["pkg", "file.go", "10"], LocationSeps);
    ModernNoColorOfComposed(INFO, "INFO:", "2024/01/01", "00:00:00", "/src", "pkg", "file.go", "10", ["Info\n"]);
    var modern := "[" + "pkg" + "][" + "file.go" + "][:" + "10" + "]\t";
    assert ["INFO:", "2024/01/01", "00:00:00", modern] + ["Info\n"] == ["INFO:", "2024/01/01", "00:00:00", modern, "Info\n"];
    JoinFive("INFO:", "2024/01/01", "00:00:00", modern, "Info\n");
  }

  /** FullColor wraps the whole line, so the reset token follows the message's newline. */
  lemma FullColorInfoLine()
    ensures DefaultAccepts(InfoLine)
    ensures DefaultLine(FullColor, INFO, InfoLine) ==
      "\U{1B}[32m" + " " + InfoLine + " " + "\U{1B}[0m"
  {
    InfoTokensOfLine();
    ColorTables();
    assert Decorated(FullColor, INFO, 3, InfoTokens) == ["\U{1B}[32m"] + (InfoTokens + [Reset]);
    JoinCons("\U{1B}[32m", InfoTokens + [Reset], " ");
    JoinSnoc(InfoTokens, Reset, " ");
  }
}
