/**
 * Severities, the ANSI SGR colour sequences chosen for them, the seven
 * colouring schemes and `addColor`, which wraps a span of a tokenized log
 * line in those sequences.
 */
module Coloring {
  import opened Strings

  /** The log types, in the order of their Go `iota` values 0..4. */
  datatype Severity = TRACE | INFO | WARNING | ERROR | FATAL

  // Terminal colour codes 30..37, as `colorType`.
  const ColorBlack: nat := 30
  const ColorRed: nat := 31
  const ColorGreen: nat := 32
  const ColorYellow: nat := 33
  const ColorBlue: nat := 34
  const ColorMagenta: nat := 35
  const ColorCyan: nat := 36
  const ColorWhite: nat := 37

  const Esc: char := '\U{1B}'

  /** The reset sequence `ESC[0m`. */
  const Reset: string := "\U{1B}[0m"

  ghost predicate AllDigits(s: string)
  {
    forall j :: 0 <= j < |s| ==> '0' <= s[j] <= '9'
  }

  function DigitChar(d: nat): (ch: char)
    requires d < 10
    ensures '0' <= ch <= '9'
  {
    ('0' as int + d) as char
  }

  /** `%d` of a non-negative integer: its decimal digits, most significant first. */
  function Decimal(n: nat): (s: string)
    ensures s != [] && AllDigits(s)
  {
    if n < 10 then [DigitChar(n)] else Decimal(n / 10) + [DigitChar(n % 10)]
  }

  /** Reads a string of decimal digits back as a number. */
  function ParseDecimal(s: string): (n: nat)
    requires s != [] && AllDigits(s)
  {
    var d := s[|s| - 1] as int - '0' as int;
    if |s| == 1 then d else 10 * ParseDecimal(s[..|s| - 1]) + d
  }

  lemma {:induction false} DecimalRoundTrip(n: nat)
    ensures ParseDecimal(Decimal(n)) == n
  {
    if n >= 10 {
      var s := Decimal(n);
      assert s[..|s| - 1] == Decimal(n / 10);
      DecimalRoundTrip(n / 10);
    }
  }

  /**
   * `r` is an SGR sequence for `code`: `ESC[`, then digits that read back as
   * `code`, then `tail`.
   */
  ghost predicate SgrOf(r: string, code: nat, tail: string)
  {
    && |r| >= 3 + |tail|
    && r[..2] == [Esc, '[']
    && r[|r| - |tail|..] == tail
    && AllDigits(r[2..|r| - |tail|])
    && ParseDecimal(r[2..|r| - |tail|]) == code
  }

  /** `colorSeq`: `ESC[<code>m`. */
  function ColorSeq(color: nat): (r: string)
  {
    [Esc, '['] + Decimal(color) + "m"
  }

  /** `colorSeqBold`: `ESC[<code>;1m`. */
  function ColorSeqBold(color: nat): (r: string)
  {
    [Esc, '['] + Decimal(color) + ";1m"
  }

  /** Both sequences carry the code in digits that read back as the code. */
  lemma ColorSeqReadsBack(color: nat)
    ensures SgrOf(ColorSeq(color), color, "m")
    ensures SgrOf(ColorSeqBold(color), color, ";1m")
  {
    var s, t := ColorSeq(color), ColorSeqBold(color);
    assert s[2..|s| - 1] == Decimal(color);
    assert t[2..|t| - 3] == Decimal(color);
    DecimalRoundTrip(color);
  }

  /** Distinct colour codes give distinct sequences, plain and bold alike. */
  lemma ColorSeqInjective(a: nat, b: nat)
    ensures ColorSeq(a) == ColorSeq(b) ==> a == b
    ensures ColorSeqBold(a) == ColorSeqBold(b) ==> a == b
  {
    ColorSeqReadsBack(a);
    ColorSeqReadsBack(b);
  }

  /** A plain sequence is never a bold one. */
  lemma PlainIsNotBold(a: nat, b: nat)
    ensures ColorSeq(a) != ColorSeqBold(b)
  {
    var s, t, k := ColorSeq(a), ColorSeqBold(b), |Decimal(b)|;
    assert t[2 + k] == ';';
    assert 2 + k < |s| ==> s[2 + k] != ';' by {
      if 2 + k < |s| - 1 { assert s[2 + k] == Decimal(a)[k]; }
    }
  }

  /** The colour code of each severity (the `colors`/`boldcolors` tables). */
  function Code(sev: Severity): (c: nat)
    ensures ColorBlack <= c <= ColorWhite
  {
    match sev
    case TRACE => ColorCyan
    case INFO => ColorGreen
    case WARNING => ColorYellow
    case ERROR => ColorRed
    case FATAL => ColorMagenta
  }

  /** `colors[lType]`: the plain sequence of the severity's code. */
  function Colors(sev: Severity): (r: string)
  {
    ColorSeq(Code(sev))
  }

  /** `boldcolors[lType]`: the bold sequence of the severity's code. */
  function BoldColors(sev: Severity): (r: string)
  {
    ColorSeqBold(Code(sev))
  }

  /** The tables hold the literal sequences of the five severities. */
  lemma ColorTables()
    ensures Colors(TRACE) == "\U{1B}[36m" && BoldColors(TRACE) == "\U{1B}[36;1m"
    ensures Colors(INFO) == "\U{1B}[32m" && BoldColors(INFO) == "\U{1B}[32;1m"
    ensures Colors(WARNING) == "\U{1B}[33m" && BoldColors(WARNING) == "\U{1B}[33;1m"
    ensures Colors(ERROR) == "\U{1B}[31m" && BoldColors(ERROR) == "\U{1B}[31;1m"
    ensures Colors(FATAL) == "\U{1B}[35m" && BoldColors(FATAL) == "\U{1B}[35;1m"
  {
    TableEntry(TRACE, '3', '6');
    TableEntry(INFO, '3', '2');
    TableEntry(WARNING, '3', '3');
    TableEntry(ERROR, '3', '1');
    TableEntry(FATAL, '3', '5');
  }

  /** One row of the tables, for a two-digit code. */
  lemma TableEntry(sev: Severity, hi: char, lo: char)
    requires Decimal(Code(sev)) == [hi, lo]
    ensures Colors(sev) == [Esc, '[', hi, lo, 'm']
    ensures BoldColors(sev) == [Esc, '[', hi, lo, ';', '1', 'm']
  {
  }

  /** Every severity has its own colour, plain and bold, and no plain one is bold. */
  lemma ColorsDistinct(a: Severity, b: Severity)
    ensures Colors(a) == Colors(b) ==> a == b
    ensures BoldColors(a) == BoldColors(b) ==> a == b
    ensures Colors(a) != BoldColors(b)
  {
    ColorSeqInjective(Code(a), Code(b));
    PlainIsNotBold(Code(a), Code(b));
  }

  /** Colour sequences are single non-empty tokens: they hold no space. */
  lemma ColorsAreWords(sev: Severity)
    ensures Colors(sev) != [] && NoneOf(Colors(sev), {' '})
    ensures BoldColors(sev) != [] && NoneOf(BoldColors(sev), {' '})
    ensures Reset != [] && NoneOf(Reset, {' '})
  {
    var d := Decimal(Code(sev));
    assert NoneOf(d, {' '}) by {
      forall j | 0 <= j < |d| ensures d[j] !in {' '} { assert '0' <= d[j] <= '9'; }
    }
    NoneOfConcat([Esc, '['], d, {' '});
    NoneOfConcat([Esc, '['] + d, "m", {' '});
    NoneOfConcat([Esc, '['] + d, ";1m", {' '});
  }

  // The values of `colorFormat`. Any other value colours nothing.
  type ColorFormat = int
  const NoColor: ColorFormat := 0
  const PrefixColor: ColorFormat := 1
  const PrefixBoldColor: ColorFormat := 2
  const FullColor: ColorFormat := 3
  const FullBoldColor: ColorFormat := 4
  const FullColorWithBoldMessage: ColorFormat := 5
  const FullColorWithBoldPrefix: ColorFormat := 6

  /** The schemes that colour something at all. */
  predicate Colored(cf: ColorFormat)
  {
    PrefixColor <= cf <= FullColorWithBoldPrefix
  }

  /** The four Full* schemes, which close the line with a reset token. */
  predicate Full(cf: ColorFormat)
  {
    FullColor <= cf <= FullColorWithBoldPrefix
  }

  /** The schemes that append something to the token at `prefixEnd`. */
  predicate TouchesPrefix(cf: ColorFormat)
  {
    cf == PrefixColor || cf == PrefixBoldColor ||
    cf == FullColorWithBoldMessage || cf == FullColorWithBoldPrefix
  }

  // The three columns of the scheme table: the leading token, the text
  // appended to the token at `prefixEnd`, and the trailing token.

  function Lead(cf: ColorFormat, sev: Severity): (r: seq<string>)
    ensures |r| == if Colored(cf) then 1 else 0
  {
    if cf == PrefixColor || cf == FullColor || cf == FullColorWithBoldMessage then [Colors(sev)]
    else if cf == PrefixBoldColor || cf == FullBoldColor || cf == FullColorWithBoldPrefix then [BoldColors(sev)]
    else []
  }

  function Suffix(cf: ColorFormat, sev: Severity): (r: string)
    ensures r == [] <==> !TouchesPrefix(cf)
  {
    if cf == PrefixColor || cf == PrefixBoldColor then Reset
    else if cf == FullColorWithBoldMessage then BoldColors(sev)
    else if cf == FullColorWithBoldPrefix then Colors(sev)
    else ""
  }

  function Trail(cf: ColorFormat): (r: seq<string>)
    ensures |r| == if Full(cf) then 1 else 0
  {
    if Full(cf) then [Reset] else []
  }

  /**
   * The decorated token sequence, read off the scheme table: a colouring
   * scheme adds one leading token, and a Full* scheme one more at the end.
   */
  function Decorated(cf: ColorFormat, sev: Severity, prefixEnd: nat, t: seq<string>): (r: seq<string>)
    requires TouchesPrefix(cf) ==> prefixEnd < |t|
    ensures |r| == |t| + (if !Colored(cf) then 0 else if Full(cf) then 2 else 1)
  {
    Lead(cf, sev) + (if TouchesPrefix(cf) then t[prefixEnd := t[prefixEnd] + Suffix(cf, sev)] else t) + Trail(cf)
  }

  /**
   * `addColor`: the switch on the colour scheme, rewriting the token at
   * `prefixEnd` and prepending (and for Full* appending) colour tokens.
   */
  method AddColor(colorFormating: ColorFormat, lType: Severity, prefixEnd: nat, message: seq<string>)
    returns (r: seq<string>)
    requires TouchesPrefix(colorFormating) ==> prefixEnd < |message|
    ensures r == Decorated(colorFormating, lType, prefixEnd, message)
  {
    r := message;
    if colorFormating == PrefixColor {
      var col := Colors(lType);
      r := r[prefixEnd := r[prefixEnd] + Reset];
      r := [col] + r;
    } else if colorFormating == PrefixBoldColor {
      var col := BoldColors(lType);
      r := r[prefixEnd := r[prefixEnd] + Reset];
      r := [col] + r;
    } else if colorFormating == FullColor {
      var col := Colors(lType);
      r := [col] + r;
      r := r + [Reset];
    } else if colorFormating == FullBoldColor {
      var col := BoldColors(lType);
      r := [col] + r;
      r := r + [Reset];
    } else if colorFormating == FullColorWithBoldMessage {
      var col, bcol := Colors(lType), BoldColors(lType);
      r := r[prefixEnd := r[prefixEnd] + bcol];
      r := [col] + r;
      r := r + [Reset];
    } else if colorFormating == FullColorWithBoldPrefix {
      var col, bcol := Colors(lType), BoldColors(lType);
      r := r[prefixEnd := r[prefixEnd] + col];
      r := [bcol] + r;
      r := r + [Reset];
    }
  }

  /** Under NoColor, and any value outside the seven schemes, nothing changes. */
  lemma NoColorIdentity(cf: ColorFormat, sev: Severity, prefixEnd: nat, t: seq<string>)
    requires !Colored(cf)
    ensures Decorated(cf, sev, prefixEnd, t) == t
  {
  }

  /**
   * Every colouring scheme adds one leading colour token (bold exactly for
   * PrefixBoldColor, FullBoldColor and FullColorWithBoldPrefix), the four Full*
   * schemes one trailing reset, and otherwise only extends the token at
   * `prefixEnd` by the scheme's suffix; all other tokens keep their place.
   */
  lemma DecoratedShape(cf: ColorFormat, sev: Severity, prefixEnd: nat, t: seq<string>)
    requires Colored(cf) && (TouchesPrefix(cf) ==> prefixEnd < |t|)
    ensures var r := Decorated(cf, sev, prefixEnd, t);
      && |r| == |t| + (if Full(cf) then 2 else 1)
      && r[0] == (if cf == PrefixBoldColor || cf == FullBoldColor || cf == FullColorWithBoldPrefix
                  then BoldColors(sev) else Colors(sev))
      && (Full(cf) ==> r[|r| - 1] == Reset)
      && (forall i :: 0 <= i < |t| && i != prefixEnd ==> r[i + 1] == t[i])
      && (prefixEnd < |t| ==> r[prefixEnd + 1] == t[prefixEnd] + Suffix(cf, sev))
      && (Suffix(cf, sev) == "" <==> !TouchesPrefix(cf))
  {
    ColorsAreWords(sev);
  }

  /** Decorating words with colour tokens yields words again. */
  lemma DecoratedWords(cf: ColorFormat, sev: Severity, prefixEnd: nat, t: seq<string>)
    requires Words(t, {' '}) && (TouchesPrefix(cf) ==> prefixEnd < |t|)
    ensures Words(Decorated(cf, sev, prefixEnd, t), {' '})
  {
    ColorsAreWords(sev);
    var m := if TouchesPrefix(cf) then t[prefixEnd := t[prefixEnd] + Suffix(cf, sev)] else t;
    if TouchesPrefix(cf) {
      NoneOfConcat(t[prefixEnd], Suffix(cf, sev), {' '});
    }
    assert Words(m, {' '});
    var r := Decorated(cf, sev, prefixEnd, t);
    forall i | 0 <= i < |r| ensures r[i] != [] && NoneOf(r[i], {' '}) {
      var l := |Lead(cf, sev)|;
      if i >= l && i < l + |m| {
        assert r[i] == m[i - l];
      }
    }
  }
}
