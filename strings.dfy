/**
 * The two pieces of Go's `strings` package the log filter relies on:
 * `strings.FieldsFunc` (with a set of separator characters standing for the
 * predicate the filter passes) and `strings.Join`.
 */
module Strings {

  /** No character of `s` is in `xs`. */
  ghost predicate NoneOf(s: string, xs: set<char>)
  {
    forall j :: 0 <= j < |s| ==> s[j] !in xs
  }

  /** Every token is non-empty and contains no separator. */
  ghost predicate Words(ts: seq<string>, seps: set<char>)
  {
    forall i :: 0 <= i < |ts| ==> ts[i] != [] && NoneOf(ts[i], seps)
  }

  /** `s` does not start or end with `c` and never holds `c` twice in a row. */
  ghost predicate WellSpaced(s: string, c: char)
  {
    s == [] ||
    (s[0] != c && s[|s| - 1] != c &&
     forall i :: 0 <= i < |s| - 1 ==> s[i] != c || s[i + 1] != c)
  }

  /** Length of the longest prefix of `s` holding no separator. */
  function Span(s: string, seps: set<char>): (n: nat)
    ensures n <= |s|
    ensures NoneOf(s[..n], seps)
    ensures n < |s| ==> s[n] in seps
  {
    if s == [] || s[0] in seps then 0
    else
      var m := Span(s[1..], seps);
      assert s[..1 + m] == [s[0]] + s[1..][..m];
      1 + m
  }

  /**
   * `strings.FieldsFunc(s, f)` with `f(r) == r in seps`: the maximal runs of
   * non-separator characters, in order; runs of separators only delimit, so no
   * field is empty.
   */
  function Fields(s: string, seps: set<char>): (r: seq<string>)
    ensures Words(r, seps)
    decreases |s|
  {
    if s == [] then []
    else if s[0] in seps then Fields(s[1..], seps)
    else
      var n := Span(s, seps);
      [s[..n]] + Fields(s[n..], seps)
  }

  /** The summed length of the words. */
  ghost function TotalLength(ts: seq<string>): nat
  {
    if ts == [] then 0 else |ts[0]| + TotalLength(ts[1..])
  }

  /**
   * `strings.Join(ts, sep)`: the words in order with one `sep` between each
   * pair.
   */
  function Join(ts: seq<string>, sep: string): (r: string)
  {
    if |ts| == 0 then ""
    else if |ts| == 1 then ts[0]
    else ts[0] + sep + Join(ts[1..], sep)
  }

  /**
   * A join starts with the first word, ends with the last, and is as long as
   * the words plus one separator between each pair.
   */
  lemma {:induction false} JoinShape(ts: seq<string>, sep: string)
    ensures ts == [] ==> Join(ts, sep) == []
    ensures ts != [] ==> |Join(ts, sep)| == TotalLength(ts) + (|ts| - 1) * |sep|
    ensures ts != [] ==> |ts[0]| <= |Join(ts, sep)| && Join(ts, sep)[..|ts[0]|] == ts[0]
    ensures ts != [] ==> var r, w := Join(ts, sep), ts[|ts| - 1]; |w| <= |r| && r[|r| - |w|..] == w
  {
    if |ts| >= 2 {
      JoinShape(ts[1..], sep);
      assert ts[1..][|ts[1..]| - 1] == ts[|ts| - 1];
    }
  }

  lemma NoneOfConcat(a: string, b: string, xs: set<char>)
    ensures NoneOf(a + b, xs) <==> NoneOf(a, xs) && NoneOf(b, xs)
  {
    if NoneOf(a, xs) && NoneOf(b, xs) {
      forall j | 0 <= j < |a + b| ensures (a + b)[j] !in xs {
        if j >= |a| { assert (a + b)[j] == b[j - |a|]; }
      }
    }
    if NoneOf(a + b, xs) {
      forall j | 0 <= j < |a| ensures a[j] !in xs {
        assert (a + b)[j] == a[j];
      }
      forall j | 0 <= j < |b| ensures b[j] !in xs {
        assert (a + b)[|a| + j] == b[j];
      }
    }
  }

  /** A run that stops at a separator (or the end) stops there in any extension. */
  lemma {:induction false} SpanPrefix(a: string, b: string, seps: set<char>)
    requires b == [] || b[0] in seps
    ensures Span(a + b, seps) == Span(a, seps)
  {
    if a == [] {
      assert a + b == b;
    } else if a[0] !in seps {
      assert (a + b)[1..] == a[1..] + b;
      SpanPrefix(a[1..], b, seps);
    }
  }

  lemma {:induction false} SpanOfWord(w: string, seps: set<char>)
    requires NoneOf(w, seps)
    ensures Span(w, seps) == |w|
    decreases |w|
  {
    if w != [] {
      assert NoneOf(w[1..], seps) by {
        forall j | 0 <= j < |w[1..]| ensures w[1..][j] !in seps {
          assert w[1..][j] == w[j + 1];
        }
      }
      SpanOfWord(w[1..], seps);
    }
  }

  /** A non-empty separator-free string is a single field. */
  lemma FieldsOfWord(w: string, seps: set<char>)
    requires w != [] && NoneOf(w, seps)
    ensures Fields(w, seps) == [w]
  {
    SpanOfWord(w, seps);
    assert w[|w|..] == [];
    assert w[..|w|] == w;
  }

  /** Splitting at one separator character splits the fields. */
  lemma {:induction false} FieldsAtSeparator(a: string, c: char, b: string, seps: set<char>)
    requires c in seps
    ensures Fields(a + [c] + b, seps) == Fields(a, seps) + Fields(b, seps)
    decreases |a|
  {
    var s := a + [c] + b;
    if a == [] {
      assert s == [c] + b;
      assert s[1..] == b;
    } else if a[0] in seps {
      assert s[1..] == a[1..] + [c] + b;
      FieldsAtSeparator(a[1..], c, b, seps);
    } else {
      assert s == a + ([c] + b);
      SpanPrefix(a, [c] + b, seps);
      var n := Span(a, seps);
      assert s[..n] == a[..n];
      assert s[n..] == a[n..] + [c] + b;
      FieldsAtSeparator(a[n..], c, b, seps);
    }
  }

  lemma JoinCons(t: string, ts: seq<string>, sep: string)
    requires ts != []
    ensures Join([t] + ts, sep) == t + sep + Join(ts, sep)
  {
    assert ([t] + ts)[1..] == ts;
  }

  lemma {:induction false} JoinSnoc(ts: seq<string>, t: string, sep: string)
    requires ts != []
    ensures Join(ts + [t], sep) == Join(ts, sep) + sep + t
  {
    if |ts| == 1 {
      assert ts + [t] == [ts[0], t];
      assert [ts[0], t][1..] == [t];
    } else {
      assert (ts + [t])[1..] == ts[1..] + [t];
      JoinSnoc(ts[1..], t, sep);
    }
  }

  /** Tokenizing a join of words gives the words back. */
  lemma {:induction false} FieldsOfJoin(ts: seq<string>, c: char, seps: set<char>)
    requires c in seps && Words(ts, seps)
    ensures Fields(Join(ts, [c]), seps) == ts
  {
    if |ts| == 1 {
      FieldsOfWord(ts[0], seps);
    } else if |ts| > 1 {
      assert Words(ts[1..], seps) by {
        forall i | 0 <= i < |ts[1..]| ensures ts[1..][i] != [] && NoneOf(ts[1..][i], seps) {
          assert ts[1..][i] == ts[i + 1];
        }
      }
      FieldsAtSeparator(ts[0], c, Join(ts[1..], [c]), seps);
      FieldsOfWord(ts[0], seps);
      FieldsOfJoin(ts[1..], c, seps);
      assert ts == [ts[0]] + ts[1..];
    }
  }

  /** Joining the fields of a well-spaced string rebuilds the string. */
  lemma {:induction false} JoinOfFields(s: string, c: char)
    requires WellSpaced(s, c)
    ensures Join(Fields(s, {c}), [c]) == s
    decreases |s|
  {
    if s != [] {
      var n := Span(s, {c});
      if n == |s| {
        assert s[..n] == s;
        assert s[n..] == [];
      } else {
        assert s[n] == c;
        assert n < |s| - 1;
        var rest := s[n + 1..];
        assert s[n..][1..] == rest;
        assert rest[0] == s[n + 1] != c;
        assert WellSpaced(rest, c) by {
          forall i | 0 <= i < |rest| - 1 ensures rest[i] != c || rest[i + 1] != c {
            assert rest[i] == s[n + 1 + i] && rest[i + 1] == s[n + 2 + i];
          }
        }
        JoinOfFields(rest, c);
        var f := Fields(rest, {c});
        assert Fields(s, {c}) == [s[..n]] + f;
        assert f != [];
        assert ([s[..n]] + f)[1..] == f;
        assert s == s[..n] + [c] + rest;
      }
    }
  }

  /** Every field of a string lacking the characters `xs` lacks them too. */
  lemma {:induction false} FieldsNoneOf(s: string, seps: set<char>, xs: set<char>)
    requires NoneOf(s, xs)
    ensures forall i :: 0 <= i < |Fields(s, seps)| ==> NoneOf(Fields(s, seps)[i], xs)
    decreases |s|
  {
    if s != [] {
      assert NoneOf(s[1..], xs) by {
        forall j | 0 <= j < |s[1..]| ensures s[1..][j] !in xs { assert s[1..][j] == s[j + 1]; }
      }
      if s[0] in seps {
        FieldsNoneOf(s[1..], seps, xs);
      } else {
        var n := Span(s, seps);
        assert s == s[..n] + s[n..];
        NoneOfConcat(s[..n], s[n..], xs);
        FieldsNoneOf(s[n..], seps, xs);
      }
    }
  }
}
