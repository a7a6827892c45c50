// `PopupSQLFormatter._format_lines` and `_strip_trailing_whitespace`
// (doc/build/builder/builders.py): the HTML formatter that interleaves SQL
// popups and links with the lines the stock Pygments HTML formatter produces.

module PopupSqlFormatter {
  import opened Text
  import opened Tokens

  /** One formatted line: the "is a source line" flag (1 for markup this
      formatter writes itself) and its HTML text. */
  type Line = (int, string)

  /** The stock `HtmlFormatter._format_lines`, whose internals are Pygments'
      own; the model only ever calls it on a buffered run of tokens. */
  type BaseFormat = seq<Token> -> seq<Line>

  /** The characters of the class `[{stop}|\n]`: a class, not the marker. */
  const SqlTailChars: set<char> := {'{', 's', 't', 'o', 'p', '}', '|', '\n'}

  const LinkMarkup := "<a href='#' class='sql_link'>sql</a>"

  /** `re.sub(r'(?:[{stop}|\n]*)$', '', value)`: the maximal trailing run of
      characters from SqlTailChars is removed (the first position where the
      pattern can match is the start of that run, since `\n` is in the class). */
  function StripSqlTail(value: string): (r: string)
    ensures r <= value
    ensures r == [] || r[|r| - 1] !in SqlTailChars
    ensures AllIn(value[|r|..], SqlTailChars)
  {
    TrimEnd(value, SqlTailChars)
  }

  /** Stripping the SQL tail twice is stripping it once. */
  lemma StripSqlTailIdempotent(value: string)
    ensures StripSqlTail(StripSqlTail(value)) == StripSqlTail(value)
  {
    TrimEndIdempotent(value, SqlTailChars);
  }

  /** The popup body of a typical statement loses its marker and newline;
      because the pattern is a character class, a lower-case `t` (or `s`,
      `o`, `p`) just before the marker goes with it. */
  lemma StripSqlTailExamples()
    ensures StripSqlTail("SELECT 1{stop}\n") == "SELECT 1"
    ensures StripSqlTail("SELECT * FROM t{stop}\n") == "SELECT * FROM "
  {
    var a := "SELECT 1{stop}\n";
    assert a == "SELECT 1" + "{stop}\n";
    assert IsTrimmedEnd(a, SqlTailChars, "SELECT 1");
    TrimEndUnique(a, SqlTailChars, "SELECT 1");
    var b := "SELECT * FROM t{stop}\n";
    assert b == "SELECT * FROM " + "t{stop}\n";
    assert IsTrimmedEnd(b, SqlTailChars, "SELECT * FROM ");
    TrimEndUnique(b, SqlTailChars, "SELECT * FROM ");
  }

  /** The markup written for one SQL-family token: `Sql` and `Sql.Popup`
      wrap their stripped text in a div, `Sql.Link` is a fixed anchor that
      ignores its text, `Sql.Open` writes nothing. Every line is tagged 1. */
  function SqlMarkup(t: Token): (r: seq<Line>)
    requires InSqlFamily(t.kind)
    ensures |r| <= 1 && (r == [] <==> t.kind == SqlOpen)
    ensures forall i :: 0 <= i < |r| ==> r[i].0 == 1
    ensures t.kind == SqlLink ==> r == [(1, LinkMarkup)]
  {
    if t.kind == Sql then [(1, "<div class='show_sql'>" + StripSqlTail(t.value) + "</div>")]
    else if t.kind == SqlLink then [(1, LinkMarkup)]
    else if t.kind == SqlPopup then [(1, "<div class='popup_sql'>" + StripSqlTail(t.value) + "</div>")]
    else []
  }

  /** What `_strip_trailing_whitespace` yields: the same lines, the last one
      with its text right-stripped and its flag kept. */
  function StripLast<K>(lines: seq<(K, string)>): (r: seq<(K, string)>)
    ensures |r| == |lines|
    ensures forall i :: 0 <= i < |lines| - 1 ==> r[i] == lines[i]
    ensures |lines| > 0 ==> r[|r| - 1].0 == lines[|lines| - 1].0
    ensures |lines| > 0 ==> r[|r| - 1].1 == RStrip(lines[|lines| - 1].1)
  {
    if lines == [] then []
    else lines[..|lines| - 1] + [(lines[|lines| - 1].0, RStrip(lines[|lines| - 1].1))]
  }

  /** `_strip_trailing_whitespace`: copies the stream into a list and
      overwrites its last entry. */
  method StripTrailingWhitespace<K>(source: seq<(K, string)>) returns (out: seq<(K, string)>)
    ensures out == StripLast(source)
  {
    var buf := source;
    if |buf| > 0 {
      buf := buf[|buf| - 1 := (buf[|buf| - 1].0, RStrip(buf[|buf| - 1].1))];
    }
    out := buf;
  }

  /** The output of the loop from the point where `pending` remains to be
      read and `buf` holds the non-SQL tokens not yet flushed. */
  function Emit(base: BaseFormat, pending: seq<Token>, buf: seq<Token>): seq<Line>
    decreases |pending|
  {
    if pending == [] then StripLast(base(buf))
    else if InSqlFamily(pending[0].kind) then base(buf) + SqlMarkup(pending[0]) + Emit(base, pending[1..], [])
    else Emit(base, pending[1..], buf + [pending[0]])
  }

  /** The lines `PopupSQLFormatter._format_lines` yields for a token source. */
  function FormatLinesSpec(base: BaseFormat, tokens: seq<Token>): seq<Line>
  {
    Emit(base, StripDoctest(tokens), [])
  }

  /** One step of Emit on a non-empty remainder, behind the lines `done`
      already written. */
  lemma EmitStep(base: BaseFormat, done: seq<Line>, pending: seq<Token>, buf: seq<Token>)
    requires pending != []
    ensures done + Emit(base, pending, buf) ==
      if InSqlFamily(pending[0].kind) then done + base(buf) + SqlMarkup(pending[0]) + Emit(base, pending[1..], [])
      else done + Emit(base, pending[1..], buf + [pending[0]])
  {
    if InSqlFamily(pending[0].kind) {
      var flushed, markup, rest := base(buf), SqlMarkup(pending[0]), Emit(base, pending[1..], []);
      assert Emit(base, pending, buf) == flushed + markup + rest;
      assert done + (flushed + markup + rest) == done + flushed + markup + rest;
    }
  }

  /** `PopupSQLFormatter._format_lines`: filter out doctest comments, buffer
      non-SQL tokens, flush the buffer through the base formatter at each
      SQL-family token and write that token's markup, and flush the rest at
      the end with the last line right-stripped. */
  method FormatLines(base: BaseFormat, tokens: seq<Token>) returns (lines: seq<Line>)
    ensures lines == FormatLinesSpec(base, tokens)
  {
    var stream := StripDoctest(tokens);
    var buf: seq<Token> := [];
    lines := [];
    var i := 0;
    while i < |stream|
      invariant 0 <= i <= |stream|
      invariant lines + Emit(base, stream[i..], buf) == Emit(base, stream, [])
    {
      var t := stream[i];
      EmitStep(base, lines, stream[i..], buf);
      assert stream[i..][0] == t && stream[i..][1..] == stream[i + 1..];
      if InSqlFamily(t.kind) {
        lines := lines + base(buf);
        buf := [];
        ghost var flushed := lines;
        if t.kind == Sql {
          lines := lines + [(1, "<div class='show_sql'>" + StripSqlTail(t.value) + "</div>")];
        } else if t.kind == SqlLink {
          lines := lines + [(1, LinkMarkup)];
        } else if t.kind == SqlPopup {
          lines := lines + [(1, "<div class='popup_sql'>" + StripSqlTail(t.value) + "</div>")];
        }
        assert lines == flushed + SqlMarkup(t);
      } else {
        buf := buf + [t];
      }
      i := i + 1;
    }
    var tail := StripTrailingWhitespace(base(buf));
    lines := lines + tail;
  }

  /** Without SQL tokens the loop only buffers. */
  lemma {:induction false} EmitNoSql(base: BaseFormat, pending: seq<Token>, buf: seq<Token>)
    requires NoSql(pending)
    ensures Emit(base, pending, buf) == StripLast(base(buf + pending))
    decreases |pending|
  {
    if pending == [] {
      assert buf + pending == buf;
    } else {
      assert !InSqlFamily(pending[0].kind);
      assert NoSql(pending[1..]) by {
        forall i | 0 <= i < |pending[1..]| ensures !InSqlFamily(pending[1..][i].kind) {
          assert pending[1..][i] == pending[i + 1];
        }
      }
      EmitNoSql(base, pending[1..], buf + [pending[0]]);
      assert buf + [pending[0]] + pending[1..] == buf + pending;
    }
  }

  /** Reaching a SQL token, the loop flushes everything buffered since the
      previous one, writes the token's markup and starts a fresh buffer. */
  lemma {:induction false} EmitAtSql(base: BaseFormat, p: seq<Token>, t: Token, q: seq<Token>, buf: seq<Token>)
    requires NoSql(p) && InSqlFamily(t.kind)
    ensures Emit(base, p + [t] + q, buf) == base(buf + p) + SqlMarkup(t) + Emit(base, q, [])
    decreases |p|
  {
    var s := p + [t] + q;
    if p == [] {
      assert s[0] == t && s[1..] == q;
      assert buf + p == buf;
    } else {
      assert s[0] == p[0] && s[1..] == p[1..] + [t] + q;
      assert !InSqlFamily(p[0].kind);
      assert NoSql(p[1..]) by {
        forall i | 0 <= i < |p[1..]| ensures !InSqlFamily(p[1..][i].kind) {
          assert p[1..][i] == p[i + 1];
        }
      }
      EmitAtSql(base, p[1..], t, q, buf + [p[0]]);
      assert buf + [p[0]] + p[1..] == buf + p;
    }
  }

  /** For a stream with no SQL-family token the output is the base
      formatter's output on the doctest-filtered stream, only the final
      line right-stripped. */
  lemma FormatLinesNoSql(base: BaseFormat, tokens: seq<Token>)
    requires NoSql(tokens)
    ensures FormatLinesSpec(base, tokens) == StripLast(base(StripDoctest(tokens)))
  {
    EmitNoSql(base, StripDoctest(tokens), []);
    assert [] + StripDoctest(tokens) == StripDoctest(tokens);
  }

  /** A SQL-family token first flushes the non-SQL tokens before it through
      the base formatter, then writes its own markup in place; the rest of
      the stream is formatted afresh. With FormatLinesNoSql this determines
      the whole output. */
  lemma FormatLinesAtSql(base: BaseFormat, a: seq<Token>, t: Token, b: seq<Token>)
    requires NoSql(a) && InSqlFamily(t.kind)
    ensures FormatLinesSpec(base, a + [t] + b)
         == base(StripDoctest(a)) + SqlMarkup(t) + FormatLinesSpec(base, b)
  {
    StripDoctestAppend(a + [t], b);
    StripDoctestAppend(a, [t]);
    StripDoctestSingle(t);
    EmitAtSql(base, StripDoctest(a), t, StripDoctest(b), []);
    assert [] + StripDoctest(a) == StripDoctest(a);
  }

  /** The popup markup for a one-statement body. */
  lemma PopupMarkupExample()
    ensures SqlMarkup(Token(SqlPopup, "SELECT 1{stop}\n")) == [(1, "<div class='popup_sql'>SELECT 1</div>")]
  {
    StripSqlTailExamples();
    assert "<div class='popup_sql'>" + "SELECT 1" + "</div>" == "<div class='popup_sql'>SELECT 1</div>";
  }

  /** A lone popup: a flush of the empty buffer, the popup body without its
      marker, and the final flush of the empty buffer. */
  lemma FormatLinesPopupExample(base: BaseFormat)
    ensures FormatLinesSpec(base, [Token(SqlPopup, "SELECT 1{stop}\n")])
         == base([]) + [(1, "<div class='popup_sql'>SELECT 1</div>")] + StripLast(base([]))
  {
    var popup := Token(SqlPopup, "SELECT 1{stop}\n");
    assert [popup] == [] + [popup] + [];
    FormatLinesAtSql(base, [], popup, []);
    PopupMarkupExample();
    assert StripDoctest([]) == [];
    assert FormatLinesSpec(base, []) == StripLast(base([]));
  }

  /** `x` then `{sql}` then a popup: the Python line, the link, then the
      lines of the lone popup. */
  lemma FormatLinesExample(base: BaseFormat)
    ensures FormatLinesSpec(base, [Token(Other("Name"), "x"), Token(SqlLink, "{sql}"), Token(SqlPopup, "SELECT 1{stop}\n")])
         == base([Token(Other("Name"), "x")]) + [(1, LinkMarkup)]
            + base([]) + [(1, "<div class='popup_sql'>SELECT 1</div>")] + StripLast(base([]))
  {
    var x := Token(Other("Name"), "x");
    var link := Token(SqlLink, "{sql}");
    var popup := Token(SqlPopup, "SELECT 1{stop}\n");
    assert [x, link, popup] == [x] + [link] + [popup];
    assert NoSql([x]);
    FormatLinesAtSql(base, [x], link, [popup]);
    assert !IsDoctestComment(x);
    StripDoctestKeeps([x]);
    assert SqlMarkup(link) == [(1, LinkMarkup)];
    ghost var head := base([x]) + [(1, LinkMarkup)];
    assert FormatLinesSpec(base, [x, link, popup]) == head + FormatLinesSpec(base, [popup]);
    FormatLinesPopupExample(base);
    ghost var c, d, e := base([]), [(1, "<div class='popup_sql'>SELECT 1</div>")], StripLast(base([]));
    assert head + (c + d + e) == head + c + d + e;
  }
}
