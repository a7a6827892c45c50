// `PopupLatexFormatter._filter_tokens` (doc/build/builder/builders.py): the
// token rewrite applied before the stock Pygments LaTeX formatter runs.

module PopupLatexFormatter {
  import opened Tokens

  const StopMarker := "{stop}"

  /** `s` begins with the marker `{stop}`, character by character. */
  predicate StartsWithStop(s: string)
  {
    |s| >= 6 && s[0] == '{' && s[1] == 's' && s[2] == 't' && s[3] == 'o' && s[4] == 'p' && s[5] == '}'
  }

  /** The marker starts at index `i` of `s`. */
  predicate MarkerAt(s: string, i: int)
  {
    0 <= i <= |s| && StartsWithStop(s[i..])
  }

  /** `re.sub(r'{stop}', '', value)`: the pattern is the literal marker;
      occurrences are found in one left-to-right scan and deleted. A marker
      that only appears once another is deleted stays. */
  function RemoveStop(s: string): (r: string)
    ensures |r| <= |s|
    decreases |s|
  {
    if s == [] then []
    else if StartsWithStop(s) then RemoveStop(s[6..])
    else [s[0]] + RemoveStop(s[1..])
  }

  /** A text in which the marker never occurs is left unchanged. */
  lemma {:induction false} RemoveStopNoMarker(s: string)
    requires forall i :: 0 <= i <= |s| ==> !MarkerAt(s, i)
    ensures RemoveStop(s) == s
    decreases |s|
  {
    if s != [] {
      assert !MarkerAt(s, 0) && s[0..] == s;
      forall i | 0 <= i <= |s[1..]| ensures !MarkerAt(s[1..], i) {
        assert !MarkerAt(s, i + 1) && s[1..][i..] == s[i + 1..];
      }
      RemoveStopNoMarker(s[1..]);
    }
  }

  /** A text without `{` holds no marker and is left unchanged. */
  lemma {:induction false} RemoveStopNoBrace(s: string)
    requires '{' !in s
    ensures RemoveStop(s) == s
    decreases |s|
  {
    if s != [] {
      assert s[0] != '{';
      assert '{' !in s[1..] by {
        forall i | 0 <= i < |s[1..]| ensures s[1..][i] != '{' {
          assert s[1..][i] == s[i + 1];
        }
      }
      RemoveStopNoBrace(s[1..]);
    }
  }

  /** A marker at the front is deleted. */
  lemma RemoveStopAtMarker(b: string)
    ensures RemoveStop(StopMarker + b) == RemoveStop(b)
  {
    assert (StopMarker + b)[6..] == b;
  }

  /** A prefix in which no marker starts is copied, the marker after it is
      deleted and the scan resumes behind it. */
  lemma {:induction false} RemoveStopAround(a: string, b: string)
    requires forall i :: 0 <= i < |a| ==> !MarkerAt(a + StopMarker + b, i)
    ensures RemoveStop(a + StopMarker + b) == a + RemoveStop(b)
    decreases |a|
  {
    var s := a + StopMarker + b;
    if a == [] {
      assert s == StopMarker + b;
      RemoveStopAtMarker(b);
    } else {
      assert !MarkerAt(s, 0) && s[0..] == s;
      assert RemoveStop(s) == [a[0]] + RemoveStop(s[1..]);
      assert s[1..] == a[1..] + StopMarker + b;
      forall i | 0 <= i < |a[1..]| ensures !MarkerAt(a[1..] + StopMarker + b, i) {
        assert !MarkerAt(s, i + 1) && s[1..][i..] == s[i + 1..];
      }
      RemoveStopAround(a[1..], b);
      assert [a[0]] + a[1..] == a;
    }
  }

  /** No marker starts inside a prefix without `{`. */
  lemma NoMarkerInBraceless(a: string, b: string)
    requires '{' !in a
    ensures forall i :: 0 <= i < |a| ==> !MarkerAt(a + StopMarker + b, i)
  {
    forall i | 0 <= i < |a| ensures !MarkerAt(a + StopMarker + b, i) {
      assert (a + StopMarker + b)[i..][0] == a[i];
    }
  }

  /** A stray brace before the marker is copied: `{x}{stop}` becomes `{x}`. */
  lemma RemoveStopStrayBrace()
    ensures RemoveStop("{x}{stop}") == "{x}"
  {
    var s := "{x}{stop}";
    assert s == "{x}" + StopMarker + "";
    assert s[0..][1] == 'x' && s[1..][0] == 'x' && s[2..][0] == '}';
    RemoveStopAround("{x}", "");
  }

  /** The scan is single-pass: `{st{stop}op}` becomes `{stop}`. */
  lemma RemoveStopSinglePass()
    ensures RemoveStop("{st{stop}op}") == StopMarker
  {
    var s := "{st{stop}op}";
    assert s[3] == '{';
    assert s[1..] == "st{stop}op}";
    NoMarkerInBraceless("st", "op}");
    RemoveStopAround("st", "op}");
    assert "st" + StopMarker + "op}" == "st{stop}op}";
    RemoveStopNoBrace("op}");
    assert [s[0]] + "st" + "op}" == StopMarker;
  }

  /** One token after the doctest filter: `Sql.Link` and `Sql.Open` vanish,
      the other SQL-family kinds become `Literal` text without markers, and
      everything else passes unchanged. */
  function RewriteToken(t: Token): (r: seq<Token>)
    ensures |r| <= 1
    ensures forall i :: 0 <= i < |r| ==> !InSqlFamily(r[i].kind)
    ensures r == [] <==> t.kind == SqlLink || t.kind == SqlOpen
    ensures !InSqlFamily(t.kind) ==> r == [t]
    ensures (t.kind == Sql || t.kind == SqlPopup) ==> r == [Token(Literal, RemoveStop(t.value))]
  {
    if InSqlFamily(t.kind) then
      if t.kind != SqlLink && t.kind != SqlOpen then [Token(Literal, RemoveStop(t.value))] else []
    else [t]
  }

  /** The generator loop over an already filtered stream. */
  function RewriteAll(ts: seq<Token>): (r: seq<Token>)
    ensures |r| <= |ts|
    ensures NoSql(r)
  {
    if ts == [] then [] else RewriteToken(ts[0]) + RewriteAll(ts[1..])
  }

  /** `PopupLatexFormatter._filter_tokens`: doctest comments removed first,
      then each token rewritten in order. */
  function FilterTokens(tokens: seq<Token>): (r: seq<Token>)
    ensures |r| <= |tokens|
    ensures NoSql(r)
  {
    RewriteAll(StripDoctest(tokens))
  }

  /** Number of `Sql.Link` and `Sql.Open` tokens in a stream. */
  function DroppedCount(ts: seq<Token>): nat
  {
    if ts == [] then 0
    else (if ts[0].kind == SqlLink || ts[0].kind == SqlOpen then 1 else 0) + DroppedCount(ts[1..])
  }

  /** Exactly the link and open tokens are lost; every other token yields
      one output token. */
  lemma {:induction false} RewriteAllLength(ts: seq<Token>)
    ensures |RewriteAll(ts)| + DroppedCount(ts) == |ts|
  {
    if ts != [] {
      RewriteAllLength(ts[1..]);
    }
  }

  /** The rewrite distributes over concatenation: it works token by token,
      in order. */
  lemma {:induction false} RewriteAllAppend(a: seq<Token>, b: seq<Token>)
    ensures RewriteAll(a + b) == RewriteAll(a) + RewriteAll(b)
  {
    if a == [] {
      assert a + b == b;
    } else {
      assert (a + b)[0] == a[0];
      assert (a + b)[1..] == a[1..] + b;
      RewriteAllAppend(a[1..], b);
    }
  }

  /** `_filter_tokens` works token by token, in order. */
  lemma FilterTokensAppend(a: seq<Token>, b: seq<Token>)
    ensures FilterTokens(a + b) == FilterTokens(a) + FilterTokens(b)
  {
    StripDoctestAppend(a, b);
    RewriteAllAppend(StripDoctest(a), StripDoctest(b));
  }

  /** What `_filter_tokens` does to one token. With FilterTokensAppend this
      determines the whole stream. */
  lemma FilterTokensSingle(t: Token)
    ensures FilterTokens([t]) == if IsDoctestComment(t) then [] else RewriteToken(t)
  {
    StripDoctestSingle(t);
    assert [t][1..] == [];
  }

  /** A stream without SQL-family tokens is only doctest-filtered. */
  lemma {:induction false} RewriteAllNoSql(ts: seq<Token>)
    requires NoSql(ts)
    ensures RewriteAll(ts) == ts
  {
    if ts != [] {
      assert !InSqlFamily(ts[0].kind);
      assert NoSql(ts[1..]) by {
        forall i | 0 <= i < |ts[1..]| ensures !InSqlFamily(ts[1..][i].kind) {
          assert ts[1..][i] == ts[i + 1];
        }
      }
      RewriteAllNoSql(ts[1..]);
    }
  }

  /** Without SQL tokens `_filter_tokens` is the doctest filter. */
  lemma FilterTokensNoSql(tokens: seq<Token>)
    requires NoSql(tokens)
    ensures FilterTokens(tokens) == StripDoctest(tokens)
  {
    RewriteAllNoSql(StripDoctest(tokens));
  }

  /** A typical open-SQL body loses its marker and keeps its newline. */
  lemma RemoveStopExample()
    ensures RemoveStop("SELECT 1{stop}\n") == "SELECT 1\n"
  {
    NoMarkerInBraceless("SELECT 1", "\n");
    RemoveStopAround("SELECT 1", "\n");
    assert "SELECT 1" + StopMarker + "\n" == "SELECT 1{stop}\n";
    RemoveStopNoBrace("\n");
  }

  /** An open-SQL token becomes literal text without its marker. */
  lemma FilterTokensOpenSqlExample()
    ensures FilterTokens([Token(Sql, "SELECT 1{stop}\n")]) == [Token(Literal, "SELECT 1\n")]
  {
    FilterTokensSingle(Token(Sql, "SELECT 1{stop}\n"));
    RemoveStopExample();
  }

  /** A link token produces nothing. */
  lemma FilterTokensLinkExample()
    ensures FilterTokens([Token(SqlLink, "{sql}")]) == []
  {
    FilterTokensSingle(Token(SqlLink, "{sql}"));
  }
}
