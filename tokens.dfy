// Pygments token streams as finite sequences of (kind, text) pairs, and the
// doctest-comment filter (`StripDocTestFilter`, doc/build/builder/builders.py).

module Tokens {
  import opened Text

  /** The token kinds the builder distinguishes. `Sql` and its three
      sub-kinds form the `Token.Sql` family; `Comment` is exactly
      `Token.Comment` (its sub-kinds such as `Comment.Single` are `Other`);
      `Literal` is exactly `Token.Literal`. Every remaining Pygments kind is
      `Other`, named by its dotted path; none of those lies in `Token.Sql`. */
  datatype Kind =
    | Sql
    | SqlLink
    | SqlOpen
    | SqlPopup
    | Comment
    | Literal
    | Other(name: string)

  datatype Token = Token(kind: Kind, value: string)

  /** `ttype in Token.Sql`: the kind is `Token.Sql` or one of its sub-kinds. */
  predicate InSqlFamily(k: Kind)
  {
    k == Sql || k == SqlLink || k == SqlOpen || k == SqlPopup
  }

  /** No token of the stream lies in the `Token.Sql` family. */
  predicate NoSql(ts: seq<Token>)
  {
    forall i :: 0 <= i < |ts| ==> !InSqlFamily(ts[i].kind)
  }

  const DoctestTag := "doctest:"

  /** Drops leading whitespace (the greedy `\s*` of the pattern). */
  function SkipSpaces(s: string): (r: string)
  {
    TrimStart(s, Whitespace)
  }

  /** `re.match(r'#\s*doctest:', value)`: anchored at the start, case-sensitive. */
  predicate StartsWithDoctest(value: string)
  {
    |value| > 0 && value[0] == '#' && DoctestTag <= SkipSpaces(value[1..])
  }

  /** The token the filter drops: kind exactly `Token.Comment`, text a
      doctest directive. */
  predicate IsDoctestComment(t: Token)
  {
    t.kind == Comment && StartsWithDoctest(t.value)
  }

  /** `StripDocTestFilter.filter`: the stream without its doctest comments. */
  function StripDoctest(ts: seq<Token>): (r: seq<Token>)
    ensures |r| <= |ts|
    ensures forall i :: 0 <= i < |r| ==> !IsDoctestComment(r[i])
    ensures NoSql(ts) ==> NoSql(r)
  {
    if ts == [] then []
    else if IsDoctestComment(ts[0]) then StripDoctest(ts[1..])
    else [ts[0]] + StripDoctest(ts[1..])
  }

  /** Reading the pattern directly, one direction: a doctest directive is
      `#`, a run of whitespace ending at some index `k`, then the tag. */
  lemma DoctestSplit(value: string) returns (k: nat)
    requires StartsWithDoctest(value)
    ensures 1 <= k <= |value| && AllIn(value[1..k], Whitespace) && DoctestTag <= value[k..]
  {
    var rest := value[1..];
    var r := SkipSpaces(rest);
    k := 1 + |rest| - |r|;
    assert value[1..k] == rest[..|rest| - |r|];
    assert value[k..] == r;
  }

  /** The other direction: any such split is recognised. */
  lemma DoctestFromSplit(value: string, k: nat)
    requires 1 <= k <= |value| && value[0] == '#'
    requires AllIn(value[1..k], Whitespace) && DoctestTag <= value[k..]
    ensures StartsWithDoctest(value)
  {
    var rest := value[1..];
    assert rest[..k - 1] == value[1..k];
    assert value[k..][0] == DoctestTag[0];
    TrimStartAt(rest, Whitespace, k - 1);
    assert rest[k - 1..] == value[k..];
  }

  /** The filter distributes over concatenation of streams. */
  lemma {:induction false} StripDoctestAppend(a: seq<Token>, b: seq<Token>)
    ensures StripDoctest(a + b) == StripDoctest(a) + StripDoctest(b)
  {
    if a == [] {
      assert a + b == b;
    } else {
      assert (a + b)[0] == a[0];
      assert (a + b)[1..] == a[1..] + b;
      StripDoctestAppend(a[1..], b);
    }
  }

  /** What the filter does to one token. Together with StripDoctestAppend
      this says: exactly the doctest comments go, all else stays in order. */
  lemma StripDoctestSingle(t: Token)
    ensures StripDoctest([t]) == if IsDoctestComment(t) then [] else [t]
  {
    assert [t][1..] == [];
  }

  /** A stream without doctest comments passes unchanged. */
  lemma {:induction false} StripDoctestKeeps(ts: seq<Token>)
    requires forall i :: 0 <= i < |ts| ==> !IsDoctestComment(ts[i])
    ensures StripDoctest(ts) == ts
  {
    if ts != [] {
      StripDoctestKeeps(ts[1..]);
    }
  }

  /** Filtering twice is filtering once. */
  lemma StripDoctestIdempotent(ts: seq<Token>)
    ensures StripDoctest(StripDoctest(ts)) == StripDoctest(ts)
  {
    StripDoctestKeeps(StripDoctest(ts));
  }

  /** `# doctest: +SKIP` is dropped. */
  lemma DoctestDirectiveDropped()
    ensures StripDoctest([Token(Comment, "# doctest: +SKIP")]) == []
  {
    var v := "# doctest: +SKIP";
    assert v[1..][..1] == " ";
    assert v[1..][1] == 'd';
    TrimStartAt(v[1..], Whitespace, 1);
    assert v[1..][1..] == "doctest: +SKIP";
    assert DoctestTag <= "doctest: +SKIP";
    StripDoctestSingle(Token(Comment, v));
  }

  /** `# not a doctest` is kept. */
  lemma PlainCommentKept()
    ensures StripDoctest([Token(Comment, "# not a doctest")]) == [Token(Comment, "# not a doctest")]
  {
    var v := "# not a doctest";
    assert v[1..][..1] == " ";
    assert v[1..][1] == 'n';
    TrimStartAt(v[1..], Whitespace, 1);
    StripDoctestSingle(Token(Comment, v));
  }

  /** The match is case-sensitive: `#DOCTEST:` is kept. */
  lemma UpperCaseTagKept()
    ensures StripDoctest([Token(Comment, "#DOCTEST: +SKIP")]) == [Token(Comment, "#DOCTEST: +SKIP")]
  {
    var v := "#DOCTEST: +SKIP";
    assert v[1..][0] == 'D';
    TrimStartAt(v[1..], Whitespace, 0);
    StripDoctestSingle(Token(Comment, v));
  }

  /** Only the exact `Comment` kind is tested: a directive under a sub-kind stays. */
  lemma SubKindKept()
    ensures StripDoctest([Token(Other("Comment.Single"), "# doctest: +SKIP")])
         == [Token(Other("Comment.Single"), "# doctest: +SKIP")]
  {
    StripDoctestSingle(Token(Other("Comment.Single"), "# doctest: +SKIP"));
  }
}
