// String helpers shared by the formatters: Python's notion of whitespace and
// the "remove the maximal trailing run of characters from a set" operation
// behind both `str.rstrip()` and the SQL-body `re.sub(r'[...]*$', '', v)`.

module Text {

  /** The characters Python 3 treats as whitespace (`str.isspace`, and `\s`
      in a `str` pattern). */
  const Whitespace: set<char> := {
    '\t', '\n', '\U{0b}', '\U{0c}', '\r', '\U{1c}', '\U{1d}', '\U{1e}', '\U{1f}', ' ',
    '\U{85}', '\U{a0}', '\U{1680}',
    '\U{2000}', '\U{2001}', '\U{2002}', '\U{2003}', '\U{2004}', '\U{2005}',
    '\U{2006}', '\U{2007}', '\U{2008}', '\U{2009}', '\U{200a}',
    '\U{2028}', '\U{2029}', '\U{202f}', '\U{205f}', '\U{3000}'
  }

  /** The trailing part of `s` is made only of characters from `drop`. */
  predicate AllIn(s: string, drop: set<char>)
  {
    forall i :: 0 <= i < |s| ==> s[i] in drop
  }

  /** `r` is `s` with a maximal trailing run of `drop` characters removed:
      a prefix of `s`, not ending in a `drop` character, and what was cut off
      consists of `drop` characters only. */
  predicate IsTrimmedEnd(s: string, drop: set<char>, r: string)
  {
    r <= s && (r == [] || r[|r| - 1] !in drop) && AllIn(s[|r|..], drop)
  }

  /** Removes the longest suffix of `s` whose characters all lie in `drop`. */
  function TrimEnd(s: string, drop: set<char>): (r: string)
    ensures IsTrimmedEnd(s, drop, r)
    decreases |s|
  {
    if |s| > 0 && s[|s| - 1] in drop then TrimEnd(s[..|s| - 1], drop) else s
  }

  /** There is only one way to trim the end: any string with the three
      properties is the one TrimEnd computes. */
  lemma {:induction false} TrimEndUnique(s: string, drop: set<char>, r: string)
    requires IsTrimmedEnd(s, drop, r)
    ensures r == TrimEnd(s, drop)
    decreases |s|
  {
    if |r| == |s| {
      assert r == s;
    } else {
      assert s[|s| - 1] == s[|r|..][|s| - 1 - |r|];
    }
    if |s| > 0 && s[|s| - 1] in drop {
      var t := s[..|s| - 1];
      assert r <= t;
      assert t[|r|..] == s[|r|..|s| - 1];
      TrimEndUnique(t, drop, r);
    }
  }

  /** Trimming twice is trimming once. */
  lemma TrimEndIdempotent(s: string, drop: set<char>)
    ensures TrimEnd(TrimEnd(s, drop), drop) == TrimEnd(s, drop)
  {
    var r := TrimEnd(s, drop);
    assert IsTrimmedEnd(r, drop, r);
    TrimEndUnique(r, drop, r);
  }

  /** Removes the longest prefix of `s` whose characters all lie in `drop`. */
  function TrimStart(s: string, drop: set<char>): (r: string)
    ensures |r| <= |s| && r == s[|s| - |r|..]
    ensures r == [] || r[0] !in drop
    ensures AllIn(s[..|s| - |r|], drop)
    decreases |s|
  {
    if |s| > 0 && s[0] in drop then TrimStart(s[1..], drop) else s
  }

  /** TrimStart stops at the first character outside `drop`. */
  lemma {:induction false} TrimStartAt(s: string, drop: set<char>, j: nat)
    requires j <= |s| && AllIn(s[..j], drop) && (j == |s| || s[j] !in drop)
    ensures TrimStart(s, drop) == s[j..]
  {
    if j > 0 {
      assert s[0] == s[..j][0];
      var t := s[1..][..j - 1];
      assert AllIn(t, drop) by {
        forall i | 0 <= i < |t| ensures t[i] in drop {
          assert t[i] == s[..j][i + 1];
        }
      }
      TrimStartAt(s[1..], drop, j - 1);
      assert s[1..][j - 1..] == s[j..];
    }
  }

  /** Python's `str.rstrip()` with no argument. */
  function RStrip(s: string): (r: string)
    ensures r <= s
    ensures r == [] || r[|r| - 1] !in Whitespace
    ensures AllIn(s[|r|..], Whitespace)
  {
    TrimEnd(s, Whitespace)
  }
}
