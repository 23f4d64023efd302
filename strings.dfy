/**
 * The handful of Python `str` operations the service relies on, with the
 * semantics CPython gives them: `split` on one character, `split(":", 1)`,
 * `replace` (all occurrences, left to right, non-overlapping), `replace`
 * with a count of one, and `sep.join`.
 */
module Strings {

  /** Python's `sep.join(parts)`. */
  function Join(sep: string, parts: seq<string>): string
  {
    if |parts| == 0 then ""
    else if |parts| == 1 then parts[0]
    else parts[0] + sep + Join(sep, parts[1..])
  }

  /** Python's `s.split(c)` for a one-character separator `c`. */
  function Split(s: string, c: char): (parts: seq<string>)
    ensures |parts| >= 1
    ensures forall i :: 0 <= i < |parts| ==> c !in parts[i]
  {
    if |s| == 0 then [""]
    else
      var rest := Split(s[1..], c);
      if s[0] == c then [""] + rest else [[s[0]] + rest[0]] + rest[1..]
  }

  /** Splitting and re-joining on the same separator gives the string back. */
  lemma {:induction false} JoinSplit(s: string, c: char)
    ensures Join([c], Split(s, c)) == s
  {
    if |s| > 0 {
      JoinSplit(s[1..], c);
      var rest := Split(s[1..], c);
      if s[0] == c {
        assert Split(s, c) == [""] + rest;
        assert s == [s[0]] + s[1..];
      } else {
        assert s == [s[0]] + s[1..];
        if |rest| > 1 {
          assert ([[s[0]] + rest[0]] + rest[1..])[1..] == rest[1..];
        }
      }
    }
  }

  /** A string without the separator is its own single part. */
  lemma {:induction false} SplitNoSeparator(s: string, c: char)
    requires c !in s
    ensures Split(s, c) == [s]
  {
    if |s| > 0 {
      SplitNoSeparator(s[1..], c);
      assert [s[0]] + s[1..] == s;
    }
  }

  /** The first separator ends the first part. */
  lemma {:induction false} SplitAfterPart(a: string, c: char, b: string)
    requires c !in a
    ensures Split(a + [c] + b, c) == [a] + Split(b, c)
  {
    if |a| == 0 {
      assert a + [c] + b == [c] + b;
      assert ([c] + b)[1..] == b;
    } else {
      SplitAfterPart(a[1..], c, b);
      assert (a + [c] + b)[1..] == a[1..] + [c] + b;
      assert [a[0]] + a[1..] == a;
    }
  }

  /** Splitting at one separator splits each side on its own. */
  lemma {:induction false} SplitConcat(a: string, c: char, b: string)
    ensures Split(a + [c] + b, c) == Split(a, c) + Split(b, c)
  {
    if |a| == 0 {
      assert a + [c] + b == [c] + b;
      SplitCons(c, b, c);
    } else {
      var x, a' := a[0], a[1..];
      assert Split(a + [c] + b, c) == Split([x] + (a' + [c] + b), c) by {
        assert a + [c] + b == [x] + (a' + [c] + b);
      }
      assert Split(a, c) == Split([x] + a', c) by {
        assert a == [x] + a';
      }
      SplitConcat(a', c, b);
      SplitCons(x, a' + [c] + b, c);
      SplitCons(x, a', c);
      ConsThenAppend(x, c, Split(a', c), Split(b, c));
    }
  }

  /** The list algebra behind one split step taken before an append. */
  lemma ConsThenAppend(x: char, c: char, p: seq<string>, q: seq<string>)
    requires |p| >= 1
    ensures (if x == c then [""] + (p + q) else [[x] + (p + q)[0]] + (p + q)[1..])
         == (if x == c then [""] + p else [[x] + p[0]] + p[1..]) + q
  {
    if x != c {
      assert (p + q)[1..] == p[1..] + q;
    }
  }

  /** One step of a split: the first character either ends a part or joins the first one. */
  lemma SplitCons(x: char, t: string, c: char)
    ensures Split([x] + t, c) ==
      if x == c then [""] + Split(t, c) else [[x] + Split(t, c)[0]] + Split(t, c)[1..]
  {
    assert ([x] + t)[1..] == t;
  }

  /** A string splits into two or more parts exactly when it holds the separator. */
  lemma SplitHasSeveralParts(s: string, c: char)
    ensures c in s <==> |Split(s, c)| >= 2
  {
    if c !in s {
      SplitNoSeparator(s, c);
    } else {
      JoinSplit(s, c);
    }
  }

  /** Every character of a join comes from the separator or from one of the parts. */
  lemma {:induction false} JoinChars(sep: string, parts: seq<string>, x: char)
    requires x in Join(sep, parts)
    ensures x in sep || exists i :: 0 <= i < |parts| && x in parts[i]
  {
    if |parts| > 1 {
      if x !in parts[0] && x !in sep {
        JoinChars(sep, parts[1..], x);
        var i :| 0 <= i < |parts[1..]| && x in parts[1..][i];
        assert x in parts[i + 1];
      }
    }
  }

  /** Python's `s.replace(pat, rep)`: every non-overlapping occurrence, left to right. */
  function Replace(s: string, pat: string, rep: string): string
    requires |pat| > 0
    decreases |s|
  {
    if |s| < |pat| then s
    else if s[..|pat|] == pat then rep + Replace(s[|pat|..], pat, rep)
    else [s[0]] + Replace(s[1..], pat, rep)
  }

  /** Every character of a replacement's output comes from the input or from `rep`. */
  lemma {:induction false} ReplaceChars(s: string, pat: string, rep: string, x: char)
    requires |pat| > 0
    requires x in Replace(s, pat, rep)
    ensures x in s || x in rep
    decreases |s|
  {
    if |s| >= |pat| {
      if s[..|pat|] == pat {
        if x !in rep {
          ReplaceChars(s[|pat|..], pat, rep, x);
          assert s == s[..|pat|] + s[|pat|..];
        }
      } else if x != s[0] {
        ReplaceChars(s[1..], pat, rep, x);
        assert s == [s[0]] + s[1..];
      }
    }
  }

  /** Deleting a one-character pattern leaves none of it behind. */
  lemma {:induction false} ReplaceDeletesChar(s: string, c: char)
    ensures c !in Replace(s, [c], "")
    decreases |s|
  {
    if |s| >= 1 {
      ReplaceDeletesChar(s[1..], c);
    }
  }

  /** Replacing a pattern whose first character does not occur changes nothing. */
  lemma {:induction false} ReplaceAbsent(s: string, pat: string, rep: string)
    requires |pat| > 0 && pat[0] !in s
    ensures Replace(s, pat, rep) == s
    decreases |s|
  {
    if |s| >= |pat| {
      assert s[..|pat|][0] == s[0];
      ReplaceAbsent(s[1..], pat, rep);
      assert [s[0]] + s[1..] == s;
    }
  }

  /** Replacing a pattern one of whose characters does not occur changes nothing. */
  lemma {:induction false} ReplaceMissingChar(s: string, pat: string, rep: string, x: char)
    requires |pat| > 0 && x in pat && x !in s
    ensures Replace(s, pat, rep) == s
    decreases |s|
  {
    if |s| >= |pat| {
      ReplaceMissingChar(s[1..], pat, rep, x);
      assert [s[0]] + s[1..] == s;
    }
  }

  /** A prefix in which the pattern cannot start passes through unchanged. */
  lemma {:induction false} ReplaceSkips(a: string, b: string, pat: string, rep: string)
    requires |pat| > 0 && pat[0] !in a
    ensures Replace(a + b, pat, rep) == a + Replace(b, pat, rep)
    decreases |a|
  {
    if |a| > 0 {
      var s := a + b;
      assert s[1..] == a[1..] + b;
      if |s| >= |pat| {
        assert s[..|pat|] != pat by {
          assert s[..|pat|][0] == a[0];
        }
        ReplaceSkips(a[1..], b, pat, rep);
        assert Replace(s, pat, rep) == [a[0]] + (a[1..] + Replace(b, pat, rep));
        assert [a[0]] + (a[1..] + Replace(b, pat, rep)) == a + Replace(b, pat, rep) by {
          assert [a[0]] + a[1..] == a;
        }
      } else {
        assert Replace(b, pat, rep) == b;
      }
    } else {
      assert a + b == b;
    }
  }

  /** A leading occurrence is replaced. */
  lemma ReplaceLeading(b: string, pat: string, rep: string)
    requires |pat| > 0
    ensures Replace(pat + b, pat, rep) == rep + Replace(b, pat, rep)
  {
    var s := pat + b;
    assert s[..|pat|] == pat;
    assert s[|pat|..] == b;
  }

  /** Replacement is compositional over a cut between two occurrences of the pattern. */
  lemma {:induction false} ReplaceOneCharAppend(a: string, b: string, c: char, rep: string)
    ensures Replace(a + b, [c], rep) == Replace(a, [c], rep) + Replace(b, [c], rep)
    decreases |a|
  {
    if |a| > 0 {
      ReplaceOneCharAppend(a[1..], b, c, rep);
      assert (a + b)[1..] == a[1..] + b;
      assert (a + b)[..1] == a[..1];
    } else {
      assert a + b == b;
    }
  }

  /** Python's `s.replace(pat, rep, 1)`: only the first occurrence. */
  function ReplaceFirst(s: string, pat: string, rep: string): string
    requires |pat| > 0
    decreases |s|
  {
    if |s| < |pat| then s
    else if s[..|pat|] == pat then rep + s[|pat|..]
    else [s[0]] + ReplaceFirst(s[1..], pat, rep)
  }

  /** On a string that starts with the pattern, a first-only replacement rewrites that prefix. */
  lemma ReplaceFirstOfPrefix(s: string, pat: string, rep: string)
    requires |pat| > 0 && pat <= s
    ensures ReplaceFirst(s, pat, rep) == rep + s[|pat|..]
  {
    assert s[..|pat|] == pat;
  }

  /** Python's `s.split(c, 1)` on a string that contains `c`: the text before and after the first `c`. */
  function SplitAtFirst(s: string, c: char): (r: (string, string))
    requires c in s
    ensures c !in r.0
    ensures r.0 + [c] + r.1 == s
  {
    if s[0] == c then ("", s[1..])
    else
      assert c in s[1..] by { assert s == [s[0]] + s[1..]; }
      var (a, b) := SplitAtFirst(s[1..], c);
      assert [s[0]] + a + [c] + b == [s[0]] + (a + [c] + b);
      ([s[0]] + a, b)
  }

  /** The cut at the first separator is unique: a separator-free head is recovered exactly. */
  lemma {:induction false} SplitAtFirstOf(a: string, c: char, b: string)
    requires c !in a
    ensures c in a + [c] + b
    ensures SplitAtFirst(a + [c] + b, c) == (a, b)
  {
    assert (a + [c] + b)[|a|] == c;
    if |a| > 0 {
      SplitAtFirstOf(a[1..], c, b);
      assert (a + [c] + b)[1..] == a[1..] + [c] + b;
      assert [a[0]] + a[1..] == a;
    } else {
      assert a + [c] + b == [c] + b;
      assert ([c] + b)[1..] == b;
    }
  }
}
