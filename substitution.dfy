/**
 * `template.replace(new RegExp("{KEY}", "g"), value)` on placeholders of the form `{KEY}`.
 *
 * A placeholder is a "brace token": an opening brace, a run of characters without braces,
 * a closing brace. As a regular expression such a token matches only itself, so the global
 * replacement is a literal left-to-right scan that replaces every non-overlapping occurrence.
 */
module Substitution {

  /** `{`, then characters that are not braces, then `}`. */
  predicate BraceToken(p: string) {
    && |p| >= 2 && p[0] == '{' && p[|p| - 1] == '}'
    && forall i :: 0 < i < |p| - 1 ==> p[i] != '{' && p[i] != '}'
  }

  predicate NoOpenBrace(s: string) {
    forall i :: 0 <= i < |s| ==> s[i] != '{'
  }

  /** Replace every occurrence of `p` in `s` by `v`, scanning left to right. */
  function ReplaceAll(s: string, p: string, v: string): string
    requires |p| > 0
    decreases |s|
  {
    if s == [] then []
    else if p <= s then v + ReplaceAll(s[|p|..], p, v)
    else [s[0]] + ReplaceAll(s[1..], p, v)
  }

  /** Text without an opening brace holds no placeholder and comes through unchanged. */
  lemma {:induction false} ReplaceAllNoOpenBrace(s: string, p: string, v: string)
    requires |p| > 0 && p[0] == '{' && NoOpenBrace(s)
    ensures ReplaceAll(s, p, v) == s
    decreases |s|
  {
    if s != [] {
      assert !(p <= s);
      ReplaceAllNoOpenBrace(s[1..], p, v);
      assert s == [s[0]] + s[1..];
    }
  }

  /** An occurrence of a brace token that starts inside `a` ends inside `a`. */
  lemma NoStraddle(a: string, b: string, p: string)
    requires BraceToken(p) && a != []
    requires b == [] || b[0] == '{' || a[|a| - 1] == '}'
    requires p <= a + b
    ensures |p| <= |a|
  {
    var s := a + b;
    assert s[|a| - 1] == a[|a| - 1];
    assert b != [] ==> s[|a|] == b[0];
    if |p| > |a| {
      assert false;
    }
  }

  /** One step of the scan over `a + b` when the placeholder matches at the front. */
  lemma UnfoldAtMatch(a: string, b: string, p: string, v: string)
    requires BraceToken(p) && a != []
    requires b == [] || b[0] == '{' || a[|a| - 1] == '}'
    requires p <= a + b
    ensures |p| <= |a|
    ensures ReplaceAll(a + b, p, v) == v + ReplaceAll(a[|p|..] + b, p, v)
    ensures ReplaceAll(a, p, v) == v + ReplaceAll(a[|p|..], p, v)
  {
    NoStraddle(a, b, p);
    assert p <= a;
    assert (a + b)[|p|..] == a[|p|..] + b;
  }

  /** One step of the scan over `a + b` when the placeholder does not match at the front. */
  lemma UnfoldNoMatch(a: string, b: string, p: string, v: string)
    requires |p| > 0 && a != [] && !(p <= a + b)
    ensures ReplaceAll(a + b, p, v) == [a[0]] + ReplaceAll(a[1..] + b, p, v)
    ensures ReplaceAll(a, p, v) == [a[0]] + ReplaceAll(a[1..], p, v)
  {
    assert p <= a ==> p <= a + b;
    assert (a + b)[1..] == a[1..] + b;
  }

  /**
   * No occurrence of a brace token straddles a boundary placed before an opening brace or
   * after a closing brace, so the text can be split there and the halves replaced apart.
   */
  lemma {:induction false} ReplaceAllSplits(a: string, b: string, p: string, v: string)
    requires BraceToken(p)
    requires b == [] || b[0] == '{' || (a != [] && a[|a| - 1] == '}')
    ensures ReplaceAll(a + b, p, v) == ReplaceAll(a, p, v) + ReplaceAll(b, p, v)
    decreases |a|, 1
  {
    if a == [] {
      assert a + b == b;
    } else if p <= a + b {
      SplitsAtMatch(a, b, p, v);
    } else {
      SplitsNoMatch(a, b, p, v);
    }
  }

  /** The split when the scan replaces an occurrence at the front of `a`. */
  lemma {:induction false} SplitsAtMatch(a: string, b: string, p: string, v: string)
    requires BraceToken(p) && a != [] && p <= a + b
    requires b == [] || b[0] == '{' || a[|a| - 1] == '}'
    ensures ReplaceAll(a + b, p, v) == ReplaceAll(a, p, v) + ReplaceAll(b, p, v)
    decreases |a|, 0
  {
    UnfoldAtMatch(a, b, p, v);
    var rest := a[|p|..];
    if |p| < |a| {
      assert rest[|rest| - 1] == a[|a| - 1];
      ReplaceAllSplits(rest, b, p, v);
    } else {
      assert rest + b == b;
    }
  }

  /** The split when the scan keeps the first character of `a`. */
  lemma {:induction false} SplitsNoMatch(a: string, b: string, p: string, v: string)
    requires BraceToken(p) && a != [] && !(p <= a + b)
    requires b == [] || b[0] == '{' || a[|a| - 1] == '}'
    ensures ReplaceAll(a + b, p, v) == ReplaceAll(a, p, v) + ReplaceAll(b, p, v)
    decreases |a|, 0
  {
    UnfoldNoMatch(a, b, p, v);
    var rest := a[1..];
    if rest != [] {
      assert rest[|rest| - 1] == a[|a| - 1];
      ReplaceAllSplits(rest, b, p, v);
    } else {
      assert rest + b == b;
    }
  }

  /** Each occurrence of the placeholder is replaced by the value; the text around it is treated alone. */
  lemma ReplaceAllAtToken(a: string, b: string, p: string, v: string)
    requires BraceToken(p)
    ensures ReplaceAll(a + p + b, p, v) == ReplaceAll(a, p, v) + v + ReplaceAll(b, p, v)
  {
    ReplaceAllSplits(a, p + b, p, v);
    assert a + p + b == a + (p + b);
    assert p <= p + b;
    assert (p + b)[|p|..] == b;
  }

  /** One brace token is never a proper prefix of another. */
  lemma DistinctTokensNotPrefix(p: string, q: string)
    requires BraceToken(p) && BraceToken(q) && p != q
    ensures !(p <= q)
  {
  }

  /** A placeholder other than `p` is not touched by replacing `p`. */
  lemma ReplaceAllSkipsToken(q: string, p: string, v: string)
    requires BraceToken(p) && BraceToken(q) && p != q
    ensures ReplaceAll(q, p, v) == q
  {
    DistinctTokensNotPrefix(p, q);
    ReplaceAllNoOpenBrace(q[1..], p, v);
    assert q == [q[0]] + q[1..];
  }

  /** A different placeholder is left in place, whatever the text around it. */
  lemma ReplaceAllKeepsOtherToken(a: string, q: string, b: string, p: string, v: string)
    requires BraceToken(p) && BraceToken(q) && p != q
    ensures ReplaceAll(a + q + b, p, v) == ReplaceAll(a, p, v) + q + ReplaceAll(b, p, v)
  {
    ReplaceAllSplits(a, q + b, p, v);
    ReplaceAllSplits(q, b, p, v);
    ReplaceAllSkipsToken(q, p, v);
    assert a + q + b == a + (q + b);
  }
}
