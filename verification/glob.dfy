/** The glob patterns that `KEYS` and `SCAN ... MATCH` accept, restricted to
    the one wildcard the services use: `*` matches any run of characters,
    possibly empty, and every other character matches itself. */
module Glob {

  function Matches(p: string, s: string): bool
    decreases |p| + |s|
  {
    if p == [] then s == []
    else if p[0] == '*' then Matches(p[1..], s) || (s != [] && Matches(p, s[1..]))
    else s != [] && s[0] == p[0] && Matches(p[1..], s[1..])
  }

  /** A pattern without wildcards. */
  predicate Literal(l: string) {
    forall i :: 0 <= i < |l| ==> l[i] != '*'
  }

  lemma LiteralConcat(a: string, b: string)
    ensures Literal(a + b) == (Literal(a) && Literal(b))
  {
    if Literal(a) && Literal(b) {
      forall i | 0 <= i < |a + b| ensures (a + b)[i] != '*' {
        if i < |a| { assert (a + b)[i] == a[i]; } else { assert (a + b)[i] == b[i - |a|]; }
      }
    }
    if Literal(a + b) {
      forall i | 0 <= i < |a| ensures a[i] != '*' { assert (a + b)[i] == a[i]; }
      forall i | 0 <= i < |b| ensures b[i] != '*' { assert (a + b)[|a| + i] == b[i]; }
    }
  }

  /** A literal prefix of the pattern consumes the same prefix of the key. */
  lemma {:induction false} LiteralPrefix(l: string, p: string, s: string)
    requires Literal(l)
    ensures Matches(l + p, l + s) == Matches(p, s)
  {
    if l != [] {
      assert (l + p)[0] == l[0] && (l + s)[0] == l[0];
      assert (l + p)[1..] == l[1..] + p;
      assert (l + s)[1..] == l[1..] + s;
      LiteralPrefix(l[1..], p, s);
    } else {
      assert l + p == p && l + s == s;
    }
  }

  /** Conversely, a key matches a pattern that starts with a literal only if
      the key starts with that literal. */
  lemma {:induction false} LiteralPrefixNeeded(l: string, p: string, s: string)
    requires Literal(l)
    requires Matches(l + p, s)
    ensures |l| <= |s| && s[..|l|] == l && Matches(p, s[|l|..])
  {
    if l == [] {
      assert l + p == p;
    } else {
      assert (l + p)[0] == l[0] && (l + p)[1..] == l[1..] + p;
      LiteralPrefixNeeded(l[1..], p, s[1..]);
      assert s[..|l|] == [s[0]] + s[1..][..|l| - 1];
      assert s[|l|..] == s[1..][|l| - 1..];
    }
  }

  /** A literal pattern matches exactly itself. */
  lemma LiteralMatchesOnlyItself(l: string, s: string)
    requires Literal(l)
    ensures Matches(l, s) <==> s == l
  {
    assert l + [] == l;
    if Matches(l, s) {
      LiteralPrefixNeeded(l, [], s);
    }
    if s == l {
      assert s + [] == s;
      LiteralPrefix(l, [], []);
    }
  }

  lemma {:induction false} StarMatchesAll(s: string)
    ensures Matches("*", s)
    decreases |s|
  {
    if s != [] {
      StarMatchesAll(s[1..]);
    }
  }

  /** A star in front of a matching pattern absorbs any text in front of the key. */
  lemma {:induction false} StarAbsorbs(p: string, x: string, s: string)
    requires Matches(p, s)
    ensures Matches("*" + p, x + s)
    decreases |x|
  {
    assert ("*" + p)[1..] == p;
    if x != [] {
      assert (x + s)[1..] == x[1..] + s;
      StarAbsorbs(p, x[1..], s);
    } else {
      assert x + s == s;
    }
  }

  /** A key matches `*` followed by `p` only if some suffix of it matches `p`. */
  lemma {:induction false} StarSplit(p: string, s: string)
    requires Matches("*" + p, s)
    ensures exists k :: 0 <= k <= |s| && Matches(p, s[k..])
    decreases |s|
  {
    assert ("*" + p)[1..] == p;
    if Matches(p, s) {
      assert s[0..] == s;
    } else {
      StarSplit(p, s[1..]);
      var k :| 0 <= k <= |s[1..]| && Matches(p, s[1..][k..]);
      assert s[1..][k..] == s[k + 1..];
    }
  }

  /** Any prefix of a pattern matches the same prefix of a key, even one that
      holds stars: a star can always match its own character. */
  lemma {:induction false} SamePrefix(c: string, p: string, s: string)
    requires Matches(p, s)
    ensures Matches(c + p, c + s)
  {
    if c != [] {
      SamePrefix(c[1..], p, s);
      assert (c + p)[0] == c[0] && (c + p)[1..] == c[1..] + p;
      assert (c + s)[0] == c[0] && (c + s)[1..] == c[1..] + s;
      if c[0] == '*' {
        StarAbsorbs(c[1..] + p, [], c[1..] + s);
        assert [] + (c[1..] + s) == c[1..] + s;
        assert "*" + (c[1..] + p) == c + p;
      }
    } else {
      assert c + p == p && c + s == s;
    }
  }

  /** If every key matching `p` matches `q`, the same holds behind a common
      pattern prefix. */
  lemma {:induction false} PrefixMonotone(c: string, p: string, q: string, s: string)
    requires forall t :: Matches(p, t) ==> Matches(q, t)
    requires Matches(c + p, s)
    ensures Matches(c + q, s)
    decreases |c| + |s|
  {
    if c == [] {
      assert c + p == p && c + q == q;
    } else {
      assert (c + p)[0] == c[0] && (c + p)[1..] == c[1..] + p;
      assert (c + q)[0] == c[0] && (c + q)[1..] == c[1..] + q;
      if c[0] != '*' {
        PrefixMonotone(c[1..], p, q, s[1..]);
      } else if Matches(c[1..] + p, s) {
        PrefixMonotone(c[1..], p, q, s);
      } else {
        PrefixMonotone(c, p, q, s[1..]);
      }
    }
  }
}
