/**
 * Shell-style matching as `fnmatch.fnmatch` does it on POSIX, for patterns
 * whose only wildcard is `*`: a `*` stands for any run of characters
 * (slashes included), every other character stands for itself, matching is
 * case-sensitive and the whole string must be consumed.
 */
module Glob {

  /** `fnmatch.fnmatch(s, pat)` for a `*`-only pattern. */
  predicate Match(pat: string, s: string)
    decreases |pat| + |s|
  {
    if |pat| == 0 then |s| == 0
    else if pat[0] == '*' then Match(pat[1..], s) || (|s| > 0 && Match(pat, s[1..]))
    else |s| > 0 && s[0] == pat[0] && Match(pat[1..], s[1..])
  }

  /** The pattern has no wildcard: it only matches itself. */
  predicate StarFree(a: string)
  {
    '*' !in a
  }

  // ---------------------------------------------------------------------------
  // Reference semantics: a match is a way of filling in every `*`
  // ---------------------------------------------------------------------------

  /** Number of `*` wildcards in the pattern. */
  function StarCount(pat: string): nat
  {
    if |pat| == 0 then 0 else (if pat[0] == '*' then 1 else 0) + StarCount(pat[1..])
  }

  /** The string obtained by replacing the i-th `*` of `pat` by `fills[i]`. */
  function Instantiate(pat: string, fills: seq<string>): string
    requires |fills| == StarCount(pat)
  {
    if |pat| == 0 then ""
    else if pat[0] == '*' then fills[0] + Instantiate(pat[1..], fills[1..])
    else [pat[0]] + Instantiate(pat[1..], fills)
  }

  /** For a matching string, the text each `*` stands for. */
  ghost function Witness(pat: string, s: string): (fills: seq<string>)
    requires Match(pat, s)
    ensures |fills| == StarCount(pat) && Instantiate(pat, fills) == s
    decreases |pat| + |s|
  {
    if |pat| == 0 then []
    else if pat[0] == '*' then
      if Match(pat[1..], s) then [""] + Witness(pat[1..], s)
      else
        var w := Witness(pat, s[1..]);
        assert [s[0]] + (w[0] + Instantiate(pat[1..], w[1..])) == s;
        [[s[0]] + w[0]] + w[1..]
    else
      var w := Witness(pat[1..], s[1..]);
      assert [s[0]] + s[1..] == s;
      w
  }

  /** A leading `*` can absorb any extra text in front of a match of the rest. */
  lemma {:induction false} StarAbsorbs(pat: string, f: string, t: string)
    requires |pat| > 0 && pat[0] == '*'
    requires Match(pat[1..], t)
    ensures Match(pat, f + t)
    decreases |f|
  {
    if |f| == 0 {
      assert f + t == t;
    } else {
      StarAbsorbs(pat, f[1..], t);
      assert (f + t)[1..] == f[1..] + t;
    }
  }

  /** Every filling of the wildcards yields a matching string. */
  lemma {:induction false} InstanceMatches(pat: string, fills: seq<string>)
    requires |fills| == StarCount(pat)
    ensures Match(pat, Instantiate(pat, fills))
    decreases |pat|
  {
    if |pat| > 0 {
      if pat[0] == '*' {
        InstanceMatches(pat[1..], fills[1..]);
        StarAbsorbs(pat, fills[0], Instantiate(pat[1..], fills[1..]));
      } else {
        InstanceMatches(pat[1..], fills);
        var s := [pat[0]] + Instantiate(pat[1..], fills);
        assert s[1..] == Instantiate(pat[1..], fills);
      }
    }
  }

  /** `Match` is exactly "some filling of the wildcards spells the string". */
  lemma MatchIffInstance(pat: string, s: string)
    ensures Match(pat, s) <==> exists fills :: |fills| == StarCount(pat) && Instantiate(pat, fills) == s
  {
    if Match(pat, s) {
      var w := Witness(pat, s);
      assert |w| == StarCount(pat) && Instantiate(pat, w) == s;
    }
    forall fills | |fills| == StarCount(pat) && Instantiate(pat, fills) == s
      ensures Match(pat, s)
    {
      InstanceMatches(pat, fills);
    }
  }

  // ---------------------------------------------------------------------------
  // Consequences used to read the rule table
  // ---------------------------------------------------------------------------

  /** A literal prefix of the pattern must be a prefix of every match. */
  lemma {:induction false} MatchLiteralPrefix(a: string, rest: string, s: string)
    requires StarFree(a)
    requires Match(a + rest, s)
    ensures a <= s && Match(rest, s[|a|..])
    decreases |a|
  {
    if |a| == 0 {
      assert a + rest == rest;
      assert s[0..] == s;
    } else {
      assert (a + rest)[0] == a[0];
      assert (a + rest)[1..] == a[1..] + rest;
      MatchLiteralPrefix(a[1..], rest, s[1..]);
      assert s[1..][|a| - 1..] == s[|a|..];
    }
  }

  /** Conversely a literal prefix followed by a match of the rest is a match. */
  lemma {:induction false} LiteralPrefixMatches(a: string, rest: string, s: string)
    requires StarFree(a)
    requires a <= s && Match(rest, s[|a|..])
    ensures Match(a + rest, s)
    decreases |a|
  {
    if |a| == 0 {
      assert a + rest == rest;
      assert s[0..] == s;
    } else {
      assert s[1..][|a| - 1..] == s[|a|..];
      LiteralPrefixMatches(a[1..], rest, s[1..]);
      assert (a + rest)[1..] == a[1..] + rest;
    }
  }

  /** A lone `*` matches everything. */
  lemma {:induction false} StarMatchesAll(s: string)
    ensures Match("*", s)
    decreases |s|
  {
    assert "*"[1..] == "";
    if |s| > 0 {
      StarMatchesAll(s[1..]);
    }
  }

  /** `A*` (with `A` literal) matches exactly the strings that start with `A`. */
  lemma MatchPrefixStar(a: string, s: string)
    requires StarFree(a)
    ensures Match(a + "*", s) <==> a <= s
  {
    if Match(a + "*", s) {
      MatchLiteralPrefix(a, "*", s);
    }
    if a <= s {
      StarMatchesAll(s[|a|..]);
      LiteralPrefixMatches(a, "*", s);
    }
  }

  /** A literal pattern matches only itself. */
  lemma MatchLiteral(a: string, s: string)
    requires StarFree(a)
    ensures Match(a, s) <==> s == a
  {
    assert a + "" == a;
    if Match(a, s) {
      MatchLiteralPrefix(a, "", s);
    }
    if s == a {
      assert s[|a|..] == "";
      LiteralPrefixMatches(a, "", s);
    }
  }

  /** A leading `*` lets the rest of the pattern match any suffix. */
  lemma {:induction false} MatchLeadingStar(rest: string, s: string)
    ensures Match("*" + rest, s) <==> exists i :: 0 <= i <= |s| && Match(rest, s[i..])
    decreases |s|
  {
    var pat := "*" + rest;
    assert pat[1..] == rest;
    assert s[0..] == s;
    if |s| > 0 {
      MatchLeadingStar(rest, s[1..]);
      forall i | 1 <= i <= |s| ensures s[1..][i - 1..] == s[i..] { }
    } else {
      forall i | 0 <= i <= |s| ensures s[i..] == s { }
    }
  }

  /** `*B` (with `B` literal) matches exactly the strings that end with `B`. */
  lemma MatchStarSuffix(b: string, s: string)
    requires StarFree(b)
    ensures Match("*" + b, s) <==> |b| <= |s| && s[|s| - |b|..] == b
  {
    MatchLeadingStar(b, s);
    forall i | 0 <= i <= |s| ensures Match(b, s[i..]) <==> s[i..] == b {
      MatchLiteral(b, s[i..]);
    }
    if |b| <= |s| && s[|s| - |b|..] == b {
      assert Match(b, s[|s| - |b|..]);
    }
  }
}
