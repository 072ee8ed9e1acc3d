/**
 * Consequences of the order of the rule table under first-match lookup, for
 * a home directory of the usual macOS shape `/Users/<name>`: which rule is
 * the first to match a family of paths, and which rules can never be first.
 */
module RuleFacts {
  import opened Base
  import PosixPath
  import Glob
  import Rules
  import Safety

  /** A login name that makes `/Users/<name>` a clean, wildcard-free directory. */
  predicate IsUserName(user: string)
  {
    PosixPath.IsNormalSegment(user) && '*' !in user && '?' !in user && '[' !in user
  }

  /**
   * The part of a path after `~/Library/` that no rule before the `~/Library/` rule
   * matches: those rules are the cache folder, application temporary files,
   * the log folder, two Safari files and the iOS backups.
   */
  predicate OutsideEarlierLibraryRules(rest: string)
  {
    && !("Caches/" <= rest)
    && !Glob.Match("Application Support/*/Temp/*", rest)
    && !("Logs/" <= rest)
    && rest != "Safari/Downloads.plist"
    && !("Safari/History.db" <= rest)
    && !("Application Support/MobileSync/Backup/" <= rest)
  }

  /** The home directory of `user`. */
  function Home(user: string): string
  {
    "/Users/" + user
  }

  /** Every segment is kept by `normpath` and the first does not start with `~`. */
  predicate CleanShape(s: Rules.Shape)
  {
    && |s.segments| >= 1
    && (forall i :: 0 <= i < |s.segments| ==> PosixPath.IsNormalSegment(s.segments[i]))
    && s.segments[0][0] != '~'
  }

  /** What a normalised pattern starts with before its first segment. */
  function Start(user: string, anchor: Rules.Anchor): string
  {
    match anchor
    case AtHome => Home(user) + "/"
    case AtRoot => "/"
    case Anywhere => ""
  }

  /** A shape is clean when each of its segments is. */
  lemma CleanAll(s: Rules.Shape)
    requires |s.segments| >= 1 && forall i :: 0 <= i < |s.segments| ==> PosixPath.IsNormalSegment(s.segments[i])
    requires |s.segments[0]| >= 1 && s.segments[0][0] != '~'
    ensures CleanShape(s)
  {
  }

  /** Where a clean pattern lands after normalisation: `~/` becomes the home directory. */
  function Placed(user: string, s: Rules.Shape): string
  {
    Start(user, s.anchor) + PosixPath.Join(s.segments)
  }

  /** The segments, each followed by a slash: the literal lead of a pattern. */
  function Lead(segs: seq<string>): string
  {
    if |segs| == 0 then "" else segs[0] + "/" + Lead(segs[1..])
  }

  /** `normalize_path` leaves a clean pattern in place, up to the expansion of `~`. */
  lemma NormalizedShape(user: string, s: Rules.Shape)
    requires IsUserName(user) && CleanShape(s)
    ensures PosixPath.NormalizePath(Home(user), Rules.Text(s)) == Placed(user, s)
  {
    match s.anchor
    case AtHome => PosixPath.NormalizeHomeRelative(user, s.segments);
    case AtRoot => PosixPath.NormalizeAbsolute(Home(user), s.segments);
    case Anywhere => PosixPath.NormalizeRelative(Home(user), s.segments);
  }

  /** A rule matches a normalised path exactly when its placed pattern does. */
  lemma RuleMatchesPlaced(user: string, id: Rules.RuleId, n: string)
    requires IsUserName(user) && CleanShape(Rules.ShapeOf(id))
    ensures Safety.RuleMatches(Home(user), id, n) <==> Glob.Match(Placed(user, Rules.ShapeOf(id)), n)
  {
    NormalizedShape(user, Rules.ShapeOf(id));
  }

  /** A wildcard-free prefix of the pattern that the path lacks rules the match out. */
  lemma LiteralPrefixExcludes(pat: string, a: string, n: string)
    requires Glob.StarFree(a) && a <= pat && !(a <= n)
    ensures !Glob.Match(pat, n)
  {
    assert a + pat[|a|..] == pat;
    if Glob.Match(pat, n) {
      Glob.MatchLiteralPrefix(a, pat[|a|..], n);
    }
  }

  /** The verdict of a path outside the cache is the verdict of its first matching rule. */
  lemma VerdictOfFirstMatch(user: string, cache: Safety.VerdictCache, path: string, i: int, id: Rules.RuleId)
    requires var n := PosixPath.NormalizePath(Home(user), path);
      n !in cache && Safety.FirstMatch(Rules.PredefinedRules, Safety.Matcher(Home(user), n)) == Some(i)
    requires 0 <= i < |Rules.PredefinedRules| && Rules.PredefinedRules[i] == id
    ensures Safety.GetSafetyInfo(Home(user), cache, path) == Rules.VerdictOf(id)
  {
  }

  // ---------------------------------------------------------------------------
  // Prefix reasoning
  // ---------------------------------------------------------------------------

  /** A common prefix can be cancelled from a prefix test. */
  lemma PrefixCancel(p: string, x: string, y: string)
    ensures p + x <= p + y <==> x <= y
  {
    if x <= y {
      assert p + x == (p + y)[..|p + x|];
    }
    if p + x <= p + y {
      assert x == (p + x)[|p|..] == (p + y)[|p|..|p| + |x|];
    }
  }

  /** A string that differs at position `i` from a known prefix of `n` is not a prefix of `n`. */
  lemma PrefixesDiverge(a: string, b: string, n: string, i: int)
    requires 0 <= i < |a| && i < |b| && a[i] != b[i] && b <= n
    ensures !(a <= n)
  {
  }

  /** The start of a placed pattern carries no wildcard. */
  lemma StartStarFree(user: string, anchor: Rules.Anchor)
    requires IsUserName(user)
    ensures Glob.StarFree(Start(user, anchor))
  {
  }

  /** A join splits after any of its first segments into their lead and the join of the rest. */
  lemma {:induction false} JoinAfterLead(segs: seq<string>, c: int)
    requires 0 <= c < |segs|
    ensures PosixPath.Join(segs) == Lead(segs[..c]) + PosixPath.Join(segs[c..])
    decreases c
  {
    if c == 0 {
      assert segs[..0] == [] && segs[0..] == segs;
    } else {
      JoinAfterLead(segs[1..], c - 1);
      assert segs[1..][..c - 1] == segs[..c][1..];
      assert segs[1..][c - 1..] == segs[c..];
    }
  }

  /** The lead of the first segments of a shape is a prefix of its placed pattern. */
  lemma LeadPrefix(user: string, s: Rules.Shape, c: int)
    requires 0 <= c < |s.segments|
    ensures Start(user, s.anchor) + Lead(s.segments[..c]) <= Placed(user, s)
  {
    JoinAfterLead(s.segments, c);
    var b := Start(user, s.anchor);
    var l := Lead(s.segments[..c]);
    assert Placed(user, s) == (b + l) + PosixPath.Join(s.segments[c..]);
  }

  // ---------------------------------------------------------------------------
  // First matches
  // ---------------------------------------------------------------------------

  /** Rule number `j` of the table does not match the normalised path `n`. */
  ghost predicate Misses(user: string, n: string, j: int)
  {
    0 <= j < |Rules.PredefinedRules| && !Safety.RuleMatches(Home(user), Rules.PredefinedRules[j], n)
  }

  /** None of the first `k` rules matches the normalised path `n`. */
  ghost predicate NoneBefore(user: string, n: string, k: int)
  {
    && 0 <= k <= |Rules.PredefinedRules|
    && forall j :: 0 <= j < k ==> Misses(user, n, j)
  }

  /** A matching rule preceded only by rules that fail is the first match. */
  lemma FirstAt(user: string, n: string, k: int)
    requires NoneBefore(user, n, k) && k < |Rules.PredefinedRules|
    requires Safety.Matcher(Home(user), n)(Rules.PredefinedRules[k])
    ensures Safety.FirstMatch(Rules.PredefinedRules, Safety.Matcher(Home(user), n)) == Some(k)
  {
    forall j | 0 <= j < k
      ensures !Safety.Matcher(Home(user), n)(Rules.PredefinedRules[j])
    {
      assert Misses(user, n, j);
    }
    Safety.FirstMatchUnique(Rules.PredefinedRules, Safety.Matcher(Home(user), n), k);
  }

  /** Rule `j` misses a path its placed pattern does not match. */
  lemma SkipPlaced(user: string, n: string, j: int, id: Rules.RuleId)
    requires IsUserName(user) && NoneBefore(user, n, j)
    requires 0 <= j < |Rules.PredefinedRules| && Rules.PredefinedRules[j] == id && CleanShape(Rules.ShapeOf(id))
    requires !Glob.Match(Placed(user, Rules.ShapeOf(id)), n)
    ensures NoneBefore(user, n, j + 1)
  {
    RuleMatchesPlaced(user, id, n);
    assert Misses(user, n, j);
  }

  // Facts about placed text alone, kept apart from the rule table.

  /** Every placed pattern under the home directory starts with `/Users/`. */
  lemma UnderUsers(user: string, x: string)
    ensures "/Users/" <= Start(user, Rules.AtHome) + x
  {
    assert Start(user, Rules.AtHome) + x == "/Users/" + (user + "/" + x);
  }

  /** A placed root pattern starts with a slash and the first character of its first segment. */
  lemma RootLead(x: string, b: string, n: string)
    requires |x| >= 1 && x[0] != '*'
    requires |b| >= 2 && b <= n && b[1] != x[0]
    ensures var a := ['/', x[0]];
      Glob.StarFree(a) && a <= Start("", Rules.AtRoot) + x && !(a <= n)
  {
    PrefixesDiverge(['/', x[0]], b, n, 1);
  }

  /** A placed home pattern whose first segment does not start with `L` leaves `~/Library/`. */
  lemma HomeLead(user: string, x: string, rest: string)
    requires IsUserName(user) && |x| >= 1 && x[0] != 'L' && x[0] != '*'
    ensures var a := Home(user) + "/" + [x[0]];
      Glob.StarFree(a) && a <= Start(user, Rules.AtHome) + x && !(a <= Home(user) + "/Library/" + rest)
  {
    var a := Home(user) + "/" + [x[0]];
    var h := |Home(user)|;
    assert (Start(user, Rules.AtHome) + x)[..h + 2] == a;
    PrefixesDiverge(a, Home(user) + "/L", Home(user) + "/Library/" + rest, h + 1);
  }

  /** The lead of one segment is that segment and a slash. */
  lemma LeadOne(x: string)
    ensures Lead([x]) == x + "/"
  {
    assert [x][1..] == [];
  }

  /** The lead of the first two segments, placed under the home directory. */
  lemma LibraryLead(user: string, segs: seq<string>, rest: string)
    requires |segs| >= 2 && segs[0] == "Library"
    ensures Start(user, Rules.AtHome) + Lead(segs[..2]) == Home(user) + "/Library/" + (segs[1] + "/")
    ensures Start(user, Rules.AtHome) + Lead(segs[..2]) <= Home(user) + "/Library/" + rest <==> segs[1] + "/" <= rest
  {
    var two := segs[..2];
    assert two[1..] == [segs[1]];
    LeadOne(segs[1]);
    assert Lead(two) == "Library" + "/" + (segs[1] + "/");
    PrefixCancel(Home(user) + "/Library/", segs[1] + "/", rest);
  }

  /** A join is the lead of all segments but the last, followed by the last. */
  lemma JoinLast(segs: seq<string>)
    requires |segs| >= 1
    ensures PosixPath.Join(segs) == Lead(segs[..|segs| - 1]) + segs[|segs| - 1]
  {
    var m := |segs| - 1;
    JoinAfterLead(segs, m);
    assert segs[m..] == [segs[m]];
  }

  /** The lead of the first segment. */
  lemma LeadFirst(segs: seq<string>)
    requires |segs| >= 1
    ensures Lead(segs[..1]) == segs[0] + "/"
  {
    assert segs[..1] == [segs[0]];
    LeadOne(segs[0]);
  }

  /** The lead of the first two segments. */
  lemma LeadTwo(segs: seq<string>)
    requires |segs| >= 2
    ensures Lead(segs[..2]) == segs[0] + "/" + (segs[1] + "/")
  {
    assert segs[..2][1..] == [segs[1]];
    LeadOne(segs[1]);
  }

  /** The lead of the first three segments. */
  lemma LeadThree(segs: seq<string>)
    requires |segs| >= 3
    ensures Lead(segs[..3]) == segs[0] + "/" + (segs[1] + "/" + (segs[2] + "/"))
  {
    assert segs[..3][1..] == segs[1..][..2];
    LeadTwo(segs[1..]);
  }

  /** A pattern that is its lead followed by a star, placed. */
  lemma PlacedLeadStar(user: string, anchor: Rules.Anchor, segs: seq<string>)
    requires |segs| >= 1 && segs[|segs| - 1] == "*"
    ensures Start(user, anchor) + PosixPath.Join(segs) == Start(user, anchor) + Lead(segs[..|segs| - 1]) + "*"
  {
    JoinLast(segs);
  }

  // Patterns that miss a path, whatever rule they belong to.

  /** A pattern misses a path whose literal start differs from the lead of its first `c` segments. */
  lemma LeadMisses(user: string, s: Rules.Shape, n: string, c: int, p: string)
    requires 0 <= c < |s.segments|
    requires p == Start(user, s.anchor) + Lead(s.segments[..c])
    requires Glob.StarFree(p) && !(p <= n)
    ensures !Glob.Match(Placed(user, s), n)
  {
    LeadPrefix(user, s, c);
    LiteralPrefixExcludes(Placed(user, s), p, n);
  }

  /** A pattern under the home directory misses every path outside `/Users/`. */
  lemma HomeMisses(user: string, s: Rules.Shape, n: string)
    requires s.anchor == Rules.AtHome && !("/Users/" <= n)
    ensures !Glob.Match(Placed(user, s), n)
  {
    UnderUsers(user, PosixPath.Join(s.segments));
    LiteralPrefixExcludes(Placed(user, s), "/Users/", n);
  }

  /** A pattern anchored at the root misses a path whose first character after the slash differs. */
  lemma RootMisses(user: string, s: Rules.Shape, n: string, b: string)
    requires s.anchor == Rules.AtRoot && |s.segments| >= 1 && |s.segments[0]| >= 1
    requires |b| >= 2 && b <= n && b[1] != s.segments[0][0] && s.segments[0][0] != '*'
    ensures !Glob.Match(Placed(user, s), n)
  {
    PosixPath.JoinHead(s.segments);
    RootLead(PosixPath.Join(s.segments), b, n);
    LiteralPrefixExcludes(Placed(user, s), ['/', s.segments[0][0]], n);
  }

  /** A pattern under the home directory whose first segment does not start with `L` misses every path under `~/Library/`. */
  lemma HomeDivergeMisses(user: string, s: Rules.Shape, n: string, rest: string)
    requires IsUserName(user) && s.anchor == Rules.AtHome && |s.segments| >= 1 && |s.segments[0]| >= 1
    requires s.segments[0][0] != 'L' && s.segments[0][0] != '*'
    requires n == Home(user) + "/Library/" + rest
    ensures !Glob.Match(Placed(user, s), n)
  {
    PosixPath.JoinHead(s.segments);
    HomeLead(user, PosixPath.Join(s.segments), rest);
    LiteralPrefixExcludes(Placed(user, s), Home(user) + "/" + [s.segments[0][0]], n);
  }

  /** A pattern under `~/Library/<folder>/` misses every library path outside that folder. */
  lemma LibrarySubMisses(user: string, s: Rules.Shape, n: string, rest: string)
    requires IsUserName(user) && s.anchor == Rules.AtHome && |s.segments| >= 3
    requires s.segments[0] == "Library" && '*' !in s.segments[1]
    requires n == Home(user) + "/Library/" + rest && !(s.segments[1] + "/" <= rest)
    ensures !Glob.Match(Placed(user, s), n)
  {
    LibraryLead(user, s.segments, rest);
    StartStarFree(user, Rules.AtHome);
    LeadMisses(user, s, n, 2, Start(user, Rules.AtHome) + Lead(s.segments[..2]));
  }

  /** A pattern under `~/Library/` misses every library path whose remainder its own remainder does not match. */
  lemma LibraryTailMisses(user: string, s: Rules.Shape, n: string, rest: string, tail: string)
    requires IsUserName(user) && s.anchor == Rules.AtHome && |s.segments| >= 2 && s.segments[0] == "Library"
    requires PosixPath.Join(s.segments[1..]) == tail
    requires n == Home(user) + "/Library/" + rest && !Glob.Match(tail, rest)
    ensures !Glob.Match(Placed(user, s), n)
  {
    var a := Home(user) + "/Library/";
    StartStarFree(user, Rules.AtHome);
    assert a == Start(user, Rules.AtHome) + "Library/";
    assert Placed(user, s) == a + tail;
    if Glob.Match(a + tail, n) {
      Glob.MatchLiteralPrefix(a, tail, n);
    }
  }

  /** Two segments joined. */
  lemma JoinTwo(x: string, y: string)
    ensures PosixPath.Join([x, y]) == x + "/" + y
  {
    assert [x, y][1..] == [y];
  }

  /** Four segments joined. */
  lemma JoinFour(w: string, x: string, y: string, z: string)
    ensures PosixPath.Join([w, x, y, z]) == w + "/" + (x + "/" + (y + "/" + z))
  {
    assert [w, x, y, z][1..] == [x, y, z];
    assert [x, y, z][1..] == [y, z];
    JoinTwo(y, z);
  }

  /** Rule `k`, placed as a literal followed by a star, is the first match below that literal when no earlier rule matches. */
  lemma MatchLead(user: string, n: string, k: int, id: Rules.RuleId, p: string)
    requires IsUserName(user) && NoneBefore(user, n, k)
    requires 0 <= k < |Rules.PredefinedRules| && Rules.PredefinedRules[k] == id && CleanShape(Rules.ShapeOf(id))
    requires Placed(user, Rules.ShapeOf(id)) == p + "*"
    requires Glob.StarFree(p) && p <= n
    ensures Safety.FirstMatch(Rules.PredefinedRules, Safety.Matcher(Home(user), n)) == Some(k)
  {
    RuleMatchesPlaced(user, id, n);
    Glob.MatchPrefixStar(p, n);
    FirstAt(user, n, k);
  }

  /** A shape whose last segment is a star is placed as its placed lead followed by that star. */
  lemma PlacedPrefixStar(user: string, s: Rules.Shape, p: string)
    requires |s.segments| >= 1 && s.segments[|s.segments| - 1] == "*"
    requires p == Start(user, s.anchor) + Lead(s.segments[..|s.segments| - 1])
    ensures Placed(user, s) == p + "*"
  {
    PlacedLeadStar(user, s.anchor, s.segments);
  }

  /**
   * A rule whose last segment is a literal followed by a star matches every
   * path that starts with its lead and that literal.
   */
  lemma LeadMatches(user: string, id: Rules.RuleId, n: string, p: string)
    requires IsUserName(user) && CleanShape(Rules.ShapeOf(id))
    requires Placed(user, Rules.ShapeOf(id)) == p + "*"
    requires Glob.StarFree(p) && p <= n
    ensures Safety.RuleMatches(Home(user), id, n)
  {
    RuleMatchesPlaced(user, id, n);
    Glob.MatchPrefixStar(p, n);
  }

  /** A placed pattern whose last segment is a literal followed by a star. */
  lemma LastSegmentStar(user: string, anchor: Rules.Anchor, segs: seq<string>, x: string)
    requires |segs| >= 1 && segs[|segs| - 1] == x + "*"
    ensures Start(user, anchor) + PosixPath.Join(segs) == Start(user, anchor) + Lead(segs[..|segs| - 1]) + x + "*"
  {
    JoinLast(segs);
    Regroup(Start(user, anchor), Lead(segs[..|segs| - 1]), x);
  }

  /** A home-directory path carries no wildcard when its tail carries none. */
  lemma HomeStarFree(user: string, tail: string)
    requires IsUserName(user) && Glob.StarFree(tail)
    ensures Glob.StarFree(Home(user) + tail)
  {
  }

  /** Concatenation regrouped. */
  lemma RegroupHomeLead(h: string, e: string)
    ensures h + "/" + e == h + ("/" + e)
  {
  }

  /** Concatenation regrouped. */
  lemma RegroupHome(h: string, e: string, x: string)
    ensures h + "/" + e + x == h + ("/" + e + x)
  {
  }

  /** Concatenation regrouped. */
  lemma Regroup3(a: string, b: string, c: string, d: string, e: string)
    ensures a + b + c + d + e == a + b + (c + d + e)
  {
  }

  /** Concatenation regrouped. */
  lemma Regroup(b: string, l: string, x: string)
    ensures b + (l + (x + "*")) == b + l + x + "*"
  {
  }

  /**
   * Of two placed patterns with the same start, where the second is the first
   * segment of the first followed by a star, the second matches whatever the
   * first matches.
   */
  lemma ShadowMatch(user: string, anchor: Rules.Anchor, sk: seq<string>, se: seq<string>, n: string)
    requires IsUserName(user) && |sk| >= 2 && '*' !in sk[0] && se == [sk[0], "*"]
    requires Glob.Match(Start(user, anchor) + PosixPath.Join(sk), n)
    ensures Glob.Match(Start(user, anchor) + PosixPath.Join(se), n)
  {
    var a := Start(user, anchor) + Lead(sk[..1]);
    var p := Start(user, anchor) + PosixPath.Join(sk);
    JoinAfterLead(sk, 1);
    assert sk[..1] == [sk[0]];
    LeadOne(sk[0]);
    StartStarFree(user, anchor);
    assert p == a + PosixPath.Join(sk[1..]);
    Glob.MatchLiteralPrefix(a, PosixPath.Join(sk[1..]), n);
    PlacedLeadStar(user, anchor, se);
    assert se[..1] == sk[..1];
    Glob.MatchPrefixStar(a, n);
  }

  /**
   * Rule `k` is never the first match when an earlier rule `e`, with the
   * same anchor, is its first segment followed by a star.
   */
  lemma ShadowedAt(user: string, n: string, k: int, e: int, sk: Rules.Shape, se: Rules.Shape)
    requires IsUserName(user) && 0 <= e < k < |Rules.PredefinedRules|
    requires Rules.ShapeOf(Rules.PredefinedRules[k]) == sk && Rules.ShapeOf(Rules.PredefinedRules[e]) == se
    requires CleanShape(sk) && CleanShape(se)
    requires sk.anchor == se.anchor && |sk.segments| >= 2 && '*' !in sk.segments[0]
    requires se.segments == [sk.segments[0], "*"]
    ensures Safety.FirstMatch(Rules.PredefinedRules, Safety.Matcher(Home(user), n)) != Some(k)
  {
    RuleMatchesPlaced(user, Rules.PredefinedRules[k], n);
    RuleMatchesPlaced(user, Rules.PredefinedRules[e], n);
    if Glob.Match(Placed(user, sk), n) {
      ShadowMatch(user, sk.anchor, sk.segments, se.segments, n);
    }
  }

  /** A rule placed as a star followed by a literal matches every path that ends with that literal. */
  lemma StarSuffixMatches(user: string, id: Rules.RuleId, b: string, n: string)
    requires IsUserName(user) && CleanShape(Rules.ShapeOf(id))
    requires Placed(user, Rules.ShapeOf(id)) == "*" + b
    requires Glob.StarFree(b) && |b| <= |n| && n[|n| - |b|..] == b
    ensures Safety.RuleMatches(Home(user), id, n)
  {
    RuleMatchesPlaced(user, id, n);
    Glob.MatchStarSuffix(b, n);
  }

  // ---------------------------------------------------------------------------
  // Facts about the table
  // ---------------------------------------------------------------------------

  /** The first rule, `~/Library/Caches/` followed by a star, is the first match below the user's cache folder. */
  lemma UserCachesFirst(user: string, rest: string, n: string)
    requires IsUserName(user)
    requires n == Home(user) + "/Library/Caches/" + rest
    ensures Safety.FirstMatch(Rules.PredefinedRules, Safety.Matcher(Home(user), n)) == Some(0)
  {
    assert NoneBefore(user, n, 0);
    UserCachesIsFirst(user, n);
  }

  /** Paths under `~/Library/Caches/` classify green although the orange `~/Library/` rule also covers them. */
  lemma LibraryCachesAreGreen(user: string, cache: Safety.VerdictCache, path: string, rest: string)
    requires IsUserName(user)
    requires PosixPath.NormalizePath(Home(user), path) == Home(user) + "/Library/Caches/" + rest
    requires PosixPath.NormalizePath(Home(user), path) !in cache
    ensures Safety.GetSafetyInfo(Home(user), cache, path) == Rules.VerdictOf(Rules.UserCaches)
    ensures Safety.GetSafetyInfo(Home(user), cache, path).level == Rules.Green
  {
    UserCachesFirst(user, rest, PosixPath.NormalizePath(Home(user), path));
    UserCachesIndex();
    VerdictOfFirstMatch(user, cache, path, 0, Rules.UserCaches);
    UserCachesLevel();
  }

  /** `~/Library/` is the first rule to match a library path that no earlier rule matches. */
  lemma UserLibraryFirst(user: string, rest: string, n: string)
    requires IsUserName(user)
    requires n == Home(user) + "/Library/" + rest
    requires OutsideEarlierLibraryRules(rest)
    ensures Safety.FirstMatch(Rules.PredefinedRules, Safety.Matcher(Home(user), n)) == Some(20)
  {
    UnderUsers(user, "Library/" + rest);
    assert Start(user, Rules.AtHome) + ("Library/" + rest) == n;
    assert NoneBefore(user, n, 0);
    UserCachesSkipsLibrary(user, rest, n);
    SafariCacheSkipsLibrary(user, rest, n);
    ChromeCacheSkipsLibrary(user, rest, n);
    FirefoxCacheSkipsLibrary(user, rest, n);
    SystemCachesSkipsOther(user, n, "/Users/");
    TemporaryFoldersSkipsOther(user, n, "/Users/");
    TmpSkipsOther(user, n, "/Users/");
    AppSupportTempSkipsLibrary(user, rest, n);
    DownloadsSkipsLibrary(user, rest, n);
    DesktopSkipsLibrary(user, rest, n);
    TrashSkipsLibrary(user, rest, n);
    PrivateVarLogSkipsOther(user, n, "/Users/");
    UserLogsSkipsLibrary(user, rest, n);
    SafariDownloadsListSkipsLibrary(user, rest, n);
    SafariHistorySkipsLibrary(user, rest, n);
    MobileBackupsSkipsLibrary(user, rest, n);
    DocumentsSkipsLibrary(user, rest, n);
    PicturesSkipsLibrary(user, rest, n);
    MoviesSkipsLibrary(user, rest, n);
    MusicSkipsLibrary(user, rest, n);
    UserLibraryIsFirst(user, n);
  }

  /**
   * Every other path under `~/Library/` classifies orange: the `~/Library/` rule is the
   * first rule to match a library path that no earlier rule matches.
   */
  lemma LibraryIsOrange(user: string, cache: Safety.VerdictCache, path: string, rest: string)
    requires IsUserName(user)
    requires PosixPath.NormalizePath(Home(user), path) == Home(user) + "/Library/" + rest
    requires OutsideEarlierLibraryRules(rest)
    requires PosixPath.NormalizePath(Home(user), path) !in cache
    ensures Safety.GetSafetyInfo(Home(user), cache, path) == Rules.VerdictOf(Rules.UserLibrary)
    ensures Safety.GetSafetyInfo(Home(user), cache, path).level == Rules.Orange
  {
    UserLibraryFirst(user, rest, PosixPath.NormalizePath(Home(user), path));
    UserLibraryIndex();
    VerdictOfFirstMatch(user, cache, path, 20, Rules.UserLibrary);
    UserLibraryLevel();
  }

  /** The red rule for the login keychain is never the first match: `~/Library/` comes earlier and covers it. */
  lemma LoginKeychainUnreachable(user: string, n: string)
    requires IsUserName(user)
    ensures Safety.FirstMatch(Rules.PredefinedRules, Safety.Matcher(Home(user), n)) != Some(51)
  {
    LoginKeychainClean();
    UserLibraryClean();
    LoginKeychainIndex();
    UserLibraryIndex();
    LoginKeychainShape();
    UserLibraryShape();
    ShadowedAt(user, n, 51, 20, Rules.Shape(Rules.AtHome, ["Library", "Keychains", "login.keychain*"]), Rules.Shape(Rules.AtHome, ["Library", "*"]));
  }

  /** The red rule for the login-window preferences is never the first match, for the same reason. */
  lemma LoginWindowPrefsUnreachable(user: string, n: string)
    requires IsUserName(user)
    ensures Safety.FirstMatch(Rules.PredefinedRules, Safety.Matcher(Home(user), n)) != Some(52)
  {
    LoginWindowPrefsClean();
    UserLibraryClean();
    LoginWindowPrefsIndex();
    UserLibraryIndex();
    LoginWindowPrefsShape();
    UserLibraryShape();
    ShadowedAt(user, n, 52, 20, Rules.Shape(Rules.AtHome, ["Library", "Preferences", "com.apple.loginwindow.plist"]), Rules.Shape(Rules.AtHome, ["Library", "*"]));
  }

  /** The red `login.keychain` rule does match the user's login keychain. */
  lemma LoginKeychainMatches(user: string, rest: string, n: string)
    requires IsUserName(user)
    requires n == Home(user) + "/Library/Keychains/login.keychain" + rest
    ensures Safety.RuleMatches(Home(user), Rules.LoginKeychain, n)
  {
    LoginKeychainClean();
    LoginKeychainPrefix(user);
    LastSegmentStar(user, Rules.AtHome, ["Library", "Keychains", "login.keychain*"], "login.keychain");
    LeadMatches(user, Rules.LoginKeychain, n, Home(user) + "/Library/Keychains/login.keychain");
  }

  /**
   * Yet the login keychain classifies orange, not red: the orange
   * `~/Library/` rule comes first, so the red-only deletion gate lets it pass.
   */
  lemma LoginKeychainIsOrange(user: string, cache: Safety.VerdictCache, path: string, rest: string)
    requires IsUserName(user)
    requires PosixPath.NormalizePath(Home(user), path) == Home(user) + "/Library/Keychains/login.keychain" + rest
    requires PosixPath.NormalizePath(Home(user), path) !in cache
    ensures Safety.GetSafetyInfo(Home(user), cache, path).level == Rules.Orange
  {
    KeychainsInLibrary(Home(user), rest);
    var r := "Keychains/login.keychain" + rest;
    assert r[0] == 'K';
    LibraryIsOrange(user, cache, path, r);
  }

  /** The keychain path, split after the library folder. */
  lemma KeychainsInLibrary(h: string, rest: string)
    ensures h + "/Library/Keychains/login.keychain" + rest == h + "/Library/" + ("Keychains/login.keychain" + rest)
  {
    assert "/Library/Keychains/login.keychain" == "/Library/" + "Keychains/login.keychain";
  }

  /** Rule `*.dylib` matches every path that ends in `.dylib`. */
  lemma DylibFilesMatches(user: string, n: string)
    requires IsUserName(user)
    requires |n| >= 6 && n[|n| - 6..] == ".dylib"
    ensures Safety.RuleMatches(Home(user), Rules.DylibFiles, n)
  {
    DylibFilesClean();
    DylibFilesShape();
    assert Placed(user, Rules.ShapeOf(Rules.DylibFiles)) == "*" + ".dylib";
    StarSuffixMatches(user, Rules.DylibFiles, ".dylib", n);
  }

  /**
   * Extension rules are consulted only when no location rule matches: a
   * dynamic library under `~/Library/` would match the red `*.dylib` rule
   * but classifies orange through `~/Library/`.
   */
  lemma DylibUnderLibraryIsOrange(user: string, cache: Safety.VerdictCache, path: string, rest: string)
    requires IsUserName(user)
    requires PosixPath.NormalizePath(Home(user), path) == Home(user) + "/Library/" + rest
    requires OutsideEarlierLibraryRules(rest)
    requires |rest| >= 6 && rest[|rest| - 6..] == ".dylib"
    requires PosixPath.NormalizePath(Home(user), path) !in cache
    ensures Safety.GetSafetyInfo(Home(user), cache, path).level == Rules.Orange
  {
    LibraryIsOrange(user, cache, path, rest);
  }

  /** `/System/Library/Caches/` followed by a star is the first rule to match the system cache folder. */
  lemma SystemCachesFirst(user: string, rest: string, n: string)
    requires IsUserName(user)
    requires n == "/System/Library/Caches/" + rest
    ensures Safety.FirstMatch(Rules.PredefinedRules, Safety.Matcher(Home(user), n)) == Some(4)
  {
    assert "/System/" <= n;
    PrefixesDiverge("/Users/", "/System/", n, 1);
    assert NoneBefore(user, n, 0);
    UserCachesSkipsOffHome(user, n);
    SafariCacheSkipsOffHome(user, n);
    ChromeCacheSkipsOffHome(user, n);
    FirefoxCacheSkipsOffHome(user, n);
    SystemCachesIsFirst(user, n);
  }

  /** The system cache folder, split after `/System/`. */
  lemma SystemCachesSplit(rest: string)
    ensures "/System/Library/Caches/" <= "/System/" + rest <==> "Library/Caches/" <= rest
  {
    assert "/System/Library/Caches/" == "/System/" + "Library/Caches/";
    PrefixCancel("/System/", "Library/Caches/", rest);
  }

  /** Paths under `/System/Library/Caches/` classify green although the red `/System/` rule also covers them. */
  lemma SystemCachesAreGreen(user: string, cache: Safety.VerdictCache, path: string, rest: string)
    requires IsUserName(user)
    requires PosixPath.NormalizePath(Home(user), path) == "/System/Library/Caches/" + rest
    requires PosixPath.NormalizePath(Home(user), path) !in cache
    ensures Safety.GetSafetyInfo(Home(user), cache, path) == Rules.VerdictOf(Rules.SystemCaches)
    ensures Safety.GetSafetyInfo(Home(user), cache, path).level == Rules.Green
  {
    SystemCachesFirst(user, rest, PosixPath.NormalizePath(Home(user), path));
    SystemCachesIndex();
    VerdictOfFirstMatch(user, cache, path, 4, Rules.SystemCaches);
    SystemCachesLevel();
  }

  /** `/System/` followed by a star is the first rule to match any other path under `/System/`. */
  lemma SystemRootFirst(user: string, rest: string, n: string)
    requires IsUserName(user)
    requires n == "/System/" + rest
    requires !("Library/Caches/" <= rest)
    ensures Safety.FirstMatch(Rules.PredefinedRules, Safety.Matcher(Home(user), n)) == Some(32)
  {
    PrefixesDiverge("/Users/", "/System/", n, 1);
    assert NoneBefore(user, n, 0);
    UserCachesSkipsOffHome(user, n);
    SafariCacheSkipsOffHome(user, n);
    ChromeCacheSkipsOffHome(user, n);
    FirefoxCacheSkipsOffHome(user, n);
    SystemCachesSkipsSystem(user, rest, n);
    TemporaryFoldersSkipsOther(user, n, "/System/");
    TmpSkipsOther(user, n, "/System/");
    AppSupportTempSkipsOffHome(user, n);
    DownloadsSkipsOffHome(user, n);
    DesktopSkipsOffHome(user, n);
    TrashSkipsOffHome(user, n);
    PrivateVarLogSkipsOther(user, n, "/System/");
    UserLogsSkipsOffHome(user, n);
    SafariDownloadsListSkipsOffHome(user, n);
    SafariHistorySkipsOffHome(user, n);
    MobileBackupsSkipsOffHome(user, n);
    DocumentsSkipsOffHome(user, n);
    PicturesSkipsOffHome(user, n);
    MoviesSkipsOffHome(user, n);
    MusicSkipsOffHome(user, n);
    UserLibrarySkipsOffHome(user, n);
    PreferencesSkipsOffHome(user, n);
    ApplicationSupportSkipsOffHome(user, n);
    KeychainsSkipsOffHome(user, n);
    MailSkipsOffHome(user, n);
    CalendarsSkipsOffHome(user, n);
    ContactsSkipsOffHome(user, n);
    UsrLocalSkipsOther(user, n, "/System/");
    OptSkipsOther(user, n, "/System/");
    VarDbSkipsOther(user, n, "/System/");
    VarLogSkipsOther(user, n, "/System/");
    VarTmpSkipsOther(user, n, "/System/");
    SystemRootIsFirst(user, n);
  }

  /** Every path under `/System/` outside its cache folder classifies red. */
  lemma OtherSystemPathsAreRed(user: string, cache: Safety.VerdictCache, path: string, rest: string)
    requires IsUserName(user)
    requires PosixPath.NormalizePath(Home(user), path) == "/System/" + rest
    requires !("Library/Caches/" <= rest)
    requires PosixPath.NormalizePath(Home(user), path) !in cache
    ensures Safety.GetSafetyInfo(Home(user), cache, path) == Rules.VerdictOf(Rules.SystemRoot)
    ensures Safety.GetSafetyInfo(Home(user), cache, path).level == Rules.Red
  {
    SystemRootFirst(user, rest, PosixPath.NormalizePath(Home(user), path));
    SystemRootIndex();
    VerdictOfFirstMatch(user, cache, path, 32, Rules.SystemRoot);
    SystemRootLevel();
  }

  /** `/private/var/log/` followed by a star is the first rule to match the real log folder. */
  lemma PrivateVarLogFirst(user: string, rest: string, n: string)
    requires IsUserName(user)
    requires n == "/private/var/log/" + rest
    ensures Safety.FirstMatch(Rules.PredefinedRules, Safety.Matcher(Home(user), n)) == Some(11)
  {
    PrefixesDiverge("/Users/", "/private/var/log/", n, 1);
    assert NoneBefore(user, n, 0);
    UserCachesSkipsOffHome(user, n);
    SafariCacheSkipsOffHome(user, n);
    ChromeCacheSkipsOffHome(user, n);
    FirefoxCacheSkipsOffHome(user, n);
    SystemCachesSkipsOther(user, n, "/private/var/log/");
    TemporaryFoldersSkipsVarLog(user, rest, n);
    TmpSkipsOther(user, n, "/private/var/log/");
    AppSupportTempSkipsOffHome(user, n);
    DownloadsSkipsOffHome(user, n);
    DesktopSkipsOffHome(user, n);
    TrashSkipsOffHome(user, n);
    PrivateVarLogIsFirst(user, n);
  }

  /** Paths under `/private/var/log/` classify green. */
  lemma PrivateVarLogIsGreen(user: string, cache: Safety.VerdictCache, path: string, rest: string)
    requires IsUserName(user)
    requires PosixPath.NormalizePath(Home(user), path) == "/private/var/log/" + rest
    requires PosixPath.NormalizePath(Home(user), path) !in cache
    ensures Safety.GetSafetyInfo(Home(user), cache, path) == Rules.VerdictOf(Rules.PrivateVarLog)
    ensures Safety.GetSafetyInfo(Home(user), cache, path).level == Rules.Green
  {
    PrivateVarLogFirst(user, rest, PosixPath.NormalizePath(Home(user), path));
    PrivateVarLogIndex();
    VerdictOfFirstMatch(user, cache, path, 11, Rules.PrivateVarLog);
    PrivateVarLogLevel();
  }

  /** `/var/log/` followed by a star is the first rule to match the log folder reached through the `/var` link. */
  lemma VarLogFirst(user: string, rest: string, n: string)
    requires IsUserName(user)
    requires n == "/var/log/" + rest
    ensures Safety.FirstMatch(Rules.PredefinedRules, Safety.Matcher(Home(user), n)) == Some(30)
  {
    PrefixesDiverge("/Users/", "/var/log/", n, 1);
    assert NoneBefore(user, n, 0);
    UserCachesSkipsOffHome(user, n);
    SafariCacheSkipsOffHome(user, n);
    ChromeCacheSkipsOffHome(user, n);
    FirefoxCacheSkipsOffHome(user, n);
    SystemCachesSkipsOther(user, n, "/var/log/");
    TemporaryFoldersSkipsOther(user, n, "/var/log/");
    TmpSkipsOther(user, n, "/var/log/");
    AppSupportTempSkipsOffHome(user, n);
    DownloadsSkipsOffHome(user, n);
    DesktopSkipsOffHome(user, n);
    TrashSkipsOffHome(user, n);
    PrivateVarLogSkipsOther(user, n, "/var/log/");
    UserLogsSkipsOffHome(user, n);
    SafariDownloadsListSkipsOffHome(user, n);
    SafariHistorySkipsOffHome(user, n);
    MobileBackupsSkipsOffHome(user, n);
    DocumentsSkipsOffHome(user, n);
    PicturesSkipsOffHome(user, n);
    MoviesSkipsOffHome(user, n);
    MusicSkipsOffHome(user, n);
    UserLibrarySkipsOffHome(user, n);
    PreferencesSkipsOffHome(user, n);
    ApplicationSupportSkipsOffHome(user, n);
    KeychainsSkipsOffHome(user, n);
    MailSkipsOffHome(user, n);
    CalendarsSkipsOffHome(user, n);
    ContactsSkipsOffHome(user, n);
    UsrLocalSkipsOther(user, n, "/var/log/");
    OptSkipsOther(user, n, "/var/log/");
    VarDbSkipsVarLog(user, rest, n);
    VarLogIsFirst(user, n);
  }

  /**
   * Symbolic links are not resolved: paths under `/var/log/` classify orange
   * while the same files under `/private/var/log/` classify green.
   */
  lemma VarLogIsOrange(user: string, cache: Safety.VerdictCache, path: string, rest: string)
    requires IsUserName(user)
    requires PosixPath.NormalizePath(Home(user), path) == "/var/log/" + rest
    requires PosixPath.NormalizePath(Home(user), path) !in cache
    ensures Safety.GetSafetyInfo(Home(user), cache, path) == Rules.VerdictOf(Rules.VarLog)
    ensures Safety.GetSafetyInfo(Home(user), cache, path).level == Rules.Orange
  {
    VarLogFirst(user, rest, PosixPath.NormalizePath(Home(user), path));
    VarLogIndex();
    VerdictOfFirstMatch(user, cache, path, 30, Rules.VarLog);
    VarLogLevel();
  }


  // ---------------------------------------------------------------------------
  // Steps of the scan, one rule at a time
  // ---------------------------------------------------------------------------

  /** Rule `UserCaches` misses a library path that no earlier library rule matches. */
  lemma UserCachesSkipsLibrary(user: string, rest: string, n: string)
    requires IsUserName(user) && n == Home(user) + "/Library/" + rest
    requires OutsideEarlierLibraryRules(rest)
    requires NoneBefore(user, n, 0)
    ensures NoneBefore(user, n, 1)
  {
    UserCachesClean();
    UserCachesIndex();
    UserCachesShape();
    LibrarySubMisses(user, Rules.Shape(Rules.AtHome, ["Library", "Caches", "*"]), n, rest);
    SkipPlaced(user, n, 0, Rules.UserCaches);
  }

  /** Rule `SafariCache` misses a library path that no earlier library rule matches. */
  lemma SafariCacheSkipsLibrary(user: string, rest: string, n: string)
    requires IsUserName(user) && n == Home(user) + "/Library/" + rest
    requires OutsideEarlierLibraryRules(rest)
    requires NoneBefore(user, n, 1)
    ensures NoneBefore(user, n, 2)
  {
    SafariCacheClean();
    SafariCacheIndex();
    SafariCacheShape();
    LibrarySubMisses(user, Rules.Shape(Rules.AtHome, ["Library", "Caches", "com.apple.Safari", "*"]), n, rest);
    SkipPlaced(user, n, 1, Rules.SafariCache);
  }

  /** Rule `ChromeCache` misses a library path that no earlier library rule matches. */
  lemma ChromeCacheSkipsLibrary(user: string, rest: string, n: string)
    requires IsUserName(user) && n == Home(user) + "/Library/" + rest
    requires OutsideEarlierLibraryRules(rest)
    requires NoneBefore(user, n, 2)
    ensures NoneBefore(user, n, 3)
  {
    ChromeCacheClean();
    ChromeCacheIndex();
    ChromeCacheShape();
    LibrarySubMisses(user, Rules.Shape(Rules.AtHome, ["Library", "Caches", "com.google.Chrome", "*"]), n, rest);
    SkipPlaced(user, n, 2, Rules.ChromeCache);
  }

  /** Rule `FirefoxCache` misses a library path that no earlier library rule matches. */
  lemma FirefoxCacheSkipsLibrary(user: string, rest: string, n: string)
    requires IsUserName(user) && n == Home(user) + "/Library/" + rest
    requires OutsideEarlierLibraryRules(rest)
    requires NoneBefore(user, n, 3)
    ensures NoneBefore(user, n, 4)
  {
    FirefoxCacheClean();
    FirefoxCacheIndex();
    FirefoxCacheShape();
    LibrarySubMisses(user, Rules.Shape(Rules.AtHome, ["Library", "Caches", "com.mozilla.firefox", "*"]), n, rest);
    SkipPlaced(user, n, 3, Rules.FirefoxCache);
  }

  /** Rule `AppSupportTemp` misses a library path that no earlier library rule matches. */
  lemma AppSupportTempSkipsLibrary(user: string, rest: string, n: string)
    requires IsUserName(user) && n == Home(user) + "/Library/" + rest
    requires OutsideEarlierLibraryRules(rest)
    requires NoneBefore(user, n, 7)
    ensures NoneBefore(user, n, 8)
  {
    AppSupportTempClean();
    AppSupportTempIndex();
    AppSupportTempShape();
    AppSupportTempMissesLibrary(user, n, rest);
    SkipPlaced(user, n, 7, Rules.AppSupportTemp);
  }

  /** Rule `Downloads` misses a library path that no earlier library rule matches. */
  lemma DownloadsSkipsLibrary(user: string, rest: string, n: string)
    requires IsUserName(user) && n == Home(user) + "/Library/" + rest
    requires OutsideEarlierLibraryRules(rest)
    requires NoneBefore(user, n, 8)
    ensures NoneBefore(user, n, 9)
  {
    DownloadsClean();
    DownloadsIndex();
    DownloadsShape();
    HomeDivergeMisses(user, Rules.Shape(Rules.AtHome, ["Downloads", "*"]), n, rest);
    SkipPlaced(user, n, 8, Rules.Downloads);
  }

  /** Rule `Desktop` misses a library path that no earlier library rule matches. */
  lemma DesktopSkipsLibrary(user: string, rest: string, n: string)
    requires IsUserName(user) && n == Home(user) + "/Library/" + rest
    requires OutsideEarlierLibraryRules(rest)
    requires NoneBefore(user, n, 9)
    ensures NoneBefore(user, n, 10)
  {
    DesktopClean();
    DesktopIndex();
    DesktopShape();
    HomeDivergeMisses(user, Rules.Shape(Rules.AtHome, ["Desktop", "*"]), n, rest);
    SkipPlaced(user, n, 9, Rules.Desktop);
  }

  /** Rule `Trash` misses a library path that no earlier library rule matches. */
  lemma TrashSkipsLibrary(user: string, rest: string, n: string)
    requires IsUserName(user) && n == Home(user) + "/Library/" + rest
    requires OutsideEarlierLibraryRules(rest)
    requires NoneBefore(user, n, 10)
    ensures NoneBefore(user, n, 11)
  {
    TrashClean();
    TrashIndex();
    TrashShape();
    HomeDivergeMisses(user, Rules.Shape(Rules.AtHome, [".Trash", "*"]), n, rest);
    SkipPlaced(user, n, 10, Rules.Trash);
  }

  /** Rule `UserLogs` misses a library path that no earlier library rule matches. */
  lemma UserLogsSkipsLibrary(user: string, rest: string, n: string)
    requires IsUserName(user) && n == Home(user) + "/Library/" + rest
    requires OutsideEarlierLibraryRules(rest)
    requires NoneBefore(user, n, 12)
    ensures NoneBefore(user, n, 13)
  {
    UserLogsClean();
    UserLogsIndex();
    UserLogsShape();
    LibrarySubMisses(user, Rules.Shape(Rules.AtHome, ["Library", "Logs", "*"]), n, rest);
    SkipPlaced(user, n, 12, Rules.UserLogs);
  }

  /** Rule `SafariDownloadsList` misses a library path that no earlier library rule matches. */
  lemma SafariDownloadsListSkipsLibrary(user: string, rest: string, n: string)
    requires IsUserName(user) && n == Home(user) + "/Library/" + rest
    requires OutsideEarlierLibraryRules(rest)
    requires NoneBefore(user, n, 13)
    ensures NoneBefore(user, n, 14)
  {
    SafariDownloadsListClean();
    SafariDownloadsListIndex();
    SafariDownloadsListShape();
    SafariDownloadsListMissesLibrary(user, n, rest);
    SkipPlaced(user, n, 13, Rules.SafariDownloadsList);
  }

  /** Rule `SafariHistory` misses a library path that no earlier library rule matches. */
  lemma SafariHistorySkipsLibrary(user: string, rest: string, n: string)
    requires IsUserName(user) && n == Home(user) + "/Library/" + rest
    requires OutsideEarlierLibraryRules(rest)
    requires NoneBefore(user, n, 14)
    ensures NoneBefore(user, n, 15)
  {
    SafariHistoryClean();
    SafariHistoryIndex();
    SafariHistoryShape();
    SafariHistoryMissesLibrary(user, n, rest);
    SkipPlaced(user, n, 14, Rules.SafariHistory);
  }

  /** Rule `MobileBackups` misses a library path that no earlier library rule matches. */
  lemma MobileBackupsSkipsLibrary(user: string, rest: string, n: string)
    requires IsUserName(user) && n == Home(user) + "/Library/" + rest
    requires OutsideEarlierLibraryRules(rest)
    requires NoneBefore(user, n, 15)
    ensures NoneBefore(user, n, 16)
  {
    MobileBackupsClean();
    MobileBackupsIndex();
    MobileBackupsShape();
    MobileBackupsMissesLibrary(user, n, rest);
    SkipPlaced(user, n, 15, Rules.MobileBackups);
  }

  /** Rule `Documents` misses a library path that no earlier library rule matches. */
  lemma DocumentsSkipsLibrary(user: string, rest: string, n: string)
    requires IsUserName(user) && n == Home(user) + "/Library/" + rest
    requires OutsideEarlierLibraryRules(rest)
    requires NoneBefore(user, n, 16)
    ensures NoneBefore(user, n, 17)
  {
    DocumentsClean();
    DocumentsIndex();
    DocumentsShape();
    HomeDivergeMisses(user, Rules.Shape(Rules.AtHome, ["Documents", "*"]), n, rest);
    SkipPlaced(user, n, 16, Rules.Documents);
  }

  /** Rule `Pictures` misses a library path that no earlier library rule matches. */
  lemma PicturesSkipsLibrary(user: string, rest: string, n: string)
    requires IsUserName(user) && n == Home(user) + "/Library/" + rest
    requires OutsideEarlierLibraryRules(rest)
    requires NoneBefore(user, n, 17)
    ensures NoneBefore(user, n, 18)
  {
    PicturesClean();
    PicturesIndex();
    PicturesShape();
    HomeDivergeMisses(user, Rules.Shape(Rules.AtHome, ["Pictures", "*"]), n, rest);
    SkipPlaced(user, n, 17, Rules.Pictures);
  }

  /** Rule `Movies` misses a library path that no earlier library rule matches. */
  lemma MoviesSkipsLibrary(user: string, rest: string, n: string)
    requires IsUserName(user) && n == Home(user) + "/Library/" + rest
    requires OutsideEarlierLibraryRules(rest)
    requires NoneBefore(user, n, 18)
    ensures NoneBefore(user, n, 19)
  {
    MoviesClean();
    MoviesIndex();
    MoviesShape();
    HomeDivergeMisses(user, Rules.Shape(Rules.AtHome, ["Movies", "*"]), n, rest);
    SkipPlaced(user, n, 18, Rules.Movies);
  }

  /** Rule `Music` misses a library path that no earlier library rule matches. */
  lemma MusicSkipsLibrary(user: string, rest: string, n: string)
    requires IsUserName(user) && n == Home(user) + "/Library/" + rest
    requires OutsideEarlierLibraryRules(rest)
    requires NoneBefore(user, n, 19)
    ensures NoneBefore(user, n, 20)
  {
    MusicClean();
    MusicIndex();
    MusicShape();
    HomeDivergeMisses(user, Rules.Shape(Rules.AtHome, ["Music", "*"]), n, rest);
    SkipPlaced(user, n, 19, Rules.Music);
  }

  /** The pattern of rule `AppSupportTemp` misses a library path that no earlier library rule matches. */
  lemma AppSupportTempMissesLibrary(user: string, n: string, rest: string)
    requires IsUserName(user) && n == Home(user) + "/Library/" + rest
    requires OutsideEarlierLibraryRules(rest)
    ensures !Glob.Match(Placed(user, Rules.Shape(Rules.AtHome, ["Library", "Application Support", "*", "Temp", "*"])), n)
  {
    AppSupportTempTail();
    LibraryTailMisses(user, Rules.Shape(Rules.AtHome, ["Library", "Application Support", "*", "Temp", "*"]), n, rest, "Application Support/*/Temp/*");
  }

  /** The pattern of rule `AppSupportTemp` after `Library/`. */
  lemma AppSupportTempTail()
    ensures PosixPath.Join(Rules.Shape(Rules.AtHome, ["Library", "Application Support", "*", "Temp", "*"]).segments[1..]) == "Application Support/*/Temp/*"
  {
    JoinFour("Application Support", "*", "Temp", "*");
    assert Rules.Shape(Rules.AtHome, ["Library", "Application Support", "*", "Temp", "*"]).segments[1..] == ["Application Support", "*", "Temp", "*"];
  }

  /** The pattern of rule `SafariDownloadsList` misses a library path that no earlier library rule matches. */
  lemma SafariDownloadsListMissesLibrary(user: string, n: string, rest: string)
    requires IsUserName(user) && n == Home(user) + "/Library/" + rest
    requires OutsideEarlierLibraryRules(rest)
    ensures !Glob.Match(Placed(user, Rules.Shape(Rules.AtHome, ["Library", "Safari", "Downloads.plist"])), n)
  {
    SafariDownloadsListTail();
    Glob.MatchLiteral("Safari/Downloads.plist", rest);
    LibraryTailMisses(user, Rules.Shape(Rules.AtHome, ["Library", "Safari", "Downloads.plist"]), n, rest, "Safari/Downloads.plist");
  }

  /** The pattern of rule `SafariDownloadsList` after `Library/`. */
  lemma SafariDownloadsListTail()
    ensures PosixPath.Join(Rules.Shape(Rules.AtHome, ["Library", "Safari", "Downloads.plist"]).segments[1..]) == "Safari/Downloads.plist"
  {
    JoinTwo("Safari", "Downloads.plist");
    assert Rules.Shape(Rules.AtHome, ["Library", "Safari", "Downloads.plist"]).segments[1..] == ["Safari", "Downloads.plist"];
  }

  /** The pattern of rule `SafariHistory` misses a library path that no earlier library rule matches. */
  lemma SafariHistoryMissesLibrary(user: string, n: string, rest: string)
    requires IsUserName(user) && n == Home(user) + "/Library/" + rest
    requires OutsideEarlierLibraryRules(rest)
    ensures !Glob.Match(Placed(user, Rules.Shape(Rules.AtHome, ["Library", "Safari", "History.db*"])), n)
  {
    SafariHistoryTail();
    Glob.MatchPrefixStar("Safari/History.db", rest);
    LibraryTailMisses(user, Rules.Shape(Rules.AtHome, ["Library", "Safari", "History.db*"]), n, rest, "Safari/History.db" + "*");
  }

  /** The pattern of rule `SafariHistory` after `Library/`. */
  lemma SafariHistoryTail()
    ensures PosixPath.Join(Rules.Shape(Rules.AtHome, ["Library", "Safari", "History.db*"]).segments[1..]) == "Safari/History.db" + "*"
  {
    JoinTwo("Safari", "History.db*");
    assert Rules.Shape(Rules.AtHome, ["Library", "Safari", "History.db*"]).segments[1..] == ["Safari", "History.db*"];
  }

  /** The pattern of rule `MobileBackups` misses a library path that no earlier library rule matches. */
  lemma MobileBackupsMissesLibrary(user: string, n: string, rest: string)
    requires IsUserName(user) && n == Home(user) + "/Library/" + rest
    requires OutsideEarlierLibraryRules(rest)
    ensures !Glob.Match(Placed(user, Rules.Shape(Rules.AtHome, ["Library", "Application Support", "MobileSync", "Backup", "*"])), n)
  {
    MobileBackupsTail();
    Glob.MatchPrefixStar("Application Support/MobileSync/Backup/", rest);
    LibraryTailMisses(user, Rules.Shape(Rules.AtHome, ["Library", "Application Support", "MobileSync", "Backup", "*"]), n, rest, "Application Support/MobileSync/Backup/" + "*");
  }

  /** The pattern of rule `MobileBackups` after `Library/`. */
  lemma MobileBackupsTail()
    ensures PosixPath.Join(Rules.Shape(Rules.AtHome, ["Library", "Application Support", "MobileSync", "Backup", "*"]).segments[1..]) == "Application Support/MobileSync/Backup/" + "*"
  {
    JoinFour("Application Support", "MobileSync", "Backup", "*");
    assert Rules.Shape(Rules.AtHome, ["Library", "Application Support", "MobileSync", "Backup", "*"]).segments[1..] == ["Application Support", "MobileSync", "Backup", "*"];
  }

  /** Rule `UserCaches` lies under the home directory, so it misses every path outside `/Users/`. */
  lemma UserCachesSkipsOffHome(user: string, n: string)
    requires IsUserName(user) && !("/Users/" <= n)
    requires NoneBefore(user, n, 0)
    ensures NoneBefore(user, n, 1)
  {
    UserCachesClean();
    UserCachesIndex();
    UserCachesShape();
    HomeMisses(user, Rules.Shape(Rules.AtHome, ["Library", "Caches", "*"]), n);
    SkipPlaced(user, n, 0, Rules.UserCaches);
  }

  /** Rule `SafariCache` lies under the home directory, so it misses every path outside `/Users/`. */
  lemma SafariCacheSkipsOffHome(user: string, n: string)
    requires IsUserName(user) && !("/Users/" <= n)
    requires NoneBefore(user, n, 1)
    ensures NoneBefore(user, n, 2)
  {
    SafariCacheClean();
    SafariCacheIndex();
    SafariCacheShape();
    HomeMisses(user, Rules.Shape(Rules.AtHome, ["Library", "Caches", "com.apple.Safari", "*"]), n);
    SkipPlaced(user, n, 1, Rules.SafariCache);
  }

  /** Rule `ChromeCache` lies under the home directory, so it misses every path outside `/Users/`. */
  lemma ChromeCacheSkipsOffHome(user: string, n: string)
    requires IsUserName(user) && !("/Users/" <= n)
    requires NoneBefore(user, n, 2)
    ensures NoneBefore(user, n, 3)
  {
    ChromeCacheClean();
    ChromeCacheIndex();
    ChromeCacheShape();
    HomeMisses(user, Rules.Shape(Rules.AtHome, ["Library", "Caches", "com.google.Chrome", "*"]), n);
    SkipPlaced(user, n, 2, Rules.ChromeCache);
  }

  /** Rule `FirefoxCache` lies under the home directory, so it misses every path outside `/Users/`. */
  lemma FirefoxCacheSkipsOffHome(user: string, n: string)
    requires IsUserName(user) && !("/Users/" <= n)
    requires NoneBefore(user, n, 3)
    ensures NoneBefore(user, n, 4)
  {
    FirefoxCacheClean();
    FirefoxCacheIndex();
    FirefoxCacheShape();
    HomeMisses(user, Rules.Shape(Rules.AtHome, ["Library", "Caches", "com.mozilla.firefox", "*"]), n);
    SkipPlaced(user, n, 3, Rules.FirefoxCache);
  }

  /** Rule `AppSupportTemp` lies under the home directory, so it misses every path outside `/Users/`. */
  lemma AppSupportTempSkipsOffHome(user: string, n: string)
    requires IsUserName(user) && !("/Users/" <= n)
    requires NoneBefore(user, n, 7)
    ensures NoneBefore(user, n, 8)
  {
    AppSupportTempClean();
    AppSupportTempIndex();
    AppSupportTempShape();
    HomeMisses(user, Rules.Shape(Rules.AtHome, ["Library", "Application Support", "*", "Temp", "*"]), n);
    SkipPlaced(user, n, 7, Rules.AppSupportTemp);
  }

  /** Rule `Downloads` lies under the home directory, so it misses every path outside `/Users/`. */
  lemma DownloadsSkipsOffHome(user: string, n: string)
    requires IsUserName(user) && !("/Users/" <= n)
    requires NoneBefore(user, n, 8)
    ensures NoneBefore(user, n, 9)
  {
    DownloadsClean();
    DownloadsIndex();
    DownloadsShape();
    HomeMisses(user, Rules.Shape(Rules.AtHome, ["Downloads", "*"]), n);
    SkipPlaced(user, n, 8, Rules.Downloads);
  }

  /** Rule `Desktop` lies under the home directory, so it misses every path outside `/Users/`. */
  lemma DesktopSkipsOffHome(user: string, n: string)
    requires IsUserName(user) && !("/Users/" <= n)
    requires NoneBefore(user, n, 9)
    ensures NoneBefore(user, n, 10)
  {
    DesktopClean();
    DesktopIndex();
    DesktopShape();
    HomeMisses(user, Rules.Shape(Rules.AtHome, ["Desktop", "*"]), n);
    SkipPlaced(user, n, 9, Rules.Desktop);
  }

  /** Rule `Trash` lies under the home directory, so it misses every path outside `/Users/`. */
  lemma TrashSkipsOffHome(user: string, n: string)
    requires IsUserName(user) && !("/Users/" <= n)
    requires NoneBefore(user, n, 10)
    ensures NoneBefore(user, n, 11)
  {
    TrashClean();
    TrashIndex();
    TrashShape();
    HomeMisses(user, Rules.Shape(Rules.AtHome, [".Trash", "*"]), n);
    SkipPlaced(user, n, 10, Rules.Trash);
  }

  /** Rule `UserLogs` lies under the home directory, so it misses every path outside `/Users/`. */
  lemma UserLogsSkipsOffHome(user: string, n: string)
    requires IsUserName(user) && !("/Users/" <= n)
    requires NoneBefore(user, n, 12)
    ensures NoneBefore(user, n, 13)
  {
    UserLogsClean();
    UserLogsIndex();
    UserLogsShape();
    HomeMisses(user, Rules.Shape(Rules.AtHome, ["Library", "Logs", "*"]), n);
    SkipPlaced(user, n, 12, Rules.UserLogs);
  }

  /** Rule `SafariDownloadsList` lies under the home directory, so it misses every path outside `/Users/`. */
  lemma SafariDownloadsListSkipsOffHome(user: string, n: string)
    requires IsUserName(user) && !("/Users/" <= n)
    requires NoneBefore(user, n, 13)
    ensures NoneBefore(user, n, 14)
  {
    SafariDownloadsListClean();
    SafariDownloadsListIndex();
    SafariDownloadsListShape();
    HomeMisses(user, Rules.Shape(Rules.AtHome, ["Library", "Safari", "Downloads.plist"]), n);
    SkipPlaced(user, n, 13, Rules.SafariDownloadsList);
  }

  /** Rule `SafariHistory` lies under the home directory, so it misses every path outside `/Users/`. */
  lemma SafariHistorySkipsOffHome(user: string, n: string)
    requires IsUserName(user) && !("/Users/" <= n)
    requires NoneBefore(user, n, 14)
    ensures NoneBefore(user, n, 15)
  {
    SafariHistoryClean();
    SafariHistoryIndex();
    SafariHistoryShape();
    HomeMisses(user, Rules.Shape(Rules.AtHome, ["Library", "Safari", "History.db*"]), n);
    SkipPlaced(user, n, 14, Rules.SafariHistory);
  }

  /** Rule `MobileBackups` lies under the home directory, so it misses every path outside `/Users/`. */
  lemma MobileBackupsSkipsOffHome(user: string, n: string)
    requires IsUserName(user) && !("/Users/" <= n)
    requires NoneBefore(user, n, 15)
    ensures NoneBefore(user, n, 16)
  {
    MobileBackupsClean();
    MobileBackupsIndex();
    MobileBackupsShape();
    HomeMisses(user, Rules.Shape(Rules.AtHome, ["Library", "Application Support", "MobileSync", "Backup", "*"]), n);
    SkipPlaced(user, n, 15, Rules.MobileBackups);
  }

  /** Rule `Documents` lies under the home directory, so it misses every path outside `/Users/`. */
  lemma DocumentsSkipsOffHome(user: string, n: string)
    requires IsUserName(user) && !("/Users/" <= n)
    requires NoneBefore(user, n, 16)
    ensures NoneBefore(user, n, 17)
  {
    DocumentsClean();
    DocumentsIndex();
    DocumentsShape();
    HomeMisses(user, Rules.Shape(Rules.AtHome, ["Documents", "*"]), n);
    SkipPlaced(user, n, 16, Rules.Documents);
  }

  /** Rule `Pictures` lies under the home directory, so it misses every path outside `/Users/`. */
  lemma PicturesSkipsOffHome(user: string, n: string)
    requires IsUserName(user) && !("/Users/" <= n)
    requires NoneBefore(user, n, 17)
    ensures NoneBefore(user, n, 18)
  {
    PicturesClean();
    PicturesIndex();
    PicturesShape();
    HomeMisses(user, Rules.Shape(Rules.AtHome, ["Pictures", "*"]), n);
    SkipPlaced(user, n, 17, Rules.Pictures);
  }

  /** Rule `Movies` lies under the home directory, so it misses every path outside `/Users/`. */
  lemma MoviesSkipsOffHome(user: string, n: string)
    requires IsUserName(user) && !("/Users/" <= n)
    requires NoneBefore(user, n, 18)
    ensures NoneBefore(user, n, 19)
  {
    MoviesClean();
    MoviesIndex();
    MoviesShape();
    HomeMisses(user, Rules.Shape(Rules.AtHome, ["Movies", "*"]), n);
    SkipPlaced(user, n, 18, Rules.Movies);
  }

  /** Rule `Music` lies under the home directory, so it misses every path outside `/Users/`. */
  lemma MusicSkipsOffHome(user: string, n: string)
    requires IsUserName(user) && !("/Users/" <= n)
    requires NoneBefore(user, n, 19)
    ensures NoneBefore(user, n, 20)
  {
    MusicClean();
    MusicIndex();
    MusicShape();
    HomeMisses(user, Rules.Shape(Rules.AtHome, ["Music", "*"]), n);
    SkipPlaced(user, n, 19, Rules.Music);
  }

  /** Rule `UserLibrary` lies under the home directory, so it misses every path outside `/Users/`. */
  lemma UserLibrarySkipsOffHome(user: string, n: string)
    requires IsUserName(user) && !("/Users/" <= n)
    requires NoneBefore(user, n, 20)
    ensures NoneBefore(user, n, 21)
  {
    UserLibraryClean();
    UserLibraryIndex();
    UserLibraryShape();
    HomeMisses(user, Rules.Shape(Rules.AtHome, ["Library", "*"]), n);
    SkipPlaced(user, n, 20, Rules.UserLibrary);
  }

  /** Rule `Preferences` lies under the home directory, so it misses every path outside `/Users/`. */
  lemma PreferencesSkipsOffHome(user: string, n: string)
    requires IsUserName(user) && !("/Users/" <= n)
    requires NoneBefore(user, n, 21)
    ensures NoneBefore(user, n, 22)
  {
    PreferencesClean();
    PreferencesIndex();
    PreferencesShape();
    HomeMisses(user, Rules.Shape(Rules.AtHome, ["Library", "Preferences", "*"]), n);
    SkipPlaced(user, n, 21, Rules.Preferences);
  }

  /** Rule `ApplicationSupport` lies under the home directory, so it misses every path outside `/Users/`. */
  lemma ApplicationSupportSkipsOffHome(user: string, n: string)
    requires IsUserName(user) && !("/Users/" <= n)
    requires NoneBefore(user, n, 22)
    ensures NoneBefore(user, n, 23)
  {
    ApplicationSupportClean();
    ApplicationSupportIndex();
    ApplicationSupportShape();
    HomeMisses(user, Rules.Shape(Rules.AtHome, ["Library", "Application Support", "*"]), n);
    SkipPlaced(user, n, 22, Rules.ApplicationSupport);
  }

  /** Rule `Keychains` lies under the home directory, so it misses every path outside `/Users/`. */
  lemma KeychainsSkipsOffHome(user: string, n: string)
    requires IsUserName(user) && !("/Users/" <= n)
    requires NoneBefore(user, n, 23)
    ensures NoneBefore(user, n, 24)
  {
    KeychainsClean();
    KeychainsIndex();
    KeychainsShape();
    HomeMisses(user, Rules.Shape(Rules.AtHome, ["Library", "Keychains", "*"]), n);
    SkipPlaced(user, n, 23, Rules.Keychains);
  }

  /** Rule `Mail` lies under the home directory, so it misses every path outside `/Users/`. */
  lemma MailSkipsOffHome(user: string, n: string)
    requires IsUserName(user) && !("/Users/" <= n)
    requires NoneBefore(user, n, 24)
    ensures NoneBefore(user, n, 25)
  {
    MailClean();
    MailIndex();
    MailShape();
    HomeMisses(user, Rules.Shape(Rules.AtHome, ["Library", "Mail", "*"]), n);
    SkipPlaced(user, n, 24, Rules.Mail);
  }

  /** Rule `Calendars` lies under the home directory, so it misses every path outside `/Users/`. */
  lemma CalendarsSkipsOffHome(user: string, n: string)
    requires IsUserName(user) && !("/Users/" <= n)
    requires NoneBefore(user, n, 25)
    ensures NoneBefore(user, n, 26)
  {
    CalendarsClean();
    CalendarsIndex();
    CalendarsShape();
    HomeMisses(user, Rules.Shape(Rules.AtHome, ["Library", "Calendars", "*"]), n);
    SkipPlaced(user, n, 25, Rules.Calendars);
  }

  /** Rule `Contacts` lies under the home directory, so it misses every path outside `/Users/`. */
  lemma ContactsSkipsOffHome(user: string, n: string)
    requires IsUserName(user) && !("/Users/" <= n)
    requires NoneBefore(user, n, 26)
    ensures NoneBefore(user, n, 27)
  {
    ContactsClean();
    ContactsIndex();
    ContactsShape();
    HomeMisses(user, Rules.Shape(Rules.AtHome, ["Library", "Contacts", "*"]), n);
    SkipPlaced(user, n, 26, Rules.Contacts);
  }

  /** Rule `SystemCaches` misses a path whose first segment starts with another character. */
  lemma SystemCachesSkipsOther(user: string, n: string, b: string)
    requires IsUserName(user) && |b| >= 2 && b <= n
    requires b[1] != 'S'
    requires NoneBefore(user, n, 4)
    ensures NoneBefore(user, n, 5)
  {
    SystemCachesClean();
    SystemCachesIndex();
    SystemCachesShape();
    RootMisses(user, Rules.Shape(Rules.AtRoot, ["System", "Library", "Caches", "*"]), n, b);
    SkipPlaced(user, n, 4, Rules.SystemCaches);
  }

  /** Rule `TemporaryFolders` misses a path whose first segment starts with another character. */
  lemma TemporaryFoldersSkipsOther(user: string, n: string, b: string)
    requires IsUserName(user) && |b| >= 2 && b <= n
    requires b[1] != 'p'
    requires NoneBefore(user, n, 5)
    ensures NoneBefore(user, n, 6)
  {
    TemporaryFoldersClean();
    TemporaryFoldersIndex();
    TemporaryFoldersShape();
    RootMisses(user, Rules.Shape(Rules.AtRoot, ["private", "var", "folders", "*", "C", "*"]), n, b);
    SkipPlaced(user, n, 5, Rules.TemporaryFolders);
  }

  /** Rule `Tmp` misses a path whose first segment starts with another character. */
  lemma TmpSkipsOther(user: string, n: string, b: string)
    requires IsUserName(user) && |b| >= 2 && b <= n
    requires b[1] != 't'
    requires NoneBefore(user, n, 6)
    ensures NoneBefore(user, n, 7)
  {
    TmpClean();
    TmpIndex();
    TmpShape();
    RootMisses(user, Rules.Shape(Rules.AtRoot, ["tmp", "*"]), n, b);
    SkipPlaced(user, n, 6, Rules.Tmp);
  }

  /** Rule `PrivateVarLog` misses a path whose first segment starts with another character. */
  lemma PrivateVarLogSkipsOther(user: string, n: string, b: string)
    requires IsUserName(user) && |b| >= 2 && b <= n
    requires b[1] != 'p'
    requires NoneBefore(user, n, 11)
    ensures NoneBefore(user, n, 12)
  {
    PrivateVarLogClean();
    PrivateVarLogIndex();
    PrivateVarLogShape();
    RootMisses(user, Rules.Shape(Rules.AtRoot, ["private", "var", "log", "*"]), n, b);
    SkipPlaced(user, n, 11, Rules.PrivateVarLog);
  }

  /** Rule `UsrLocal` misses a path whose first segment starts with another character. */
  lemma UsrLocalSkipsOther(user: string, n: string, b: string)
    requires IsUserName(user) && |b| >= 2 && b <= n
    requires b[1] != 'u'
    requires NoneBefore(user, n, 27)
    ensures NoneBefore(user, n, 28)
  {
    UsrLocalClean();
    UsrLocalIndex();
    UsrLocalShape();
    RootMisses(user, Rules.Shape(Rules.AtRoot, ["usr", "local", "*"]), n, b);
    SkipPlaced(user, n, 27, Rules.UsrLocal);
  }

  /** Rule `Opt` misses a path whose first segment starts with another character. */
  lemma OptSkipsOther(user: string, n: string, b: string)
    requires IsUserName(user) && |b| >= 2 && b <= n
    requires b[1] != 'o'
    requires NoneBefore(user, n, 28)
    ensures NoneBefore(user, n, 29)
  {
    OptClean();
    OptIndex();
    OptShape();
    RootMisses(user, Rules.Shape(Rules.AtRoot, ["opt", "*"]), n, b);
    SkipPlaced(user, n, 28, Rules.Opt);
  }

  /** Rule `VarDb` misses a path whose first segment starts with another character. */
  lemma VarDbSkipsOther(user: string, n: string, b: string)
    requires IsUserName(user) && |b| >= 2 && b <= n
    requires b[1] != 'v'
    requires NoneBefore(user, n, 29)
    ensures NoneBefore(user, n, 30)
  {
    VarDbClean();
    VarDbIndex();
    VarDbShape();
    RootMisses(user, Rules.Shape(Rules.AtRoot, ["var", "db", "*"]), n, b);
    SkipPlaced(user, n, 29, Rules.VarDb);
  }

  /** Rule `VarLog` misses a path whose first segment starts with another character. */
  lemma VarLogSkipsOther(user: string, n: string, b: string)
    requires IsUserName(user) && |b| >= 2 && b <= n
    requires b[1] != 'v'
    requires NoneBefore(user, n, 30)
    ensures NoneBefore(user, n, 31)
  {
    VarLogClean();
    VarLogIndex();
    VarLogShape();
    RootMisses(user, Rules.Shape(Rules.AtRoot, ["var", "log", "*"]), n, b);
    SkipPlaced(user, n, 30, Rules.VarLog);
  }

  /** Rule `VarTmp` misses a path whose first segment starts with another character. */
  lemma VarTmpSkipsOther(user: string, n: string, b: string)
    requires IsUserName(user) && |b| >= 2 && b <= n
    requires b[1] != 'v'
    requires NoneBefore(user, n, 31)
    ensures NoneBefore(user, n, 32)
  {
    VarTmpClean();
    VarTmpIndex();
    VarTmpShape();
    RootMisses(user, Rules.Shape(Rules.AtRoot, ["var", "tmp", "*"]), n, b);
    SkipPlaced(user, n, 31, Rules.VarTmp);
  }

  /** Rule `SystemCaches` misses a path under `/System/` outside its cache folder. */
  lemma SystemCachesSkipsSystem(user: string, rest: string, n: string)
    requires IsUserName(user) && n == "/System/" + rest && !("Library/Caches/" <= rest)
    requires NoneBefore(user, n, 4)
    ensures NoneBefore(user, n, 5)
  {
    SystemCachesClean();
    SystemCachesIndex();
    SystemCachesShape();
    SystemCachesPrefix(user);
    SystemCachesSplit(rest);
    LeadMisses(user, Rules.Shape(Rules.AtRoot, ["System", "Library", "Caches", "*"]), n, 3, "/System/Library/Caches/");
    SkipPlaced(user, n, 4, Rules.SystemCaches);
  }

  /** Rule `TemporaryFolders` misses a path under `/private/var/log/`. */
  lemma TemporaryFoldersSkipsVarLog(user: string, rest: string, n: string)
    requires IsUserName(user) && n == "/private/var/log/" + rest
    requires NoneBefore(user, n, 5)
    ensures NoneBefore(user, n, 6)
  {
    TemporaryFoldersClean();
    TemporaryFoldersIndex();
    TemporaryFoldersShape();
    TemporaryFoldersPrefix(user);
    PrefixesDiverge("/private/var/folders/", "/private/var/log/", n, 13);
    LeadMisses(user, Rules.Shape(Rules.AtRoot, ["private", "var", "folders", "*", "C", "*"]), n, 3, "/private/var/folders/");
    SkipPlaced(user, n, 5, Rules.TemporaryFolders);
  }

  /** Rule `VarDb` misses a path under `/var/log/`. */
  lemma VarDbSkipsVarLog(user: string, rest: string, n: string)
    requires IsUserName(user) && n == "/var/log/" + rest
    requires NoneBefore(user, n, 29)
    ensures NoneBefore(user, n, 30)
  {
    VarDbClean();
    VarDbIndex();
    VarDbShape();
    VarDbPrefix(user);
    PrefixesDiverge("/var/db/", "/var/log/", n, 5);
    LeadMisses(user, Rules.Shape(Rules.AtRoot, ["var", "db", "*"]), n, 2, "/var/db/");
    SkipPlaced(user, n, 29, Rules.VarDb);
  }

  /** Rule `UserCaches` is the first match below its literal prefix once no earlier rule matches. */
  lemma UserCachesIsFirst(user: string, n: string)
    requires IsUserName(user) && NoneBefore(user, n, 0)
    requires Home(user) + "/Library/Caches/" <= n
    ensures Safety.FirstMatch(Rules.PredefinedRules, Safety.Matcher(Home(user), n)) == Some(0)
  {
    UserCachesClean();
    UserCachesIndex();
    UserCachesPrefix(user);
    PlacedPrefixStar(user, Rules.Shape(Rules.AtHome, ["Library", "Caches", "*"]), Home(user) + "/Library/Caches/");
    MatchLead(user, n, 0, Rules.UserCaches, Home(user) + "/Library/Caches/");
  }

  /** Rule `UserLibrary` is the first match below its literal prefix once no earlier rule matches. */
  lemma UserLibraryIsFirst(user: string, n: string)
    requires IsUserName(user) && NoneBefore(user, n, 20)
    requires Home(user) + "/Library/" <= n
    ensures Safety.FirstMatch(Rules.PredefinedRules, Safety.Matcher(Home(user), n)) == Some(20)
  {
    UserLibraryClean();
    UserLibraryIndex();
    UserLibraryPrefix(user);
    PlacedPrefixStar(user, Rules.Shape(Rules.AtHome, ["Library", "*"]), Home(user) + "/Library/");
    MatchLead(user, n, 20, Rules.UserLibrary, Home(user) + "/Library/");
  }

  /** Rule `SystemCaches` is the first match below its literal prefix once no earlier rule matches. */
  lemma SystemCachesIsFirst(user: string, n: string)
    requires IsUserName(user) && NoneBefore(user, n, 4)
    requires "/System/Library/Caches/" <= n
    ensures Safety.FirstMatch(Rules.PredefinedRules, Safety.Matcher(Home(user), n)) == Some(4)
  {
    SystemCachesClean();
    SystemCachesIndex();
    SystemCachesPrefix(user);
    PlacedPrefixStar(user, Rules.Shape(Rules.AtRoot, ["System", "Library", "Caches", "*"]), "/System/Library/Caches/");
    MatchLead(user, n, 4, Rules.SystemCaches, "/System/Library/Caches/");
  }

  /** Rule `SystemRoot` is the first match below its literal prefix once no earlier rule matches. */
  lemma SystemRootIsFirst(user: string, n: string)
    requires IsUserName(user) && NoneBefore(user, n, 32)
    requires "/System/" <= n
    ensures Safety.FirstMatch(Rules.PredefinedRules, Safety.Matcher(Home(user), n)) == Some(32)
  {
    SystemRootClean();
    SystemRootIndex();
    SystemRootPrefix(user);
    PlacedPrefixStar(user, Rules.Shape(Rules.AtRoot, ["System", "*"]), "/System/");
    MatchLead(user, n, 32, Rules.SystemRoot, "/System/");
  }

  /** Rule `PrivateVarLog` is the first match below its literal prefix once no earlier rule matches. */
  lemma PrivateVarLogIsFirst(user: string, n: string)
    requires IsUserName(user) && NoneBefore(user, n, 11)
    requires "/private/var/log/" <= n
    ensures Safety.FirstMatch(Rules.PredefinedRules, Safety.Matcher(Home(user), n)) == Some(11)
  {
    PrivateVarLogClean();
    PrivateVarLogIndex();
    PrivateVarLogPrefix(user);
    PlacedPrefixStar(user, Rules.Shape(Rules.AtRoot, ["private", "var", "log", "*"]), "/private/var/log/");
    MatchLead(user, n, 11, Rules.PrivateVarLog, "/private/var/log/");
  }

  /** Rule `VarLog` is the first match below its literal prefix once no earlier rule matches. */
  lemma VarLogIsFirst(user: string, n: string)
    requires IsUserName(user) && NoneBefore(user, n, 30)
    requires "/var/log/" <= n
    ensures Safety.FirstMatch(Rules.PredefinedRules, Safety.Matcher(Home(user), n)) == Some(30)
  {
    VarLogClean();
    VarLogIndex();
    VarLogPrefix(user);
    PlacedPrefixStar(user, Rules.Shape(Rules.AtRoot, ["var", "log", "*"]), "/var/log/");
    MatchLead(user, n, 30, Rules.VarLog, "/var/log/");
  }

  // ---------------------------------------------------------------------------
  // The rules the facts rely on
  // ---------------------------------------------------------------------------

  /** The pattern of `UserCaches`, split into segments. */
  lemma UserCachesShape()
    ensures Rules.ShapeOf(Rules.UserCaches) == Rules.Shape(Rules.AtHome, ["Library", "Caches", "*"])
  {
  }

  /** The pattern of `UserCaches` is clean. */
  lemma UserCachesClean()
    ensures CleanShape(Rules.ShapeOf(Rules.UserCaches))
  {
    UserCachesShape();
    CleanAll(Rules.Shape(Rules.AtHome, ["Library", "Caches", "*"]));
  }

  /** `UserCaches` is entry 0 of the table. */
  lemma UserCachesIndex()
    ensures Rules.PredefinedRules[0] == Rules.UserCaches
  {
  }

  /** The literal start of the placed pattern of `UserCaches`, spelled out. */
  lemma UserCachesSpelled()
    ensures "/" + ("Library" + "/" + ("Caches" + "/")) == "/Library/Caches/"
  {
  }

  /** The literal start of the placed pattern of `UserCaches` carries no wildcard. */
  lemma UserCachesLiteral()
    ensures Glob.StarFree("/Library/Caches/")
  {
  }

  /** The literal start of the placed pattern of `UserCaches`. */
  lemma UserCachesPrefix(user: string)
    requires IsUserName(user)
    ensures Start(user, Rules.AtHome) + Lead(["Library", "Caches", "*"][..2]) == Home(user) + "/Library/Caches/" && Glob.StarFree(Home(user) + "/Library/Caches/")
    ensures Rules.ShapeOf(Rules.UserCaches) == Rules.Shape(Rules.AtHome, ["Library", "Caches", "*"])
  {
    UserCachesShape();
    LeadTwo(["Library", "Caches", "*"]);
    UserCachesSpelled();
    UserCachesLiteral();
    RegroupHomeLead(Home(user), "Library" + "/" + ("Caches" + "/"));
    HomeStarFree(user, "/Library/Caches/");
  }

  /** The pattern of `SafariCache`, split into segments. */
  lemma SafariCacheShape()
    ensures Rules.ShapeOf(Rules.SafariCache) == Rules.Shape(Rules.AtHome, ["Library", "Caches", "com.apple.Safari", "*"])
  {
  }

  /** The pattern of `SafariCache` is clean. */
  lemma SafariCacheClean()
    ensures CleanShape(Rules.ShapeOf(Rules.SafariCache))
  {
    SafariCacheShape();
    CleanAll(Rules.Shape(Rules.AtHome, ["Library", "Caches", "com.apple.Safari", "*"]));
  }

  /** `SafariCache` is entry 1 of the table. */
  lemma SafariCacheIndex()
    ensures Rules.PredefinedRules[1] == Rules.SafariCache
  {
  }

  /** The pattern of `ChromeCache`, split into segments. */
  lemma ChromeCacheShape()
    ensures Rules.ShapeOf(Rules.ChromeCache) == Rules.Shape(Rules.AtHome, ["Library", "Caches", "com.google.Chrome", "*"])
  {
  }

  /** The pattern of `ChromeCache` is clean. */
  lemma ChromeCacheClean()
    ensures CleanShape(Rules.ShapeOf(Rules.ChromeCache))
  {
    ChromeCacheShape();
    CleanAll(Rules.Shape(Rules.AtHome, ["Library", "Caches", "com.google.Chrome", "*"]));
  }

  /** `ChromeCache` is entry 2 of the table. */
  lemma ChromeCacheIndex()
    ensures Rules.PredefinedRules[2] == Rules.ChromeCache
  {
  }

  /** The pattern of `FirefoxCache`, split into segments. */
  lemma FirefoxCacheShape()
    ensures Rules.ShapeOf(Rules.FirefoxCache) == Rules.Shape(Rules.AtHome, ["Library", "Caches", "com.mozilla.firefox", "*"])
  {
  }

  /** The pattern of `FirefoxCache` is clean. */
  lemma FirefoxCacheClean()
    ensures CleanShape(Rules.ShapeOf(Rules.FirefoxCache))
  {
    FirefoxCacheShape();
    CleanAll(Rules.Shape(Rules.AtHome, ["Library", "Caches", "com.mozilla.firefox", "*"]));
  }

  /** `FirefoxCache` is entry 3 of the table. */
  lemma FirefoxCacheIndex()
    ensures Rules.PredefinedRules[3] == Rules.FirefoxCache
  {
  }

  /** The pattern of `SystemCaches`, split into segments. */
  lemma SystemCachesShape()
    ensures Rules.ShapeOf(Rules.SystemCaches) == Rules.Shape(Rules.AtRoot, ["System", "Library", "Caches", "*"])
  {
  }

  /** The pattern of `SystemCaches` is clean. */
  lemma SystemCachesClean()
    ensures CleanShape(Rules.ShapeOf(Rules.SystemCaches))
  {
    SystemCachesShape();
    CleanAll(Rules.Shape(Rules.AtRoot, ["System", "Library", "Caches", "*"]));
  }

  /** `SystemCaches` is entry 4 of the table. */
  lemma SystemCachesIndex()
    ensures Rules.PredefinedRules[4] == Rules.SystemCaches
  {
  }

  /** The literal start of the placed pattern of `SystemCaches`, spelled out. */
  lemma SystemCachesSpelled()
    ensures "/" + ("System" + "/" + ("Library" + "/" + ("Caches" + "/"))) == "/System/Library/Caches/"
  {
  }

  /** The literal start of the placed pattern of `SystemCaches` carries no wildcard. */
  lemma SystemCachesLiteral()
    ensures Glob.StarFree("/System/Library/Caches/")
  {
  }

  /** The literal start of the placed pattern of `SystemCaches`. */
  lemma SystemCachesPrefix(user: string)
    requires IsUserName(user)
    ensures Start(user, Rules.AtRoot) + Lead(["System", "Library", "Caches", "*"][..3]) == "/System/Library/Caches/" && Glob.StarFree("/System/Library/Caches/")
    ensures Rules.ShapeOf(Rules.SystemCaches) == Rules.Shape(Rules.AtRoot, ["System", "Library", "Caches", "*"])
  {
    SystemCachesShape();
    LeadThree(["System", "Library", "Caches", "*"]);
    SystemCachesSpelled();
    SystemCachesLiteral();
  }

  /** The pattern of `TemporaryFolders`, split into segments. */
  lemma TemporaryFoldersShape()
    ensures Rules.ShapeOf(Rules.TemporaryFolders) == Rules.Shape(Rules.AtRoot, ["private", "var", "folders", "*", "C", "*"])
  {
  }

  /** The pattern of `TemporaryFolders` is clean. */
  lemma TemporaryFoldersClean()
    ensures CleanShape(Rules.ShapeOf(Rules.TemporaryFolders))
  {
    TemporaryFoldersShape();
    CleanAll(Rules.Shape(Rules.AtRoot, ["private", "var", "folders", "*", "C", "*"]));
  }

  /** `TemporaryFolders` is entry 5 of the table. */
  lemma TemporaryFoldersIndex()
    ensures Rules.PredefinedRules[5] == Rules.TemporaryFolders
  {
  }

  /** The literal start of the placed pattern of `TemporaryFolders`, spelled out. */
  lemma TemporaryFoldersSpelled()
    ensures "/" + ("private" + "/" + ("var" + "/" + ("folders" + "/"))) == "/private/var/folders/"
  {
  }

  /** The literal start of the placed pattern of `TemporaryFolders` carries no wildcard. */
  lemma TemporaryFoldersLiteral()
    ensures Glob.StarFree("/private/var/folders/")
  {
  }

  /** The literal start of the placed pattern of `TemporaryFolders`. */
  lemma TemporaryFoldersPrefix(user: string)
    requires IsUserName(user)
    ensures Start(user, Rules.AtRoot) + Lead(["private", "var", "folders", "*", "C", "*"][..3]) == "/private/var/folders/" && Glob.StarFree("/private/var/folders/")
    ensures Rules.ShapeOf(Rules.TemporaryFolders) == Rules.Shape(Rules.AtRoot, ["private", "var", "folders", "*", "C", "*"])
  {
    TemporaryFoldersShape();
    LeadThree(["private", "var", "folders", "*", "C", "*"]);
    TemporaryFoldersSpelled();
    TemporaryFoldersLiteral();
  }

  /** The pattern of `Tmp`, split into segments. */
  lemma TmpShape()
    ensures Rules.ShapeOf(Rules.Tmp) == Rules.Shape(Rules.AtRoot, ["tmp", "*"])
  {
  }

  /** The pattern of `Tmp` is clean. */
  lemma TmpClean()
    ensures CleanShape(Rules.ShapeOf(Rules.Tmp))
  {
    TmpShape();
    CleanAll(Rules.Shape(Rules.AtRoot, ["tmp", "*"]));
  }

  /** `Tmp` is entry 6 of the table. */
  lemma TmpIndex()
    ensures Rules.PredefinedRules[6] == Rules.Tmp
  {
  }

  /** The pattern of `AppSupportTemp`, split into segments. */
  lemma AppSupportTempShape()
    ensures Rules.ShapeOf(Rules.AppSupportTemp) == Rules.Shape(Rules.AtHome, ["Library", "Application Support", "*", "Temp", "*"])
  {
  }

  /** The pattern of `AppSupportTemp` is clean. */
  lemma AppSupportTempClean()
    ensures CleanShape(Rules.ShapeOf(Rules.AppSupportTemp))
  {
    AppSupportTempShape();
    CleanAll(Rules.Shape(Rules.AtHome, ["Library", "Application Support", "*", "Temp", "*"]));
  }

  /** `AppSupportTemp` is entry 7 of the table. */
  lemma AppSupportTempIndex()
    ensures Rules.PredefinedRules[7] == Rules.AppSupportTemp
  {
  }

  /** The pattern of `Downloads`, split into segments. */
  lemma DownloadsShape()
    ensures Rules.ShapeOf(Rules.Downloads) == Rules.Shape(Rules.AtHome, ["Downloads", "*"])
  {
  }

  /** The pattern of `Downloads` is clean. */
  lemma DownloadsClean()
    ensures CleanShape(Rules.ShapeOf(Rules.Downloads))
  {
    DownloadsShape();
    CleanAll(Rules.Shape(Rules.AtHome, ["Downloads", "*"]));
  }

  /** `Downloads` is entry 8 of the table. */
  lemma DownloadsIndex()
    ensures Rules.PredefinedRules[8] == Rules.Downloads
  {
  }

  /** The pattern of `Desktop`, split into segments. */
  lemma DesktopShape()
    ensures Rules.ShapeOf(Rules.Desktop) == Rules.Shape(Rules.AtHome, ["Desktop", "*"])
  {
  }

  /** The pattern of `Desktop` is clean. */
  lemma DesktopClean()
    ensures CleanShape(Rules.ShapeOf(Rules.Desktop))
  {
    DesktopShape();
    CleanAll(Rules.Shape(Rules.AtHome, ["Desktop", "*"]));
  }

  /** `Desktop` is entry 9 of the table. */
  lemma DesktopIndex()
    ensures Rules.PredefinedRules[9] == Rules.Desktop
  {
  }

  /** The pattern of `Trash`, split into segments. */
  lemma TrashShape()
    ensures Rules.ShapeOf(Rules.Trash) == Rules.Shape(Rules.AtHome, [".Trash", "*"])
  {
  }

  /** The pattern of `Trash` is clean. */
  lemma TrashClean()
    ensures CleanShape(Rules.ShapeOf(Rules.Trash))
  {
    TrashShape();
    CleanAll(Rules.Shape(Rules.AtHome, [".Trash", "*"]));
  }

  /** `Trash` is entry 10 of the table. */
  lemma TrashIndex()
    ensures Rules.PredefinedRules[10] == Rules.Trash
  {
  }

  /** The pattern of `PrivateVarLog`, split into segments. */
  lemma PrivateVarLogShape()
    ensures Rules.ShapeOf(Rules.PrivateVarLog) == Rules.Shape(Rules.AtRoot, ["private", "var", "log", "*"])
  {
  }

  /** The pattern of `PrivateVarLog` is clean. */
  lemma PrivateVarLogClean()
    ensures CleanShape(Rules.ShapeOf(Rules.PrivateVarLog))
  {
    PrivateVarLogShape();
    CleanAll(Rules.Shape(Rules.AtRoot, ["private", "var", "log", "*"]));
  }

  /** `PrivateVarLog` is entry 11 of the table. */
  lemma PrivateVarLogIndex()
    ensures Rules.PredefinedRules[11] == Rules.PrivateVarLog
  {
  }

  /** The literal start of the placed pattern of `PrivateVarLog`, spelled out. */
  lemma PrivateVarLogSpelled()
    ensures "/" + ("private" + "/" + ("var" + "/" + ("log" + "/"))) == "/private/var/log/"
  {
  }

  /** The literal start of the placed pattern of `PrivateVarLog` carries no wildcard. */
  lemma PrivateVarLogLiteral()
    ensures Glob.StarFree("/private/var/log/")
  {
  }

  /** The literal start of the placed pattern of `PrivateVarLog`. */
  lemma PrivateVarLogPrefix(user: string)
    requires IsUserName(user)
    ensures Start(user, Rules.AtRoot) + Lead(["private", "var", "log", "*"][..3]) == "/private/var/log/" && Glob.StarFree("/private/var/log/")
    ensures Rules.ShapeOf(Rules.PrivateVarLog) == Rules.Shape(Rules.AtRoot, ["private", "var", "log", "*"])
  {
    PrivateVarLogShape();
    LeadThree(["private", "var", "log", "*"]);
    PrivateVarLogSpelled();
    PrivateVarLogLiteral();
  }

  /** The pattern of `UserLogs`, split into segments. */
  lemma UserLogsShape()
    ensures Rules.ShapeOf(Rules.UserLogs) == Rules.Shape(Rules.AtHome, ["Library", "Logs", "*"])
  {
  }

  /** The pattern of `UserLogs` is clean. */
  lemma UserLogsClean()
    ensures CleanShape(Rules.ShapeOf(Rules.UserLogs))
  {
    UserLogsShape();
    CleanAll(Rules.Shape(Rules.AtHome, ["Library", "Logs", "*"]));
  }

  /** `UserLogs` is entry 12 of the table. */
  lemma UserLogsIndex()
    ensures Rules.PredefinedRules[12] == Rules.UserLogs
  {
  }

  /** The pattern of `SafariDownloadsList`, split into segments. */
  lemma SafariDownloadsListShape()
    ensures Rules.ShapeOf(Rules.SafariDownloadsList) == Rules.Shape(Rules.AtHome, ["Library", "Safari", "Downloads.plist"])
  {
  }

  /** The pattern of `SafariDownloadsList` is clean. */
  lemma SafariDownloadsListClean()
    ensures CleanShape(Rules.ShapeOf(Rules.SafariDownloadsList))
  {
    SafariDownloadsListShape();
    CleanAll(Rules.Shape(Rules.AtHome, ["Library", "Safari", "Downloads.plist"]));
  }

  /** `SafariDownloadsList` is entry 13 of the table. */
  lemma SafariDownloadsListIndex()
    ensures Rules.PredefinedRules[13] == Rules.SafariDownloadsList
  {
  }

  /** The pattern of `SafariHistory`, split into segments. */
  lemma SafariHistoryShape()
    ensures Rules.ShapeOf(Rules.SafariHistory) == Rules.Shape(Rules.AtHome, ["Library", "Safari", "History.db*"])
  {
  }

  /** The pattern of `SafariHistory` is clean. */
  lemma SafariHistoryClean()
    ensures CleanShape(Rules.ShapeOf(Rules.SafariHistory))
  {
    SafariHistoryShape();
    CleanAll(Rules.Shape(Rules.AtHome, ["Library", "Safari", "History.db*"]));
  }

  /** `SafariHistory` is entry 14 of the table. */
  lemma SafariHistoryIndex()
    ensures Rules.PredefinedRules[14] == Rules.SafariHistory
  {
  }

  /** The pattern of `MobileBackups`, split into segments. */
  lemma MobileBackupsShape()
    ensures Rules.ShapeOf(Rules.MobileBackups) == Rules.Shape(Rules.AtHome, ["Library", "Application Support", "MobileSync", "Backup", "*"])
  {
  }

  /** The pattern of `MobileBackups` is clean. */
  lemma MobileBackupsClean()
    ensures CleanShape(Rules.ShapeOf(Rules.MobileBackups))
  {
    MobileBackupsShape();
    CleanAll(Rules.Shape(Rules.AtHome, ["Library", "Application Support", "MobileSync", "Backup", "*"]));
  }

  /** `MobileBackups` is entry 15 of the table. */
  lemma MobileBackupsIndex()
    ensures Rules.PredefinedRules[15] == Rules.MobileBackups
  {
  }

  /** The pattern of `Documents`, split into segments. */
  lemma DocumentsShape()
    ensures Rules.ShapeOf(Rules.Documents) == Rules.Shape(Rules.AtHome, ["Documents", "*"])
  {
  }

  /** The pattern of `Documents` is clean. */
  lemma DocumentsClean()
    ensures CleanShape(Rules.ShapeOf(Rules.Documents))
  {
    DocumentsShape();
    CleanAll(Rules.Shape(Rules.AtHome, ["Documents", "*"]));
  }

  /** `Documents` is entry 16 of the table. */
  lemma DocumentsIndex()
    ensures Rules.PredefinedRules[16] == Rules.Documents
  {
  }

  /** The pattern of `Pictures`, split into segments. */
  lemma PicturesShape()
    ensures Rules.ShapeOf(Rules.Pictures) == Rules.Shape(Rules.AtHome, ["Pictures", "*"])
  {
  }

  /** The pattern of `Pictures` is clean. */
  lemma PicturesClean()
    ensures CleanShape(Rules.ShapeOf(Rules.Pictures))
  {
    PicturesShape();
    CleanAll(Rules.Shape(Rules.AtHome, ["Pictures", "*"]));
  }

  /** `Pictures` is entry 17 of the table. */
  lemma PicturesIndex()
    ensures Rules.PredefinedRules[17] == Rules.Pictures
  {
  }

  /** The pattern of `Movies`, split into segments. */
  lemma MoviesShape()
    ensures Rules.ShapeOf(Rules.Movies) == Rules.Shape(Rules.AtHome, ["Movies", "*"])
  {
  }

  /** The pattern of `Movies` is clean. */
  lemma MoviesClean()
    ensures CleanShape(Rules.ShapeOf(Rules.Movies))
  {
    MoviesShape();
    CleanAll(Rules.Shape(Rules.AtHome, ["Movies", "*"]));
  }

  /** `Movies` is entry 18 of the table. */
  lemma MoviesIndex()
    ensures Rules.PredefinedRules[18] == Rules.Movies
  {
  }

  /** The pattern of `Music`, split into segments. */
  lemma MusicShape()
    ensures Rules.ShapeOf(Rules.Music) == Rules.Shape(Rules.AtHome, ["Music", "*"])
  {
  }

  /** The pattern of `Music` is clean. */
  lemma MusicClean()
    ensures CleanShape(Rules.ShapeOf(Rules.Music))
  {
    MusicShape();
    CleanAll(Rules.Shape(Rules.AtHome, ["Music", "*"]));
  }

  /** `Music` is entry 19 of the table. */
  lemma MusicIndex()
    ensures Rules.PredefinedRules[19] == Rules.Music
  {
  }

  /** The pattern of `UserLibrary`, split into segments. */
  lemma UserLibraryShape()
    ensures Rules.ShapeOf(Rules.UserLibrary) == Rules.Shape(Rules.AtHome, ["Library", "*"])
  {
  }

  /** The pattern of `UserLibrary` is clean. */
  lemma UserLibraryClean()
    ensures CleanShape(Rules.ShapeOf(Rules.UserLibrary))
  {
    UserLibraryShape();
    CleanAll(Rules.Shape(Rules.AtHome, ["Library", "*"]));
  }

  /** `UserLibrary` is entry 20 of the table. */
  lemma UserLibraryIndex()
    ensures Rules.PredefinedRules[20] == Rules.UserLibrary
  {
  }

  /** The literal start of the placed pattern of `UserLibrary`, spelled out. */
  lemma UserLibrarySpelled()
    ensures "/" + ("Library" + "/") == "/Library/"
  {
  }

  /** The literal start of the placed pattern of `UserLibrary` carries no wildcard. */
  lemma UserLibraryLiteral()
    ensures Glob.StarFree("/Library/")
  {
  }

  /** The literal start of the placed pattern of `UserLibrary`. */
  lemma UserLibraryPrefix(user: string)
    requires IsUserName(user)
    ensures Start(user, Rules.AtHome) + Lead(["Library", "*"][..1]) == Home(user) + "/Library/" && Glob.StarFree(Home(user) + "/Library/")
    ensures Rules.ShapeOf(Rules.UserLibrary) == Rules.Shape(Rules.AtHome, ["Library", "*"])
  {
    UserLibraryShape();
    LeadFirst(["Library", "*"]);
    UserLibrarySpelled();
    UserLibraryLiteral();
    RegroupHomeLead(Home(user), "Library" + "/");
    HomeStarFree(user, "/Library/");
  }

  /** The pattern of `Preferences`, split into segments. */
  lemma PreferencesShape()
    ensures Rules.ShapeOf(Rules.Preferences) == Rules.Shape(Rules.AtHome, ["Library", "Preferences", "*"])
  {
  }

  /** The pattern of `Preferences` is clean. */
  lemma PreferencesClean()
    ensures CleanShape(Rules.ShapeOf(Rules.Preferences))
  {
    PreferencesShape();
    CleanAll(Rules.Shape(Rules.AtHome, ["Library", "Preferences", "*"]));
  }

  /** `Preferences` is entry 21 of the table. */
  lemma PreferencesIndex()
    ensures Rules.PredefinedRules[21] == Rules.Preferences
  {
  }

  /** The pattern of `ApplicationSupport`, split into segments. */
  lemma ApplicationSupportShape()
    ensures Rules.ShapeOf(Rules.ApplicationSupport) == Rules.Shape(Rules.AtHome, ["Library", "Application Support", "*"])
  {
  }

  /** The pattern of `ApplicationSupport` is clean. */
  lemma ApplicationSupportClean()
    ensures CleanShape(Rules.ShapeOf(Rules.ApplicationSupport))
  {
    ApplicationSupportShape();
    CleanAll(Rules.Shape(Rules.AtHome, ["Library", "Application Support", "*"]));
  }

  /** `ApplicationSupport` is entry 22 of the table. */
  lemma ApplicationSupportIndex()
    ensures Rules.PredefinedRules[22] == Rules.ApplicationSupport
  {
  }

  /** The pattern of `Keychains`, split into segments. */
  lemma KeychainsShape()
    ensures Rules.ShapeOf(Rules.Keychains) == Rules.Shape(Rules.AtHome, ["Library", "Keychains", "*"])
  {
  }

  /** The pattern of `Keychains` is clean. */
  lemma KeychainsClean()
    ensures CleanShape(Rules.ShapeOf(Rules.Keychains))
  {
    KeychainsShape();
    CleanAll(Rules.Shape(Rules.AtHome, ["Library", "Keychains", "*"]));
  }

  /** `Keychains` is entry 23 of the table. */
  lemma KeychainsIndex()
    ensures Rules.PredefinedRules[23] == Rules.Keychains
  {
  }

  /** The pattern of `Mail`, split into segments. */
  lemma MailShape()
    ensures Rules.ShapeOf(Rules.Mail) == Rules.Shape(Rules.AtHome, ["Library", "Mail", "*"])
  {
  }

  /** The pattern of `Mail` is clean. */
  lemma MailClean()
    ensures CleanShape(Rules.ShapeOf(Rules.Mail))
  {
    MailShape();
    CleanAll(Rules.Shape(Rules.AtHome, ["Library", "Mail", "*"]));
  }

  /** `Mail` is entry 24 of the table. */
  lemma MailIndex()
    ensures Rules.PredefinedRules[24] == Rules.Mail
  {
  }

  /** The pattern of `Calendars`, split into segments. */
  lemma CalendarsShape()
    ensures Rules.ShapeOf(Rules.Calendars) == Rules.Shape(Rules.AtHome, ["Library", "Calendars", "*"])
  {
  }

  /** The pattern of `Calendars` is clean. */
  lemma CalendarsClean()
    ensures CleanShape(Rules.ShapeOf(Rules.Calendars))
  {
    CalendarsShape();
    CleanAll(Rules.Shape(Rules.AtHome, ["Library", "Calendars", "*"]));
  }

  /** `Calendars` is entry 25 of the table. */
  lemma CalendarsIndex()
    ensures Rules.PredefinedRules[25] == Rules.Calendars
  {
  }

  /** The pattern of `Contacts`, split into segments. */
  lemma ContactsShape()
    ensures Rules.ShapeOf(Rules.Contacts) == Rules.Shape(Rules.AtHome, ["Library", "Contacts", "*"])
  {
  }

  /** The pattern of `Contacts` is clean. */
  lemma ContactsClean()
    ensures CleanShape(Rules.ShapeOf(Rules.Contacts))
  {
    ContactsShape();
    CleanAll(Rules.Shape(Rules.AtHome, ["Library", "Contacts", "*"]));
  }

  /** `Contacts` is entry 26 of the table. */
  lemma ContactsIndex()
    ensures Rules.PredefinedRules[26] == Rules.Contacts
  {
  }

  /** The pattern of `UsrLocal`, split into segments. */
  lemma UsrLocalShape()
    ensures Rules.ShapeOf(Rules.UsrLocal) == Rules.Shape(Rules.AtRoot, ["usr", "local", "*"])
  {
  }

  /** The pattern of `UsrLocal` is clean. */
  lemma UsrLocalClean()
    ensures CleanShape(Rules.ShapeOf(Rules.UsrLocal))
  {
    UsrLocalShape();
    CleanAll(Rules.Shape(Rules.AtRoot, ["usr", "local", "*"]));
  }

  /** `UsrLocal` is entry 27 of the table. */
  lemma UsrLocalIndex()
    ensures Rules.PredefinedRules[27] == Rules.UsrLocal
  {
  }

  /** The pattern of `Opt`, split into segments. */
  lemma OptShape()
    ensures Rules.ShapeOf(Rules.Opt) == Rules.Shape(Rules.AtRoot, ["opt", "*"])
  {
  }

  /** The pattern of `Opt` is clean. */
  lemma OptClean()
    ensures CleanShape(Rules.ShapeOf(Rules.Opt))
  {
    OptShape();
    CleanAll(Rules.Shape(Rules.AtRoot, ["opt", "*"]));
  }

  /** `Opt` is entry 28 of the table. */
  lemma OptIndex()
    ensures Rules.PredefinedRules[28] == Rules.Opt
  {
  }

  /** The pattern of `VarDb`, split into segments. */
  lemma VarDbShape()
    ensures Rules.ShapeOf(Rules.VarDb) == Rules.Shape(Rules.AtRoot, ["var", "db", "*"])
  {
  }

  /** The pattern of `VarDb` is clean. */
  lemma VarDbClean()
    ensures CleanShape(Rules.ShapeOf(Rules.VarDb))
  {
    VarDbShape();
    CleanAll(Rules.Shape(Rules.AtRoot, ["var", "db", "*"]));
  }

  /** `VarDb` is entry 29 of the table. */
  lemma VarDbIndex()
    ensures Rules.PredefinedRules[29] == Rules.VarDb
  {
  }

  /** The literal start of the placed pattern of `VarDb`, spelled out. */
  lemma VarDbSpelled()
    ensures "/" + ("var" + "/" + ("db" + "/")) == "/var/db/"
  {
  }

  /** The literal start of the placed pattern of `VarDb` carries no wildcard. */
  lemma VarDbLiteral()
    ensures Glob.StarFree("/var/db/")
  {
  }

  /** The literal start of the placed pattern of `VarDb`. */
  lemma VarDbPrefix(user: string)
    requires IsUserName(user)
    ensures Start(user, Rules.AtRoot) + Lead(["var", "db", "*"][..2]) == "/var/db/" && Glob.StarFree("/var/db/")
    ensures Rules.ShapeOf(Rules.VarDb) == Rules.Shape(Rules.AtRoot, ["var", "db", "*"])
  {
    VarDbShape();
    LeadTwo(["var", "db", "*"]);
    VarDbSpelled();
    VarDbLiteral();
  }

  /** The pattern of `VarLog`, split into segments. */
  lemma VarLogShape()
    ensures Rules.ShapeOf(Rules.VarLog) == Rules.Shape(Rules.AtRoot, ["var", "log", "*"])
  {
  }

  /** The pattern of `VarLog` is clean. */
  lemma VarLogClean()
    ensures CleanShape(Rules.ShapeOf(Rules.VarLog))
  {
    VarLogShape();
    CleanAll(Rules.Shape(Rules.AtRoot, ["var", "log", "*"]));
  }

  /** `VarLog` is entry 30 of the table. */
  lemma VarLogIndex()
    ensures Rules.PredefinedRules[30] == Rules.VarLog
  {
  }

  /** The literal start of the placed pattern of `VarLog`, spelled out. */
  lemma VarLogSpelled()
    ensures "/" + ("var" + "/" + ("log" + "/")) == "/var/log/"
  {
  }

  /** The literal start of the placed pattern of `VarLog` carries no wildcard. */
  lemma VarLogLiteral()
    ensures Glob.StarFree("/var/log/")
  {
  }

  /** The literal start of the placed pattern of `VarLog`. */
  lemma VarLogPrefix(user: string)
    requires IsUserName(user)
    ensures Start(user, Rules.AtRoot) + Lead(["var", "log", "*"][..2]) == "/var/log/" && Glob.StarFree("/var/log/")
    ensures Rules.ShapeOf(Rules.VarLog) == Rules.Shape(Rules.AtRoot, ["var", "log", "*"])
  {
    VarLogShape();
    LeadTwo(["var", "log", "*"]);
    VarLogSpelled();
    VarLogLiteral();
  }

  /** The pattern of `VarTmp`, split into segments. */
  lemma VarTmpShape()
    ensures Rules.ShapeOf(Rules.VarTmp) == Rules.Shape(Rules.AtRoot, ["var", "tmp", "*"])
  {
  }

  /** The pattern of `VarTmp` is clean. */
  lemma VarTmpClean()
    ensures CleanShape(Rules.ShapeOf(Rules.VarTmp))
  {
    VarTmpShape();
    CleanAll(Rules.Shape(Rules.AtRoot, ["var", "tmp", "*"]));
  }

  /** `VarTmp` is entry 31 of the table. */
  lemma VarTmpIndex()
    ensures Rules.PredefinedRules[31] == Rules.VarTmp
  {
  }

  /** The pattern of `SystemRoot`, split into segments. */
  lemma SystemRootShape()
    ensures Rules.ShapeOf(Rules.SystemRoot) == Rules.Shape(Rules.AtRoot, ["System", "*"])
  {
  }

  /** The pattern of `SystemRoot` is clean. */
  lemma SystemRootClean()
    ensures CleanShape(Rules.ShapeOf(Rules.SystemRoot))
  {
    SystemRootShape();
    CleanAll(Rules.Shape(Rules.AtRoot, ["System", "*"]));
  }

  /** `SystemRoot` is entry 32 of the table. */
  lemma SystemRootIndex()
    ensures Rules.PredefinedRules[32] == Rules.SystemRoot
  {
  }

  /** The literal start of the placed pattern of `SystemRoot`, spelled out. */
  lemma SystemRootSpelled()
    ensures "/" + ("System" + "/") == "/System/"
  {
  }

  /** The literal start of the placed pattern of `SystemRoot` carries no wildcard. */
  lemma SystemRootLiteral()
    ensures Glob.StarFree("/System/")
  {
  }

  /** The literal start of the placed pattern of `SystemRoot`. */
  lemma SystemRootPrefix(user: string)
    requires IsUserName(user)
    ensures Start(user, Rules.AtRoot) + Lead(["System", "*"][..1]) == "/System/" && Glob.StarFree("/System/")
    ensures Rules.ShapeOf(Rules.SystemRoot) == Rules.Shape(Rules.AtRoot, ["System", "*"])
  {
    SystemRootShape();
    LeadFirst(["System", "*"]);
    SystemRootSpelled();
    SystemRootLiteral();
  }

  /** The pattern of `LoginKeychain`, split into segments. */
  lemma LoginKeychainShape()
    ensures Rules.ShapeOf(Rules.LoginKeychain) == Rules.Shape(Rules.AtHome, ["Library", "Keychains", "login.keychain*"])
  {
  }

  /** The pattern of `LoginKeychain` is clean. */
  lemma LoginKeychainClean()
    ensures CleanShape(Rules.ShapeOf(Rules.LoginKeychain))
  {
    LoginKeychainShape();
    CleanAll(Rules.Shape(Rules.AtHome, ["Library", "Keychains", "login.keychain*"]));
  }

  /** `LoginKeychain` is entry 51 of the table. */
  lemma LoginKeychainIndex()
    ensures Rules.PredefinedRules[51] == Rules.LoginKeychain
  {
  }

  /** The literal start of the placed pattern of `LoginKeychain`, spelled out. */
  lemma LoginKeychainSpelled()
    ensures "/" + ("Library" + "/" + ("Keychains" + "/")) + "login.keychain" == "/Library/Keychains/login.keychain"
  {
  }

  /** The literal start of the placed pattern of `LoginKeychain` carries no wildcard. */
  lemma LoginKeychainLiteral()
    ensures Glob.StarFree("/Library/Keychains/login.keychain")
    ensures ["Library", "Keychains", "login.keychain*"][2] == "login.keychain" + "*"
  {
  }

  /** The literal start of the placed pattern of `LoginKeychain`. */
  lemma LoginKeychainPrefix(user: string)
    requires IsUserName(user)
    ensures Start(user, Rules.AtHome) + Lead(["Library", "Keychains", "login.keychain*"][..2]) + "login.keychain" == Home(user) + "/Library/Keychains/login.keychain" && Glob.StarFree(Home(user) + "/Library/Keychains/login.keychain")
    ensures ["Library", "Keychains", "login.keychain*"][2] == "login.keychain" + "*"
    ensures Rules.ShapeOf(Rules.LoginKeychain) == Rules.Shape(Rules.AtHome, ["Library", "Keychains", "login.keychain*"])
  {
    LoginKeychainShape();
    LeadTwo(["Library", "Keychains", "login.keychain*"]);
    LoginKeychainSpelled();
    LoginKeychainLiteral();
    RegroupHome(Home(user), "Library" + "/" + ("Keychains" + "/"), "login.keychain");
    HomeStarFree(user, "/Library/Keychains/login.keychain");
  }

  /** The pattern of `LoginWindowPrefs`, split into segments. */
  lemma LoginWindowPrefsShape()
    ensures Rules.ShapeOf(Rules.LoginWindowPrefs) == Rules.Shape(Rules.AtHome, ["Library", "Preferences", "com.apple.loginwindow.plist"])
  {
  }

  /** The pattern of `LoginWindowPrefs` is clean. */
  lemma LoginWindowPrefsClean()
    ensures CleanShape(Rules.ShapeOf(Rules.LoginWindowPrefs))
  {
    LoginWindowPrefsShape();
    CleanAll(Rules.Shape(Rules.AtHome, ["Library", "Preferences", "com.apple.loginwindow.plist"]));
  }

  /** `LoginWindowPrefs` is entry 52 of the table. */
  lemma LoginWindowPrefsIndex()
    ensures Rules.PredefinedRules[52] == Rules.LoginWindowPrefs
  {
  }

  /** The pattern of `DylibFiles`, split into segments. */
  lemma DylibFilesShape()
    ensures Rules.ShapeOf(Rules.DylibFiles) == Rules.Shape(Rules.Anywhere, ["*.dylib"])
  {
  }

  /** The pattern of `DylibFiles` is clean. */
  lemma DylibFilesClean()
    ensures CleanShape(Rules.ShapeOf(Rules.DylibFiles))
  {
    DylibFilesShape();
    CleanAll(Rules.Shape(Rules.Anywhere, ["*.dylib"]));
  }

  /** `DylibFiles` is entry 71 of the table. */
  lemma DylibFilesIndex()
    ensures Rules.PredefinedRules[71] == Rules.DylibFiles
  {
  }

  /** `UserCaches` is a green rule. */
  lemma UserCachesLevel()
    ensures Rules.LevelOf(Rules.UserCaches) == Rules.Green
  {
  }

  /** `UserLibrary` is a orange rule. */
  lemma UserLibraryLevel()
    ensures Rules.LevelOf(Rules.UserLibrary) == Rules.Orange
  {
  }

  /** `SystemCaches` is a green rule. */
  lemma SystemCachesLevel()
    ensures Rules.LevelOf(Rules.SystemCaches) == Rules.Green
  {
  }

  /** `SystemRoot` is a red rule. */
  lemma SystemRootLevel()
    ensures Rules.LevelOf(Rules.SystemRoot) == Rules.Red
  {
  }

  /** `PrivateVarLog` is a green rule. */
  lemma PrivateVarLogLevel()
    ensures Rules.LevelOf(Rules.PrivateVarLog) == Rules.Green
  {
  }

  /** `VarLog` is a orange rule. */
  lemma VarLogLevel()
    ensures Rules.LevelOf(Rules.VarLog) == Rules.Orange
  {
  }
}
