/**
 * Safety classification of `safety_analysis.py`: a path is normalised, then
 * looked up in the shared verdict cache, then matched against the rule table
 * in order; the stand-in "AI" analysis is a keyword heuristic on the file
 * name whose result is written into that same cache.
 */
module Safety {
  import opened Base
  import Strings
  import PosixPath
  import Glob
  import Rules

  /** `ai_analysis_cache`: verdicts keyed by normalised path. */
  type VerdictCache = map<string, Rules.Verdict>

  /** The rule's pattern, normalised like the path, glob-matches the normalised path. */
  predicate RuleMatches(home: string, rule: Rules.RuleId, normalized: string)
  {
    Glob.Match(PosixPath.NormalizePath(home, Rules.Pattern(rule)), normalized)
  }

  /** `RuleMatches` for one home directory and one normalised path, as a test on rules. */
  function Matcher(home: string, normalized: string): Rules.RuleId -> bool
  {
    rule => RuleMatches(home, rule, normalized)
  }

  /** Entry `i` passes the test and no earlier entry does. */
  ghost predicate IsFirstMatch<R>(rules: seq<R>, matches: R -> bool, i: int)
  {
    && 0 <= i < |rules|
    && matches(rules[i])
    && forall j :: 0 <= j < i ==> !matches(rules[j])
  }

  /** No entry passes the test. */
  ghost predicate NoneMatches<R>(rules: seq<R>, matches: R -> bool)
  {
    forall j :: 0 <= j < |rules| ==> !matches(rules[j])
  }

  /** Scan of `rules[k..]` for the first entry that passes the test. */
  function FirstMatchFrom<R>(rules: seq<R>, matches: R -> bool, k: nat): (r: Option<nat>)
    requires k <= |rules|
    requires forall j :: 0 <= j < k ==> !matches(rules[j])
    ensures r.Some? ==> IsFirstMatch(rules, matches, r.value)
    ensures r.None? ==> NoneMatches(rules, matches)
    decreases |rules| - k
  {
    if k == |rules| then None
    else if matches(rules[k]) then Some(k)
    else FirstMatchFrom(rules, matches, k + 1)
  }

  /** The `for pattern, info in PREDEFINED_RULES.items()` loop: the index of the first entry that matches, if any. */
  function FirstMatch<R>(rules: seq<R>, matches: R -> bool): (r: Option<nat>)
    ensures r.Some? ==> IsFirstMatch(rules, matches, r.value)
    ensures r.None? ==> NoneMatches(rules, matches)
  {
    FirstMatchFrom(rules, matches, 0)
  }

  /** There is at most one first match, so `FirstMatch` is determined by the entries that match. */
  lemma FirstMatchUnique<R>(rules: seq<R>, matches: R -> bool, i: int)
    requires IsFirstMatch(rules, matches, i)
    ensures FirstMatch(rules, matches) == Some(i)
  {
  }

  /** Entries placed after the first match are never consulted: appending entries changes nothing. */
  lemma LaterRulesIgnored<R>(rules: seq<R>, more: seq<R>, matches: R -> bool)
    requires FirstMatch(rules, matches).Some?
    ensures FirstMatch(rules + more, matches) == FirstMatch(rules, matches)
  {
    var i := FirstMatch(rules, matches).value;
    assert forall j :: 0 <= j <= i ==> (rules + more)[j] == rules[j];
    FirstMatchUnique(rules + more, matches, i);
  }

  /** The verdict for a path no rule covers. */
  const UnknownVerdict := Rules.Verdict(Rules.Grey, "Safety level unknown. Click AI icon for analysis.")

  /**
   * `get_safety_info`: a cached verdict for the normalised path wins; else
   * the verdict of the first matching rule; else grey. The cache is only read.
   */
  function GetSafetyInfo(home: string, cache: VerdictCache, path: string): (v: Rules.Verdict)
    ensures var n := PosixPath.NormalizePath(home, path);
      && (n in cache ==> v == cache[n])
      && (n !in cache ==>
            || (exists i :: IsFirstMatch(Rules.PredefinedRules, Matcher(home, n), i)
                           && v == Rules.VerdictOf(Rules.PredefinedRules[i]))
            || (NoneMatches(Rules.PredefinedRules, Matcher(home, n)) && v == UnknownVerdict))
      && (n !in cache ==> (v.level == Rules.Grey <==> NoneMatches(Rules.PredefinedRules, Matcher(home, n))))
  {
    var n := PosixPath.NormalizePath(home, path);
    if n in cache then cache[n]
    else
      match FirstMatch(Rules.PredefinedRules, Matcher(home, n))
      case Some(i) =>
        Rules.RulesAreDecided(Rules.PredefinedRules[i]);
        Rules.VerdictOf(Rules.PredefinedRules[i])
      case None => UnknownVerdict
  }

  // ---------------------------------------------------------------------------
  // The placeholder "AI" analysis
  // ---------------------------------------------------------------------------

  /** Keyword groups of the heuristic, in the order they are tried. */
  const TemporaryWords: seq<string> := ["cache", "temp", "tmp", "log"]
  const ConfigurationWords: seq<string> := ["config", "pref", "setting"]
  const SystemWords: seq<string> := ["system", "kernel", "driver"]

  /** `any(word in name for word in words)`. */
  predicate MentionsAny(name: string, words: seq<string>)
  {
    exists i :: 0 <= i < |words| && Strings.Contains(name, words[i])
  }

  const TemporaryVerdict := Rules.Verdict(Rules.Green, "AI Analysis: Appears to be temporary/cache files. Likely safe to delete.")
  const ConfigurationVerdict := Rules.Verdict(Rules.Orange, "AI Analysis: Configuration or preference files. Deleting may affect application behavior.")
  const SystemVerdict := Rules.Verdict(Rules.Red, "AI Analysis: System-related files. Not recommended for deletion.")
  const UnknownTypeVerdict := Rules.Verdict(Rules.Orange, "AI Analysis: Unknown file type. Exercise caution when deleting.")

  /**
   * The keyword heuristic on a file name: the lower-cased name is matched
   * against the temporary, configuration and system groups in that order.
   * It never answers grey, and an earlier group wins over a later one.
   */
  function Heuristic(name: string): (v: Rules.Verdict)
    ensures v.level != Rules.Grey
    ensures v.level == Rules.Green <==> MentionsAny(Strings.Lower(name), TemporaryWords)
    ensures v.level == Rules.Red <==>
      !MentionsAny(Strings.Lower(name), TemporaryWords)
      && !MentionsAny(Strings.Lower(name), ConfigurationWords)
      && MentionsAny(Strings.Lower(name), SystemWords)
    ensures v == TemporaryVerdict <==> MentionsAny(Strings.Lower(name), TemporaryWords)
    ensures v == ConfigurationVerdict <==>
      !MentionsAny(Strings.Lower(name), TemporaryWords) && MentionsAny(Strings.Lower(name), ConfigurationWords)
    ensures v == SystemVerdict <==>
      !MentionsAny(Strings.Lower(name), TemporaryWords)
      && !MentionsAny(Strings.Lower(name), ConfigurationWords)
      && MentionsAny(Strings.Lower(name), SystemWords)
    ensures v == UnknownTypeVerdict <==>
      !MentionsAny(Strings.Lower(name), TemporaryWords)
      && !MentionsAny(Strings.Lower(name), ConfigurationWords)
      && !MentionsAny(Strings.Lower(name), SystemWords)
  {
    var lower := Strings.Lower(name);
    if MentionsAny(lower, TemporaryWords) then TemporaryVerdict
    else if MentionsAny(lower, ConfigurationWords) then ConfigurationVerdict
    else if MentionsAny(lower, SystemWords) then SystemVerdict
    else UnknownTypeVerdict
  }

  /** Result of `ai_analyze_path`: the verdict and the cache after the call. */
  datatype Analysis = Analysis(verdict: Rules.Verdict, cache: VerdictCache)

  /**
   * `ai_analyze_path`: a cached verdict is returned as is; otherwise the
   * heuristic runs on the basename of the normalised path and its verdict is
   * stored under that normalised path.
   */
  function AiAnalyzePath(home: string, cache: VerdictCache, path: string): (a: Analysis)
    ensures var n := PosixPath.NormalizePath(home, path);
      && (n in cache ==> a == Analysis(cache[n], cache))
      && (n !in cache ==> a.verdict == Heuristic(PosixPath.Basename(n)))
      && a.cache == cache[n := a.verdict]
  {
    var n := PosixPath.NormalizePath(home, path);
    if n in cache then Analysis(cache[n], cache)
    else
      var v := Heuristic(PosixPath.Basename(n));
      Analysis(v, cache[n := v])
  }

  /** Once a path has been analysed, classifying it returns the analysis verdict. */
  lemma AnalyzeThenClassify(home: string, cache: VerdictCache, path: string)
    ensures var a := AiAnalyzePath(home, cache, path);
      GetSafetyInfo(home, a.cache, path) == a.verdict
  {
  }

  /**
   * The cache overrides the rule table: after analysing a path whose name
   * mentions "cache", the path classifies green even if a red rule matches it.
   */
  lemma AnalysisOverridesRules(home: string, cache: VerdictCache, path: string)
    requires PosixPath.NormalizePath(home, path) !in cache
    requires Strings.Contains(Strings.Lower(PosixPath.Basename(PosixPath.NormalizePath(home, path))), "cache")
    ensures GetSafetyInfo(home, AiAnalyzePath(home, cache, path).cache, path).level == Rules.Green
  {
    var n := PosixPath.NormalizePath(home, path);
    assert TemporaryWords[0] == "cache";
    assert MentionsAny(Strings.Lower(PosixPath.Basename(n)), TemporaryWords);
  }

  /** A name mentioning both a temporary and a system keyword is green: the earlier group wins. */
  lemma SystemCacheIsGreen(name: string)
    requires name == "system_cache"
    ensures Heuristic(name) == TemporaryVerdict
  {
    Strings.LowerOfLowercase(name);
    Strings.ContainsInContext("system_", "cache", "");
    assert "system_" + "cache" + "" == name;
    assert Strings.Contains(Strings.Lower(name), TemporaryWords[0]);
  }

  // ---------------------------------------------------------------------------
  // Colours
  // ---------------------------------------------------------------------------

  /** The four colours the interface uses for safety levels. */
  datatype Color = GreenColor | OrangeColor | RedColor | Grey400Color

  /**
   * `get_safety_color`: the three decided levels get their own colour, and
   * "grey" or any other string gets the grey colour.
   */
  function SafetyColor(level: string): (c: Color)
    ensures c == GreenColor <==> level == "green"
    ensures c == OrangeColor <==> level == "orange"
    ensures c == RedColor <==> level == "red"
  {
    if level == "green" then GreenColor
    else if level == "orange" then OrangeColor
    else if level == "red" then RedColor
    else Grey400Color
  }

  /** The colour of a verdict's level is grey exactly for the grey level. */
  lemma LevelColors(l: Rules.Level)
    ensures SafetyColor(Rules.LevelName(l)) == Grey400Color <==> l == Rules.Grey
  {
  }
}
