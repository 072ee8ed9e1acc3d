/**
 * `ConfigManager` of `config_manager.py` in memory: the settings record
 * with its defaults, the getters that fall back to a default for a missing
 * key, the setters (keys are stored stripped, the provider only from a
 * whitelist), and the analysis cache that is read and written only while
 * caching is enabled. Reading and writing the two JSON files is not
 * modelled: a stored file is given as an optional value, and every setter
 * returns the new state that would be written out.
 */
module ConfigManager {
  import opened Base
  import Strings
  import Rules

  /**
   * The configuration dictionary, one field per key it may hold; None is a
   * key that is absent (a file written by hand may leave any key out).
   */
  datatype Config = Config(
    geminiKey: Option<string>,
    openaiKey: Option<string>,
    provider: Option<string>,
    aiEnabled: Option<bool>,
    cacheResults: Option<bool>,
    debugMode: Option<bool>)

  /** The manager: its configuration and its cache of analysis verdicts by path. */
  datatype Manager = Manager(config: Config, cache: map<string, Rules.Verdict>)

  const Gemini: string := "gemini"
  const OpenAi: string := "openai"

  /** The configuration used when no file can be read. */
  function DefaultConfig(): Config
  {
    Config(Some(""), Some(""), Some(Gemini), Some(true), Some(true), Some(true))
  }

  /**
   * `__init__`: the stored configuration and cache when their files could
   * be read (None when a file is missing or does not parse), else the
   * defaults and an empty cache.
   */
  function Load(storedConfig: Option<Config>, storedCache: Option<map<string, Rules.Verdict>>): Manager
  {
    Manager(
      if storedConfig.Some? then storedConfig.value else DefaultConfig(),
      if storedCache.Some? then storedCache.value else map[])
  }

  // ---------------------------------------------------------------------------
  // Getters: `self._config.get(key, default)`
  // ---------------------------------------------------------------------------

  function Get<T>(v: Option<T>, default: T): T
  {
    if v.Some? then v.value else default
  }

  function GeminiKey(c: Config): string
  {
    Get(c.geminiKey, "")
  }

  function OpenAiKey(c: Config): string
  {
    Get(c.openaiKey, "")
  }

  function PreferredProvider(c: Config): string
  {
    Get(c.provider, Gemini)
  }

  predicate AiEnabled(c: Config)
  {
    Get(c.aiEnabled, true)
  }

  predicate DebugMode(c: Config)
  {
    Get(c.debugMode, true)
  }

  /** `cache_ai_results`, on unless set to false. */
  predicate CachingOn(c: Config)
  {
    Get(c.cacheResults, true)
  }

  // ---------------------------------------------------------------------------
  // Setters
  // ---------------------------------------------------------------------------

  /** `set_gemini_api_key`: the key without surrounding white space; nothing else changes. */
  function SetGeminiKey(m: Manager, key: string): (n: Manager)
    ensures n.config == m.config.(geminiKey := Some(Strings.Strip(key)))
    ensures n.cache == m.cache
  {
    Manager(m.config.(geminiKey := Some(Strings.Strip(key))), m.cache)
  }

  /** `set_openai_api_key`: the key without surrounding white space; nothing else changes. */
  function SetOpenAiKey(m: Manager, key: string): (n: Manager)
    ensures n.config == m.config.(openaiKey := Some(Strings.Strip(key)))
    ensures n.cache == m.cache
  {
    Manager(m.config.(openaiKey := Some(Strings.Strip(key))), m.cache)
  }

  /** The providers `set_preferred_ai_provider` accepts. */
  predicate IsProvider(p: string)
  {
    p == Gemini || p == OpenAi
  }

  /** `set_preferred_ai_provider`: a known provider is stored, anything else is ignored. */
  function SetPreferredProvider(m: Manager, p: string): (n: Manager)
    ensures IsProvider(p) ==> n.config == m.config.(provider := Some(p))
    ensures !IsProvider(p) ==> n == m
    ensures n.cache == m.cache
  {
    if p in [Gemini, OpenAi] then Manager(m.config.(provider := Some(p)), m.cache) else m
  }

  /** `set_ai_analysis_enabled`. */
  function SetAiEnabled(m: Manager, enabled: bool): (n: Manager)
    ensures AiEnabled(n.config) == enabled
    ensures n.config.(aiEnabled := m.config.aiEnabled) == m.config && n.cache == m.cache
  {
    Manager(m.config.(aiEnabled := Some(enabled)), m.cache)
  }

  /**
   * `has_valid_api_key`: the preferred provider is one of the two known ones
   * and its key is not empty.
   */
  predicate HasValidApiKey(c: Config)
  {
    var p := PreferredProvider(c);
    if p == Gemini then |GeminiKey(c)| > 0
    else if p == OpenAi then |OpenAiKey(c)| > 0
    else false
  }

  // ---------------------------------------------------------------------------
  // The analysis cache
  // ---------------------------------------------------------------------------

  /** `get_cached_analysis`: nothing while caching is off, else the stored verdict if any. */
  function GetCachedAnalysis(m: Manager, path: string): (r: Option<Rules.Verdict>)
    ensures !CachingOn(m.config) ==> r.None?
    ensures CachingOn(m.config) ==> (r.Some? <==> path in m.cache)
    ensures r.Some? ==> r.value == m.cache[path]
  {
    if !CachingOn(m.config) then None
    else if path in m.cache then Some(m.cache[path])
    else None
  }

  /** `cache_analysis`: stores the verdict while caching is on, else changes nothing. */
  function CacheAnalysis(m: Manager, path: string, v: Rules.Verdict): (n: Manager)
    ensures n.config == m.config
    ensures CachingOn(m.config) ==> path in n.cache && n.cache[path] == v
    ensures forall q :: q != path ==> (q in n.cache <==> q in m.cache) && (q in n.cache ==> n.cache[q] == m.cache[q])
    ensures !CachingOn(m.config) ==> n == m
  {
    if CachingOn(m.config) then Manager(m.config, m.cache[path := v]) else m
  }

  /** `clear_cache`. */
  function ClearCache(m: Manager): (n: Manager)
    ensures n.config == m.config
    ensures forall p :: p !in n.cache
  {
    Manager(m.config, map[])
  }

  /** `get_cache_size`. */
  function CacheSize(m: Manager): nat
  {
    |m.cache|
  }

  // ---------------------------------------------------------------------------
  // Properties
  // ---------------------------------------------------------------------------

  /** Without a stored configuration: AI on, caching on, debug on, Gemini preferred, no keys, empty cache. */
  lemma DefaultsWithoutFiles()
    ensures var m := Load(None, None);
      && AiEnabled(m.config) && CachingOn(m.config) && DebugMode(m.config)
      && PreferredProvider(m.config) == Gemini
      && GeminiKey(m.config) == "" && OpenAiKey(m.config) == ""
      && !HasValidApiKey(m.config) && CacheSize(m) == 0
  {
  }

  /** A configuration missing every key reads exactly like the default configuration. */
  lemma MissingKeysReadAsDefaults()
    ensures var c := Config(None, None, None, None, None, None);
      && GeminiKey(c) == GeminiKey(DefaultConfig()) && OpenAiKey(c) == OpenAiKey(DefaultConfig())
      && PreferredProvider(c) == PreferredProvider(DefaultConfig())
      && AiEnabled(c) == AiEnabled(DefaultConfig()) && CachingOn(c) == CachingOn(DefaultConfig())
      && DebugMode(c) == DebugMode(DefaultConfig())
  {
  }

  /** A stored key is read back stripped, and stripping it again changes nothing. */
  lemma KeysReadBackStripped(m: Manager, key: string)
    ensures GeminiKey(SetGeminiKey(m, key).config) == Strings.Strip(key)
    ensures OpenAiKey(SetOpenAiKey(m, key).config) == Strings.Strip(key)
    ensures Strings.Strip(GeminiKey(SetGeminiKey(m, key).config)) == GeminiKey(SetGeminiKey(m, key).config)
  {
    Strings.StripIdempotent(key);
  }

  /** Setting one key leaves the other key and the provider as they were. */
  lemma SettingOneKeyKeepsTheOther(m: Manager, key: string)
    ensures OpenAiKey(SetGeminiKey(m, key).config) == OpenAiKey(m.config)
    ensures GeminiKey(SetOpenAiKey(m, key).config) == GeminiKey(m.config)
    ensures PreferredProvider(SetGeminiKey(m, key).config) == PreferredProvider(m.config)
    ensures PreferredProvider(SetOpenAiKey(m, key).config) == PreferredProvider(m.config)
  {
  }

  /** The provider read back is the one set when it is known, and the earlier one otherwise. */
  lemma ProviderWhitelist(m: Manager, p: string)
    ensures PreferredProvider(SetPreferredProvider(m, p).config) ==
      if IsProvider(p) then p else PreferredProvider(m.config)
  {
  }

  /** A key of white space only counts as no key. */
  lemma {:induction false} BlankKeyIsEmpty(key: string)
    requires forall k :: 0 <= k < |key| ==> Strings.IsSpace(key[k])
    ensures Strings.Strip(key) == ""
  {
    var r := Strings.Strip(key);
    var lo, hi :| Strings.IsStripOf(key, lo, hi) && r == key[lo..hi];
    assert lo == hi;
  }

  /**
   * With Gemini preferred, setting the Gemini key makes the key valid
   * exactly when the key is not blank; the same holds for OpenAI.
   */
  lemma SetKeyDecidesValidity(m: Manager, key: string)
    ensures PreferredProvider(m.config) == Gemini ==>
      (HasValidApiKey(SetGeminiKey(m, key).config) <==> Strings.Strip(key) != "")
    ensures PreferredProvider(m.config) == OpenAi ==>
      (HasValidApiKey(SetOpenAiKey(m, key).config) <==> Strings.Strip(key) != "")
  {
  }

  /** A provider other than the two known ones never has a valid key, whatever keys are stored. */
  lemma UnknownProviderHasNoValidKey(c: Config)
    requires !IsProvider(PreferredProvider(c))
    ensures !HasValidApiKey(c)
  {
  }

  /** Only the key of the preferred provider matters. */
  lemma ValidityFollowsPreferredKey(c: Config)
    ensures HasValidApiKey(c) <==>
      (PreferredProvider(c) == Gemini && GeminiKey(c) != "") || (PreferredProvider(c) == OpenAi && OpenAiKey(c) != "")
  {
  }

  /** A verdict cached while caching is on is read back; other paths read as before. */
  lemma CacheThenGet(m: Manager, path: string, v: Rules.Verdict, q: string)
    requires CachingOn(m.config)
    ensures GetCachedAnalysis(CacheAnalysis(m, path, v), path) == Some(v)
    ensures q != path ==> GetCachedAnalysis(CacheAnalysis(m, path, v), q) == GetCachedAnalysis(m, q)
  {
  }

  /** While caching is off nothing is stored and nothing is read, even an entry stored earlier. */
  lemma CachingOffStoresNothing(m: Manager, path: string, v: Rules.Verdict)
    requires !CachingOn(m.config)
    ensures CacheAnalysis(m, path, v) == m
    ensures GetCachedAnalysis(CacheAnalysis(m, path, v), path).None?
  {
  }

  /** Caching a new path adds one entry; caching a known path keeps the size. */
  lemma CacheSizeAfterStore(m: Manager, path: string, v: Rules.Verdict)
    requires CachingOn(m.config)
    ensures path !in m.cache ==> CacheSize(CacheAnalysis(m, path, v)) == CacheSize(m) + 1
    ensures path in m.cache ==> CacheSize(CacheAnalysis(m, path, v)) == CacheSize(m)
  {
  }

  /** After clearing, the cache is empty and every lookup finds nothing. */
  lemma ClearedCacheIsEmpty(m: Manager, path: string)
    ensures CacheSize(ClearCache(m)) == 0
    ensures GetCachedAnalysis(ClearCache(m), path).None?
  {
  }

  /** Switching AI analysis on or off touches neither the keys, the provider nor the cache. */
  lemma AiSwitchKeepsTheRest(m: Manager, enabled: bool, path: string)
    ensures HasValidApiKey(SetAiEnabled(m, enabled).config) == HasValidApiKey(m.config)
    ensures GetCachedAnalysis(SetAiEnabled(m, enabled), path) == GetCachedAnalysis(m, path)
  {
  }
}
