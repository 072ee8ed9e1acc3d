# Coffee Cleaner, modelled in Dafny

Coffee Cleaner is a macOS disk cleaner. Its core is made of six parts:

- **Safety classification.** Each path gets a green, orange, red or grey verdict. A verdict cache is consulted first. After that comes an ordered table of glob rules, where the first match wins. A path no rule covers is grey.
- **Placeholder "AI" analysis.** It applies a keyword heuristic to the file name and caches the verdict it gives.
- **Disk analyser.** It lists a directory and sizes every entry, walking directories. Results are sorted largest first and kept in a FIFO directory cache of at most fifty entries. Cached directories are shown without scanning.
- **Delete gate and executor.** They read the selection off the result rows. One red path blocks the whole batch. Otherwise each path is deleted on its own, failures are reported, and the directory is refreshed.
- **Quick Clean.** Four gatherers cover user caches, logs, trash and iOS backups. Their items are totalled and sorted. The user picks items through category and item check boxes, and the chosen paths are passed on to deletion.
- **Configuration manager.** It holds API keys, the provider, switches and an analysis cache, with defaults for missing keys.

The model uses pure functions over immutable data. The file system, the user's clicks and the verdict caches are all parameters.

| file | module | models |
|---|---|---|
| base.dfy | Base | `Option`, sums and filters over sequences |
| strings.dfy | Strings | `str.strip`, ASCII `lower`, substring test, `str(n)`, `join` |
| posix_path.dfy | PosixPath | `os.path.normpath`, `expanduser`, `basename`, `dirname`, `join`, `normalize_path` |
| glob.dfy | Glob | `fnmatch.fnmatch` for `*`-only patterns |
| rules.dfy | Rules | `PREDEFINED_RULES` of `config.py` (76 rules, in order) |
| rule_facts.dfy | RuleFacts | what the rule table decides for concrete path families |
| safety.dfy | Safety | `get_safety_info`, `ai_analyze_path`, `get_safety_color` |
| file_tree.dfy | FileTree | a directory subtree, `os.walk`, `directory_size` |
| sorting.dfy | Sorting | the stable descending `list.sort` |
| dir_cache.dfy | DirCache | `directory_cache` and `manage_cache` |
| scanner.dfy | Scanner | `get_size_threaded`, `scan_directory_thread`, `display_scan_results`, `scan_and_display`, clearing the cache |
| deletion.dfy | Deletion | `check_delete_button_state`, `simple_delete_selected_handler`, `perform_deletion`, and `deletion.py` |
| quick_clean.dfy | QuickClean | the gatherers, `analyze_quick_clean`, `perform_quick_clean` |
| clean_selection.dfy | CleanSelection | the Quick Clean selection of `main.py`: summary, toggles, `clean_files` |
| config_manager.dfy | ConfigManager | `ConfigManager` of `config_manager.py` |

Two behaviours of the code worth noting:

- **Rule lookup.** Classification takes the *first* rule in table order whose pattern matches (`safety_analysis.py:29-32`). It does not take the most specific rule. As a result, `~/Library/*` (orange) shadows the later red rules for the login keychain and the login-window preferences. The members `RuleFacts.LoginKeychainIsOrange` and `Deletion.LoginKeychainPassesGate` state the consequence.
- **Top-level symbolic links.** A top-level entry that is a link is sized by `os.path.getsize`, which follows the link (`main.py:447-448`). It is not counted as 0. Links met *inside* a walked directory add nothing.

## Model

| member | source | states |
|---|---|---|
| Strings.Strip | config_manager.py:74-77 | the stored key is the input with its leading and trailing white space removed, and nothing more |
| Strings.StripIdempotent | config_manager.py:74-77 | stripping an already stripped key changes nothing |
| Strings.Lower | safety_analysis.py:58 | lower-casing keeps the length and maps each character on its own |
| Strings.DecimalRoundTrip | deletion.py:161-163 | the item count printed in the messages reads back as the number itself |
| Strings.ContainsIsOccurrence | safety_analysis.py:60 | `word in name` holds exactly when the word occurs at some position of the name |
| PosixPath.NormPathIdempotent | safety_analysis.py:12-14 | `normpath` is idempotent |
| PosixPath.NormalizePathShape | safety_analysis.py:12-14 | a normalised path is `.` or two slashes at most followed by clean segments: no empty or `.` segment, and `..` only at the front of a relative path |
| PosixPath.NormalizeIdempotent | safety_analysis.py:12-14 | normalising twice gives the same path, unless the normal form itself starts with a `~` segment |
| PosixPath.NormalizeNotIdempotentInGeneral | safety_analysis.py:12-14 | `./~` normalises to `~`, which a second pass expands to the home directory, so the proviso above is needed |
| PosixPath.NormalizeHomeRelative | safety_analysis.py:12-14 | a rule written under `~/` with plain segments normalises to the home directory followed by those segments |
| PosixPath.NormalizeAbsolute | safety_analysis.py:12-14 | an absolute rule pattern with plain segments is its own normal form |
| PosixPath.NormalizeRelative | safety_analysis.py:12-14 | a relative pattern such as `*.log` is its own normal form |
| PosixPath.Basename | safety_analysis.py:58 | the basename has no slash and is a suffix of the path |
| PosixPath.BasenameIsLastSegment | safety_analysis.py:58 | the basename is everything after the last slash: what precedes it is empty or ends in a slash, and no longer suffix is free of slashes |
| PosixPath.DirnameOfJoin | main.py:724-725 | the ".." row of a child directory leads back to the directory it was joined to, and the child's name is its basename |
| Glob.MatchIffInstance | safety_analysis.py:30-31 | a pattern matches a string exactly when filling in each `*` with some text gives that string |
| Glob.MatchPrefixStar | config.py:19 | a pattern that is a literal followed by `*` matches exactly the strings starting with the literal |
| Glob.MatchStarSuffix | config.py:284 | a pattern that is `*` followed by a literal matches exactly the strings ending in the literal |
| Glob.MatchLiteral | config.py:242 | a pattern without `*` matches only itself |
| Rules.RulesAreDecided | config.py:16-304 | every rule of the table says green, orange or red, never grey |
| Safety.FirstMatch | safety_analysis.py:29-32 | the rule found is the first rule in table order that matches, and none means no rule matches |
| Safety.FirstMatchUnique | safety_analysis.py:29-32 | any index that matches with no earlier match is the one the lookup returns |
| Safety.LaterRulesIgnored | safety_analysis.py:29-32 | rules after the first match are never consulted: appending rules changes nothing |
| Safety.GetSafetyInfo | safety_analysis.py:17-38 | a cached verdict for the normalised path wins; otherwise the verdict is that of the first matching rule; the result is grey exactly when no rule matches |
| Safety.Heuristic | safety_analysis.py:58-79 | the heuristic never says grey; it says green exactly when the lower-cased name mentions a temporary word; it says red exactly when the name mentions a system word and no temporary or configuration word; each of the four verdicts, reason text included, is given exactly when its group is the first to match, the unknown-type verdict when none does |
| Safety.AiAnalyzePath | safety_analysis.py:41-83 | a cached verdict is returned and the cache is unchanged; otherwise the heuristic's verdict on the basename of the normalised path is returned and stored under that path, and nothing else in the cache changes |
| Safety.AnalyzeThenClassify | safety_analysis.py:17-83 | after a path is analysed, classifying it returns the analysis verdict |
| Safety.AnalysisOverridesRules | safety_analysis.py:22-26 | once analysed, a path whose name mentions "cache" classifies green even where a red rule covers it |
| Safety.SystemCacheIsGreen | safety_analysis.py:60-79 | "system_cache" is green: the temporary group comes before the system group |
| Safety.SafetyColor | safety_analysis.py:86-94 | each of the three decided levels has its own colour, and any other string, grey included, gets the grey colour |
| Safety.LevelColors | safety_analysis.py:86-94 | a level is drawn grey exactly when it is the grey level |
| RuleFacts.LibraryCachesAreGreen | config.py:19-22 | every path under `~/Library/Caches/` outside the cache classifies green by the first rule, although `~/Library/*` also covers it |
| RuleFacts.LibraryIsOrange | config.py:19-110 | a path under `~/Library/` that is not in the verdict cache classifies orange by the `~/Library/*` rule whenever none of the six earlier library patterns matches it: `Caches/*`, `Application Support/*/Temp/*`, `Logs/*`, `Safari/Downloads.plist`, `Safari/History.db*` and `Application Support/MobileSync/Backup/*` |
| RuleFacts.LoginKeychainUnreachable | config.py:238-241 | the red login-keychain rule is never the first match, because `~/Library/*` comes earlier |
| RuleFacts.LoginWindowPrefsUnreachable | config.py:242-245 | the red login-window preferences rule is never the first match |
| RuleFacts.LoginKeychainMatches | config.py:238-241 | the login-keychain pattern does match the user's login keychain |
| RuleFacts.LoginKeychainIsOrange | config.py:107-110 | the login keychain classifies orange, not red |
| RuleFacts.DylibUnderLibraryIsOrange | config.py:284-287 | a `.dylib` under `~/Library/` classifies orange, because extension rules are reached only when no location rule matches |
| RuleFacts.SystemCachesAreGreen | config.py:35-38 | paths under `/System/Library/Caches/` classify green, although the red `/System/*` rule also covers them |
| RuleFacts.OtherSystemPathsAreRed | config.py:158-161 | every other path under `/System/` classifies red |
| RuleFacts.PrivateVarLogIsGreen | config.py:66-69 | paths under `/private/var/log/` classify green |
| RuleFacts.VarLogIsOrange | config.py:148-151 | the same logs reached through `/var/log/` classify orange, because links are not resolved |
| FileTree.WalkCountsBytes | quick_clean.py:66-77 | summing the regular files of every `os.walk` step gives the bytes the directory holds: links are skipped and unlistable directories count nothing |
| FileTree.DirectorySize | quick_clean.py:66-77 | `directory_size` returns the bytes the directory holds, and 0 for a path that is not a directory |
| FileTree.LinksAddNothing | quick_clean.py:71-72 | what a link inside a walked directory points to does not change its size |
| Sorting.SortDesc | main.py:510 | the sorted results are largest first and hold the same elements |
| Sorting.SortIsStable | main.py:510 | entries with equal sizes keep their listing order |
| Sorting.SortKeepsSum | quick_clean.py:180-182 | sorting does not change the total size |
| DirCache.Put | main.py:514 | storing a new path appends it to the insertion order; storing a known path keeps its place; other entries are unchanged |
| DirCache.Remove | main.py:676-677 | invalidating a path removes it and only it; the size drops by one when it was there |
| DirCache.Trim | main.py:418-425 | at most fifty entries are left alone; above fifty, the ten oldest keys are dropped and the others keep their values and order |
| DirCache.StoreKeepsBound | main.py:514-516 | a cache kept by store-then-trim never holds more than fifty entries |
| DirCache.StoreKeepsNewest | main.py:514-516 | the directory just stored survives the trim |
| DirCache.StoreIntoFull | main.py:418-425 | storing a new directory into a full cache drops the ten oldest and appends the new one |
| DirCache.FiftyFiveStores | main.py:418-425 | fifty-five different directories scanned from an empty cache leave forty-five, without the first ten |
| DirCache.Clear | main.py:884 | after clearing, no directory is cached |
| Scanner.GetSizeThreaded | main.py:427-456 | a cancelled scan gives nothing; a directory is sized by its bytes; any other entry by `getsize`, with 0 on error; the path is the entry joined to the directory |
| Scanner.ScanResults | main.py:490-510 | the results are largest first and contain exactly one sized entry per listed entry |
| Scanner.DisplayRows | main.py:719-760 | the rows are the ".." row unless at the root, then one row per result in order |
| Scanner.ScanDirectory | main.py:458-520 | a listing error stores nothing and shows only "..", a cancelled scan leaves the cache and the rows unchanged (the current path is set before listing, on every branch), and a completed scan stores the sorted results, trims the cache and shows the results |
| Scanner.ScanAndDisplay | main.py:554-578 | a cached directory is shown from the cache and becomes current; otherwise the list is cleared and a scan is due; the cache is not changed |
| Scanner.CachedPathIsNotScanned | main.py:559-567 | entering a cached directory does not depend on the disk or the cancel flag |
| Scanner.ScanThenRevisit | main.py:514-567 | after a completed scan, entering the same directory again shows exactly the rows the scan showed |
| Scanner.ClearedCacheScans | main.py:880-887 | after the cache is cleared every directory is scanned again |
| Scanner.CompletedScanResults | main.py:490-518 | a completed scan caches every entry once, largest first, with ties in listing order, within the bound |
| Scanner.ClearCache | main.py:880-887 | clearing empties the cache and changes nothing else |
| Deletion.SelectedPaths | main.py:692-700 | a path is selected exactly when some row whose first trailing control is a Checkbox has it ticked and carries that path as its data |
| Deletion.SetChecked | main.py:806-814 | clicking row `i` sets its box, the first trailing control, to the new value and changes nothing else in that row; no other row changes; a row whose first trailing control is not a Checkbox is not changed |
| Deletion.TickSelects | main.py:691-698 | ticking a row that has a box and `data` adds its path to the selected paths and keeps every other selected path |
| Deletion.UntickDeselects | main.py:691-698 | unticking such a row removes its path from the selected paths when no other ticked row carries it, and keeps every other selected path |
| Deletion.Classify | main.py:698-700 | each selected path is paired with the level the classifier gives it, in order |
| Deletion.RedPaths | main.py:702-703 | the unsafe list holds exactly the red paths |
| Deletion.NoRedPaths | main.py:705-714 | the unsafe list is empty exactly when no selected item is red |
| Deletion.GateDecision | main.py:684-717 | nothing selected ends there; some red path rejects the batch and names every red path; otherwise all selected items go to confirmation, none of them red |
| Deletion.DeleteButtonState | main.py:522-551 | the delete button is enabled exactly when the gate would confirm, and is visible exactly when something is selected |
| Deletion.LoginKeychainPassesGate | deletion.py:41-117 | a selection holding only the login keychain reaches the confirmation |
| Deletion.SingleSafeSelectionConfirms | main.py:684-717 | one selected path that is not red leads to the confirmation |
| Deletion.BasenamesOf | deletion.py:112 | the names shown are the basenames of the unsafe paths, in order |
| Deletion.ResultLines | main.py:646-666 | one result line per item, in item order |
| Deletion.AttemptAll | deletion.py:131-146 | every item is attempted; the deleted and failed counts add up to the number of items |
| Deletion.AttemptSortsItems | main.py:646-666 | a failure does not stop the batch: the deleted paths are exactly those whose removal succeeds and the failed ones exactly those whose removal fails |
| Deletion.ConfirmDeleteAsWritten | deletion.py:124-156 | cancelling deletes nothing; confirming attempts every item and then calls `scan_and_display` with the cache untouched |
| Deletion.ConfirmShowsStaleRows | deletion.py:148-151 | in a cached directory, the refresh after a confirmed deletion shows the rows from before the deletion |
| Deletion.ConfirmDelete | deletion.py:124-156 | with the cache entry dropped first, the refresh after a confirmed deletion always scans afresh; cancelling changes nothing |
| Deletion.PerformDeletion | main.py:641-682 | the deleted and failed counts add up to the number of items; the current directory's cache entry, and only it, is dropped; the directory is then scanned afresh |
| Deletion.PerformDeletionCounts | main.py:641-682 | when no removal fails, every item counts as deleted and there are no errors |
| QuickClean.IsLogNameIff | quick_clean.py:102-112 | a log name is one that ends in ".log" or ".0", or that starts with "system.log." |
| QuickClean.Collect | quick_clean.py:81-97 | every collected item has a positive size and carries the gatherer's category |
| QuickClean.CollectMembers | quick_clean.py:81-97 | an item is collected exactly when it comes from an admitted entry of positive size |
| QuickClean.EntriesAt | quick_clean.py:84-85 | a root that is missing or cannot be listed yields no entries |
| QuickClean.Gather | quick_clean.py:160-165 | there is a gatherer exactly for the four categories, and what it returns is sized and tagged with the category |
| QuickClean.SystemLogsAreLogFiles | quick_clean.py:99-121 | the log gatherer keeps only non-directories with a log name from one of the two log roots |
| QuickClean.BackupsAreDirectories | quick_clean.py:144-158 | the backup gatherer keeps only directories, each sized by its whole subtree |
| QuickClean.UnlistedRootGivesNothing | quick_clean.py:123-142 | a missing or unreadable root gives no items |
| QuickClean.CacheAndTrashKeepEverySizedEntry | quick_clean.py:81-142 | the cache and trash gatherers keep every entry of positive size, files and directories alike |
| QuickClean.Gathered | quick_clean.py:173-179 | everything gathered has a positive size and a requested, known category |
| QuickClean.Analyze | quick_clean.py:169-184 | the result items are the gathered items, sorted largest first, and the total is their sum |
| QuickClean.AnalyzedItemsAreTagged | quick_clean.py:169-184 | every analysed item has a positive size and one of the requested, known categories |
| QuickClean.SkippedCategoryChangesNothing | quick_clean.py:173-179 | asking for an unknown category, or one whose gatherer raises, changes nothing |
| QuickClean.GatheredCategory | quick_clean.py:173-177 | everything a requested category's gatherer finds is in the analysis, whatever else is asked for |
| QuickClean.NothingRequested | quick_clean.py:169-184 | with no category requested the result is empty with total 0 |
| QuickClean.PerformQuickClean | quick_clean.py:186-190 | a path is passed to deletion exactly when some result item with a still-selected category has it |
| QuickClean.CleanPathsAppend | quick_clean.py:188 | the paths keep result order |
| QuickClean.AllCategoriesCleanEverything | quick_clean.py:186-190 | with every category selected, all item paths are passed, in order |
| CleanSelection.UpdateSummary | main.py:261-266 | the count shown is the number of selected paths; the selected size is the sum of the sizes of the items whose paths are selected; Clean is disabled exactly when every selected item has size 0; the selected size is at most the total |
| CleanSelection.CleanDisabledIffNothingPicked | main.py:261-266 | with gathered items, Clean is disabled exactly when `clean_files` would find nothing to delete |
| CleanSelection.CleanTargets | main.py:319-323 | a path is deleted exactly when it belongs to a result item and is selected |
| CleanSelection.ToggleCategory | main.py:163-175 | ticking a category selects all its items' paths and clearing it deselects them; no other path changes |
| CleanSelection.ToggleItem | main.py:189-198 | ticking an item selects exactly its path and clearing it deselects it; no other path changes |
| CleanSelection.TickedCategoryIsChecked | main.py:158-175 | after ticking a non-empty category, its box is drawn checked |
| CleanSelection.ClearedCategoryIsUnchecked | main.py:158-175 | after clearing a category, none of its items is selected and its box is drawn unchecked |
| CleanSelection.EmptyCategoryIsUnchecked | main.py:158-161 | a category without items is never drawn checked |
| CleanSelection.TickThenClear | main.py:163-175 | clearing a category undoes ticking it, up to paths of the category that were selected before |
| CleanSelection.OtherCategoryKeepsItsBox | main.py:163-175 | toggling one category leaves the box of a category with other paths as it was |
| CleanSelection.TickingEachItemChecksCategory | main.py:158-198 | ticking every item of a category one by one draws the category checked |
| ConfigManager.SetGeminiKey | config_manager.py:74-77 | the Gemini key is stored stripped, and nothing else changes |
| ConfigManager.SetOpenAiKey | config_manager.py:83-86 | the OpenAI key is stored stripped, and nothing else changes |
| ConfigManager.SetPreferredProvider | config_manager.py:92-96 | "gemini" and "openai" are stored, and any other value leaves everything unchanged |
| ConfigManager.SetAiEnabled | config_manager.py:112-115 | the switch reads back as set, and nothing else changes |
| ConfigManager.GetCachedAnalysis | config_manager.py:122-126 | nothing is found while caching is off; otherwise a path is found exactly when it is cached |
| ConfigManager.CacheAnalysis | config_manager.py:128-132 | while caching is on the verdict is stored under the path and other paths are unchanged; while it is off nothing changes |
| ConfigManager.ClearCache | config_manager.py:134-137 | after clearing, no path is cached and the configuration is unchanged |
| ConfigManager.DefaultsWithoutFiles | config_manager.py:33-41 | without a stored configuration, AI, caching and debug are on, Gemini is preferred, there are no keys (so no valid key), and the cache is empty |
| ConfigManager.MissingKeysReadAsDefaults | config_manager.py:70-119 | a configuration missing every key reads exactly like the defaults |
| ConfigManager.KeysReadBackStripped | config_manager.py:70-86 | a key that was set is read back stripped |
| ConfigManager.SettingOneKeyKeepsTheOther | config_manager.py:74-90 | setting one key changes neither the other key nor the provider |
| ConfigManager.ProviderWhitelist | config_manager.py:88-96 | the provider read back is the one set if it is known, and the earlier one otherwise |
| ConfigManager.BlankKeyIsEmpty | config_manager.py:74-77 | a key of white space only is stored as the empty key |
| ConfigManager.SetKeyDecidesValidity | config_manager.py:98-105 | with a provider preferred, setting its key makes the configuration valid exactly when the stripped key is not empty |
| ConfigManager.UnknownProviderHasNoValidKey | config_manager.py:98-105 | an unknown preferred provider never has a valid key |
| ConfigManager.ValidityFollowsPreferredKey | config_manager.py:98-105 | the configuration is valid exactly when the preferred provider is known and its key is not empty |
| ConfigManager.CacheThenGet | config_manager.py:122-132 | a verdict cached while caching is on is read back, and other paths read as before |
| ConfigManager.CachingOffStoresNothing | config_manager.py:122-132 | while caching is off nothing is stored and nothing is read |
| ConfigManager.CacheSizeAfterStore | config_manager.py:128-141 | caching a new path adds one entry, and caching a known path keeps the size |
| ConfigManager.ClearedCacheIsEmpty | config_manager.py:134-141 | after clearing, the size is 0 and every lookup finds nothing |
| ConfigManager.AiSwitchKeepsTheRest | config_manager.py:112-115 | switching AI analysis changes neither key validity nor the cache |

## Left out

- **User interface.** The Flet user interface is not modelled: widgets, breadcrumbs, status colours, `page.update`, the debug log, and the drawing of rows beyond their title, link, controls and data. The same goes for `rebuild_list_ui` and the category labels. The text of messages and dialogs is modelled, but only as strings built from the inputs.
- **Threads and ordering.** Threads, executors and futures are not modelled. The workers of a scan run one after another in listing order. The gatherers of Quick Clean run in request order, whereas `as_completed` delivers them in completion order. This order does not change the multiset of items or the total. It can only change the relative order of equal-sized items after the sort.
- **Cancellation.** It is one flag for the whole scan: the model states only whether the user cancelled before the scan finished.
- **`time.sleep`, `format_size`, sizes in floating point, `AI_CONFIG`.** These are not modelled: they are delays and display formatting.
- **Real network calls.** No real AI service call is modelled. The code has none either: `ai_analyze_path` is a placeholder heuristic.
- **File-system calls.** `os.scandir`, `os.walk`, `getsize`, `shutil.rmtree` and `os.remove` are replaced by data:
  - a `FileTree.Node` subtree;
  - a `QuickClean.Disk` map from root paths to their listings;
  - a `Deletion.Failures` map from the paths whose removal fails to the error message.

  A listing that fails part way is modelled differently in each place, as the code treats it:
  - in the quick-clean gatherers (`quick_clean.py:86-97`), the items read before the failure are kept, so the `QuickClean.Disk` listing holds just those entries;
  - in the walk of `directory_size` (`os.walk` with an `onerror` that ignores the error), a directory whose listing fails is neither reported nor descended, which is `FileTree.Dir(_, false, _)`;
  - in the disk analyser (`main.py:464-468`), the listing is built inside one `try`, so any failure takes the error branch, which is `Scanner.Unlistable`.
- **Home directory.** `HOME` is a parameter. The rule-table facts in `RuleFacts` assume a home directory of the form `/Users/<name>`, where the name is a plain segment without `*`, `?` or `[`. `HOME` is substituted into every `~/` pattern before `fnmatch` reads it, so a `?` or `[` in it would be read as a wildcard or a character class. For such a home directory `Safety.GetSafetyInfo`, which matches only `*`, does not agree with the program.
- **`~user` expansion.** The model keeps the path unchanged, as Python does for an unknown user.
- **ASCII only.** `Strings.Lower` folds only ASCII letters, where `str.lower` folds every cased Unicode letter. `Strings.Strip` is not restricted: it removes Python's full `str.isspace` set.
- **Glob features.** `fnmatch` is modelled for patterns whose only wildcard is `*`. No pattern in the table uses `?` or `[...]`. Case folding is not modelled, since the platform is POSIX.
- **JSON persistence.** The configuration and cache files are not read or written. A stored file is a parameter, and every setter returns the state that would be saved. Values of other JSON types for known keys are not modelled either.
- **Quick-clean deletion and the streaming analysis.** `perform_deletion` (`quick_clean.py:190`) and `analyze_quick_clean_iter` (`main.py:288`) are not defined in the code, and neither are the six category constants `MACOS_INSTALLERS`, `XCODE_DERIVED_DATA`, `IOS_SIMULATORS`, `CRASH_REPORTS`, `TEMP_FILES` and `APP_SUPPORT_CACHES` that `main.py:25-30` imports from `quick_clean.py`. `QuickClean.PerformQuickClean` and `CleanSelection.CleanTargets` therefore stop at the list of paths to delete. The items of a category are taken to be the result items tagged with it.
- **Other files.** `main_new.py`, `deletion_backup.py`, `mac_permissions.py`, `settings_ui.py` and the permission checks are not part of this model.
- **Unwired handler.** `deletion.py`'s `delete_selected_handler` is not wired to any button. Its gate is the same `GateDecision` as `main.py`'s handler, and its confirmation step is modelled by `Deletion.ConfirmDeleteAsWritten`.
- Deletion.GateDialog and Deletion.GateMessage: these compute the message and dialog texts. No property is stated about them beyond the names they show (`Deletion.BasenamesOf`) and the count printed in them (`Strings.DecimalRoundTrip`).
- Deletion.DeletionStatus: this computes the status text (the first three result lines and how many more there are). No property is stated about it.

## Findings

| source | as written | input that shows it | evidently intended | confidence | as-written member | corrected member |
|---|---|---|---|---|---|---|
| deletion.py:124-151 | after deleting the confirmed items, `confirm_delete` refreshes by calling `scan_and_display` on the current directory without invalidating its `directory_cache` entry | a current directory that is already in the cache: the refresh takes the cached branch (`main.py:559-567`) and shows the deleted entries again. The defect is latent: `main.py:580` binds `delete_selected_handler` but never uses it, and the Delete button calls `simple_delete_selected_handler` (`main.py:921-923`) | invalidate the current directory's cache entry before refreshing, as `perform_deletion` does in `main.py:675-681` | medium, not executed | Deletion.ConfirmDeleteAsWritten, Deletion.ConfirmShowsStaleRows | Deletion.ConfirmDelete |
