/**
 * The Quick Clean analysis of `quick_clean.py`: four gatherers that list a
 * fixed root directory one level deep and keep the entries worth removing,
 * the aggregation that totals and sorts what they found, and the selection
 * of paths handed to deletion.
 *
 * The file system is an abstract `Disk`: for each root path, whether it is
 * a directory and what listing it gives. The gatherers run one after
 * another, in the order the categories were asked for.
 */
module QuickClean {
  import opened Base
  import PosixPath
  import Glob
  import FileTree
  import Sorting

  /** The category identifiers. */
  const UserCache: string := "user_cache"
  const SystemLogs: string := "system_logs"
  const Trash: string := "trash"
  const IosBackups: string := "ios_backups"

  /** The keys of `GATHERERS`. */
  predicate IsCategory(c: string)
  {
    c == UserCache || c == SystemLogs || c == Trash || c == IosBackups
  }

  /** `QuickCleanItem`. */
  datatype Item = Item(path: string, size: nat, category: string)

  /** `QuickCleanResult`. */
  datatype Result = Result(items: seq<Item>, totalSize: nat)

  /** The sort key and the summand of the total. */
  function ItemSize(i: Item): nat
  {
    i.size
  }

  // ---------------------------------------------------------------------------
  // The file system as the gatherers see it
  // ---------------------------------------------------------------------------

  /**
   * A root directory: absent or not a directory (`os.path.isdir` is false),
   * present but `os.scandir` fails, or listed. A listing that fails part way
   * is the listing of the entries read before the failure.
   */
  datatype Root = Missing | Unlistable | Listed(entries: seq<FileTree.Node>)

  /** The roots the gatherers look at; a path not in the map is missing. */
  type Disk = map<string, Root>

  function RootAt(disk: Disk, p: string): Root
  {
    if p in disk then disk[p] else Missing
  }

  /** `os.path.join(HOME, "Library", ...)`. */
  function InLibrary(home: string, sub: string): string
  {
    PosixPath.JoinPath(PosixPath.JoinPath(home, "Library"), sub)
  }

  function CacheRoot(home: string): string
  {
    InLibrary(home, "Caches")
  }

  /** The two log directories, tried in this order. */
  function LogRoots(home: string): seq<string>
  {
    ["/private/var/log", InLibrary(home, "Logs")]
  }

  function TrashRoot(home: string): string
  {
    PosixPath.JoinPath(home, ".Trash")
  }

  function BackupRoot(home: string): string
  {
    PosixPath.JoinPath(PosixPath.JoinPath(InLibrary(home, "Application Support"), "MobileSync"), "Backup")
  }

  // ---------------------------------------------------------------------------
  // Which entries a gatherer keeps
  // ---------------------------------------------------------------------------

  /** The `fnmatch` patterns of the log gatherer. */
  const LogPatterns: seq<string> := ["*.log", "*.0", "system.log.*"]

  /**
   * `any(fnmatch.fnmatch(name, pat) for pat in patterns)`. On macOS
   * `fnmatch` does not fold case, and none of these patterns holds a
   * character other than `*` and literals.
   */
  predicate IsLogName(name: string)
  {
    exists k :: 0 <= k < |LogPatterns| && Glob.Match(LogPatterns[k], name)
  }

  /** `s` ends with `b`. */
  predicate EndsWith(s: string, b: string)
  {
    |b| <= |s| && s[|s| - |b|..] == b
  }

  /** A log name is one ending in ".log" or ".0", or starting with "system.log.". */
  lemma IsLogNameIff(name: string)
    ensures IsLogName(name) <==> EndsWith(name, ".log") || EndsWith(name, ".0") || "system.log." <= name
  {
    assert LogPatterns[0] == "*" + ".log";
    assert LogPatterns[1] == "*" + ".0";
    assert LogPatterns[2] == "system.log." + "*";
    Glob.MatchStarSuffix(".log", name);
    Glob.MatchStarSuffix(".0", name);
    Glob.MatchPrefixStar("system.log.", name);
  }

  /**
   * Whether the gatherer of `cat` keeps a listed entry, size aside: the
   * cache and trash gatherers keep every entry, the log gatherer entries
   * that are not directories and whose name is a log name, the backup
   * gatherer directories only. A link is never a directory here, since
   * every gatherer asks `is_dir(follow_symlinks=False)`.
   */
  predicate Admits(cat: string, n: FileTree.Node)
  {
    if cat == SystemLogs then !n.Dir? && IsLogName(n.name)
    else if cat == IosBackups then n.Dir?
    else true
  }

  /** The item an entry under `root` becomes: its joined path and its size. */
  function ItemOf(root: string, cat: string, n: FileTree.Node): Item
  {
    Item(PosixPath.JoinPath(root, n.name), FileTree.EntrySize(n), cat)
  }

  /**
   * The loop over `os.scandir(root)`: every admitted entry is sized
   * (`directory_size` for a directory, `getsize` otherwise, 0 on error) and
   * kept when its size is positive.
   */
  function Collect(root: string, cat: string, ns: seq<FileTree.Node>): (r: seq<Item>)
    ensures |r| <= |ns|
    ensures forall i :: 0 <= i < |r| ==> r[i].size > 0 && r[i].category == cat
  {
    if |ns| == 0 then []
    else
      var n := ns[0];
      var rest := Collect(root, cat, ns[1..]);
      if Admits(cat, n) && FileTree.EntrySize(n) > 0 then [ItemOf(root, cat, n)] + rest else rest
  }

  /** An item is collected exactly when it comes from an admitted entry of positive size. */
  lemma {:induction false} CollectMembers(root: string, cat: string, ns: seq<FileTree.Node>, it: Item)
    ensures it in Collect(root, cat, ns) <==>
      exists i :: 0 <= i < |ns| && Admits(cat, ns[i]) && FileTree.EntrySize(ns[i]) > 0 && it == ItemOf(root, cat, ns[i])
    decreases |ns|
  {
    if |ns| > 0 {
      CollectMembers(root, cat, ns[1..], it);
      if it in Collect(root, cat, ns[1..]) {
        var i :| 0 <= i < |ns[1..]| && Admits(cat, ns[1..][i]) && FileTree.EntrySize(ns[1..][i]) > 0
          && it == ItemOf(root, cat, ns[1..][i]);
        assert ns[i + 1] == ns[1..][i];
      }
      if exists i :: 0 <= i < |ns| && Admits(cat, ns[i]) && FileTree.EntrySize(ns[i]) > 0 && it == ItemOf(root, cat, ns[i]) {
        var i :| 0 <= i < |ns| && Admits(cat, ns[i]) && FileTree.EntrySize(ns[i]) > 0 && it == ItemOf(root, cat, ns[i]);
        if i > 0 {
          assert ns[1..][i - 1] == ns[i];
        }
      }
    }
  }

  /** Collecting from two runs of entries is collecting from each, in order. */
  lemma {:induction false} CollectAppend(root: string, cat: string, a: seq<FileTree.Node>, b: seq<FileTree.Node>)
    ensures Collect(root, cat, a + b) == Collect(root, cat, a) + Collect(root, cat, b)
    decreases |a|
  {
    if |a| == 0 {
      assert a + b == b;
    } else {
      assert (a + b)[0] == a[0];
      assert (a + b)[1..] == a[1..] + b;
      CollectAppend(root, cat, a[1..], b);
    }
  }

  // ---------------------------------------------------------------------------
  // The gatherers
  // ---------------------------------------------------------------------------

  /** The entries a root yields: none when it is not a directory or cannot be listed. */
  function EntriesAt(disk: Disk, root: string): (ns: seq<FileTree.Node>)
    ensures !RootAt(disk, root).Listed? ==> ns == []
  {
    match RootAt(disk, root)
    case Listed(entries) => entries
    case _ => []
  }

  /** One root of one gatherer: the collected entries of its listing. */
  function GatherRoot(disk: Disk, root: string, cat: string): seq<Item>
  {
    Collect(root, cat, EntriesAt(disk, root))
  }

  /** `gather_user_cache`. */
  function GatherUserCache(home: string, disk: Disk): seq<Item>
  {
    GatherRoot(disk, CacheRoot(home), UserCache)
  }

  /**
   * `gather_system_logs`: both log roots in turn; a root that is missing or
   * cannot be listed is passed over and the next one is still read.
   */
  function GatherSystemLogs(home: string, disk: Disk): seq<Item>
  {
    GatherRoot(disk, LogRoots(home)[0], SystemLogs) + GatherRoot(disk, LogRoots(home)[1], SystemLogs)
  }

  /** `gather_trash`. */
  function GatherTrash(home: string, disk: Disk): seq<Item>
  {
    GatherRoot(disk, TrashRoot(home), Trash)
  }

  /** `gather_ios_backups`. */
  function GatherIosBackups(home: string, disk: Disk): seq<Item>
  {
    GatherRoot(disk, BackupRoot(home), IosBackups)
  }

  /** `GATHERERS[cat]()`, or None for a category that has no gatherer. */
  function Gather(home: string, disk: Disk, cat: string): (r: Option<seq<Item>>)
    ensures r.Some? <==> IsCategory(cat)
    ensures r.Some? ==> forall i :: 0 <= i < |r.value| ==> r.value[i].size > 0 && r.value[i].category == cat
  {
    if cat == UserCache then Some(GatherUserCache(home, disk))
    else if cat == SystemLogs then Some(GatherSystemLogs(home, disk))
    else if cat == Trash then Some(GatherTrash(home, disk))
    else if cat == IosBackups then Some(GatherIosBackups(home, disk))
    else None
  }

  /** The logs gatherer keeps only non-directories with a log name, from one of the two log roots. */
  lemma SystemLogsAreLogFiles(home: string, disk: Disk, it: Item)
    requires it in GatherSystemLogs(home, disk)
    ensures exists k, i :: (
      && 0 <= k < 2 && 0 <= i < |EntriesAt(disk, LogRoots(home)[k])|
      && var n := EntriesAt(disk, LogRoots(home)[k])[i];
      && !n.Dir? && IsLogName(n.name) && FileTree.EntrySize(n) > 0
      && it == ItemOf(LogRoots(home)[k], SystemLogs, n))
  {
    var k := if it in GatherRoot(disk, LogRoots(home)[0], SystemLogs) then 0 else 1;
    var root := LogRoots(home)[k];
    CollectMembers(root, SystemLogs, EntriesAt(disk, root), it);
  }

  /** The backup gatherer keeps only directories, each sized by its whole subtree. */
  lemma BackupsAreDirectories(home: string, disk: Disk, it: Item)
    requires it in GatherIosBackups(home, disk)
    ensures exists i :: (
      && 0 <= i < |EntriesAt(disk, BackupRoot(home))|
      && var n := EntriesAt(disk, BackupRoot(home))[i];
      && n.Dir? && it == ItemOf(BackupRoot(home), IosBackups, n) && it.size == FileTree.Bytes(n))
  {
    CollectMembers(BackupRoot(home), IosBackups, EntriesAt(disk, BackupRoot(home)), it);
  }

  /** A root that is missing or cannot be listed gives no items. */
  lemma UnlistedRootGivesNothing(disk: Disk, root: string, cat: string)
    requires !RootAt(disk, root).Listed?
    ensures GatherRoot(disk, root, cat) == []
  {
  }

  /** The cache and trash gatherers keep every entry of positive size, files and directories alike. */
  lemma CacheAndTrashKeepEverySizedEntry(home: string, disk: Disk, cat: string, ns: seq<FileTree.Node>, i: nat)
    requires cat == UserCache || cat == Trash
    requires RootAt(disk, if cat == UserCache then CacheRoot(home) else TrashRoot(home)) == Listed(ns)
    requires i < |ns| && FileTree.EntrySize(ns[i]) > 0
    ensures Gather(home, disk, cat).Some?
    ensures ItemOf(if cat == UserCache then CacheRoot(home) else TrashRoot(home), cat, ns[i]) in Gather(home, disk, cat).value
  {
    var root := if cat == UserCache then CacheRoot(home) else TrashRoot(home);
    CollectMembers(root, cat, ns, ItemOf(root, cat, ns[i]));
  }

  // ---------------------------------------------------------------------------
  // analyze_quick_clean
  // ---------------------------------------------------------------------------

  /**
   * What the futures deliver, one gatherer per requested category in
   * request order: a category without a gatherer is not submitted, and a
   * gatherer that raises (those in `raising`) contributes nothing. A
   * category asked for twice is gathered twice.
   */
  function Gathered(home: string, disk: Disk, cats: seq<string>, raising: set<string>): (r: seq<Item>)
    ensures forall i :: 0 <= i < |r| ==> r[i].size > 0 && r[i].category in cats && IsCategory(r[i].category)
  {
    if |cats| == 0 then []
    else
      var rest := Gathered(home, disk, cats[..|cats| - 1], raising);
      var c := cats[|cats| - 1];
      var g := Gather(home, disk, c);
      if g.Some? && c !in raising then rest + g.value else rest
  }

  /**
   * `analyze_quick_clean`: the total is summed over what was gathered, then
   * the items are sorted largest first.
   */
  function Analyze(home: string, disk: Disk, cats: seq<string>, raising: set<string>): (r: Result)
    ensures Sorting.SortedDesc(r.items, ItemSize)
    ensures multiset(r.items) == multiset(Gathered(home, disk, cats, raising))
    ensures r.totalSize == SumBy(r.items, ItemSize)
  {
    var items := Gathered(home, disk, cats, raising);
    Sorting.SortKeepsSum(items, ItemSize, ItemSize);
    Result(Sorting.SortDesc(items, ItemSize), SumBy(items, ItemSize))
  }

  /** Every analysed item has a positive size and one of the requested, known categories. */
  lemma AnalyzedItemsAreTagged(home: string, disk: Disk, cats: seq<string>, raising: set<string>, it: Item)
    requires it in Analyze(home, disk, cats, raising).items
    ensures it.size > 0 && it.category in cats && IsCategory(it.category)
  {
    assert it in multiset(Analyze(home, disk, cats, raising).items);
  }

  /** Asking for a category without a gatherer, or one whose gatherer raises, changes nothing. */
  lemma SkippedCategoryChangesNothing(home: string, disk: Disk, cats: seq<string>, raising: set<string>, c: string)
    requires !IsCategory(c) || c in raising
    ensures Analyze(home, disk, cats + [c], raising) == Analyze(home, disk, cats, raising)
  {
    assert (cats + [c])[..|cats|] == cats;
  }

  /** The items of a requested category include everything its gatherer finds, whatever else is asked for. */
  lemma {:induction false} GatheredCategory(home: string, disk: Disk, cats: seq<string>, raising: set<string>, c: string)
    requires IsCategory(c) && c !in raising && c in cats
    ensures forall it :: it in Gather(home, disk, c).value ==> it in Gathered(home, disk, cats, raising)
    decreases |cats|
  {
    var last := cats[|cats| - 1];
    var front := cats[..|cats| - 1];
    if last != c {
      assert c in front by {
        var j :| 0 <= j < |cats| && cats[j] == c;
        assert j < |cats| - 1;
        assert front[j] == c;
      }
      GatheredCategory(home, disk, front, raising, c);
    }
  }

  /** With no category requested the result is empty. */
  lemma NothingRequested(home: string, disk: Disk, raising: set<string>)
    ensures Analyze(home, disk, [], raising) == Result([], 0)
  {
  }

  // ---------------------------------------------------------------------------
  // perform_quick_clean
  // ---------------------------------------------------------------------------

  /**
   * `perform_quick_clean`: the paths of the result items whose category is
   * still selected, in result order; these go to deletion.
   */
  function CleanPaths(items: seq<Item>, cats: seq<string>): (paths: seq<string>)
    ensures |paths| <= |items|
  {
    if |items| == 0 then []
    else
      var rest := CleanPaths(items[1..], cats);
      if items[0].category in cats then [items[0].path] + rest else rest
  }

  function PerformQuickClean(r: Result, cats: seq<string>): (paths: seq<string>)
    ensures forall p :: p in paths <==> exists i :: 0 <= i < |r.items| && r.items[i].category in cats && r.items[i].path == p
  {
    CleanPathsMembers(r.items, cats);
    CleanPaths(r.items, cats)
  }

  /** A path is passed exactly when some item with a selected category has it. */
  lemma {:induction false} CleanPathsMembers(items: seq<Item>, cats: seq<string>)
    ensures forall p :: p in CleanPaths(items, cats) <==>
      exists i :: 0 <= i < |items| && items[i].category in cats && items[i].path == p
    decreases |items|
  {
    if |items| > 0 {
      CleanPathsMembers(items[1..], cats);
      forall p
        ensures p in CleanPaths(items, cats) <==>
          exists i :: 0 <= i < |items| && items[i].category in cats && items[i].path == p
      {
        if p in CleanPaths(items[1..], cats) {
          var i :| 0 <= i < |items[1..]| && items[1..][i].category in cats && items[1..][i].path == p;
          assert items[i + 1] == items[1..][i];
        }
        if exists i :: 0 <= i < |items| && items[i].category in cats && items[i].path == p {
          var i :| 0 <= i < |items| && items[i].category in cats && items[i].path == p;
          if i > 0 {
            assert items[1..][i - 1] == items[i];
          }
        }
      }
    }
  }

  /** The selection keeps result order: it distributes over a split of the items. */
  lemma {:induction false} CleanPathsAppend(a: seq<Item>, b: seq<Item>, cats: seq<string>)
    ensures CleanPaths(a + b, cats) == CleanPaths(a, cats) + CleanPaths(b, cats)
    decreases |a|
  {
    if |a| == 0 {
      assert a + b == b;
    } else {
      assert (a + b)[0] == a[0];
      assert (a + b)[1..] == a[1..] + b;
      CleanPathsAppend(a[1..], b, cats);
    }
  }

  /** With every category of the result selected, all item paths are passed, in order. */
  lemma {:induction false} AllCategoriesCleanEverything(items: seq<Item>, cats: seq<string>)
    requires forall i :: 0 <= i < |items| ==> items[i].category in cats
    ensures |CleanPaths(items, cats)| == |items|
    ensures forall i :: 0 <= i < |items| ==> CleanPaths(items, cats)[i] == items[i].path
    decreases |items|
  {
    if |items| > 0 {
      AllCategoriesCleanEverything(items[1..], cats);
    }
  }
}
