/**
 * The disk analyser of `main.py`: scanning a directory (`scan_directory_thread`
 * with `get_size_threaded`), showing results (`display_scan_results`),
 * navigating with the directory cache (`scan_and_display`) and clearing it.
 * The worker threads run one after another here, and the user's cancel
 * button is a flag given for the whole scan: the results of a scan are
 * discarded as soon as the flag is set before the scan finishes, so only
 * whether it was set matters.
 */
module Scanner {
  import opened Base
  import PosixPath
  import FileTree
  import Sorting
  import DirCache

  /** One scan result, `{"path": ..., "size": ..., "is_dir": ...}`. */
  datatype SizedEntry = SizedEntry(path: string, size: nat, isDir: bool)

  /** The sort key of scan results. */
  function SizeOf(e: SizedEntry): nat
  {
    e.size
  }

  /** What `os.scandir` on the directory gives: an error, or the entries in listing order. */
  datatype Listing = Unlistable | Listed(entries: seq<FileTree.Node>)

  /** The scan result for one listed entry, once its size is known. */
  function Sized(dir: string, n: FileTree.Node): SizedEntry
  {
    SizedEntry(PosixPath.JoinPath(dir, n.name), FileTree.EntrySize(n), n.Dir?)
  }

  /**
   * `get_size_threaded`: nothing once the scan is cancelled; otherwise a
   * directory entry is walked and any other entry, a link included, is
   * measured by `getsize` (0 when that fails).
   */
  method GetSizeThreaded(dir: string, n: FileTree.Node, cancelled: bool) returns (r: Option<SizedEntry>)
    ensures cancelled <==> r.None?
    ensures r.Some? ==> r.value.path == PosixPath.JoinPath(dir, n.name) && r.value.isDir == n.Dir?
    ensures r.Some? && n.Dir? ==> r.value.size == FileTree.Bytes(n)
    ensures r.Some? && !n.Dir? ==> r.value.size == FileTree.SizeOr0(n.size)
    ensures r.Some? ==> r.value == Sized(dir, n)
  {
    if cancelled {
      return None;
    }
    var size: nat;
    if n.Dir? {
      size := FileTree.DirectorySize(n);
    } else {
      size := FileTree.SizeOr0(n.size);
    }
    return Some(SizedEntry(PosixPath.JoinPath(dir, n.name), size, n.Dir?));
  }

  /** The results of every entry, in listing order. */
  function SizedAll(dir: string, ns: seq<FileTree.Node>): (r: seq<SizedEntry>)
    ensures |r| == |ns|
    ensures forall i :: 0 <= i < |ns| ==> r[i] == Sized(dir, ns[i])
  {
    if |ns| == 0 then [] else [Sized(dir, ns[0])] + SizedAll(dir, ns[1..])
  }

  /** `results.sort(key=lambda x: x["size"], reverse=True)` on the listed entries. */
  function ScanResults(dir: string, ns: seq<FileTree.Node>): (r: seq<SizedEntry>)
    ensures Sorting.SortedDesc(r, SizeOf)
    ensures multiset(r) == multiset(SizedAll(dir, ns))
  {
    Sorting.SortDesc(SizedAll(dir, ns), SizeOf)
  }

  // ---------------------------------------------------------------------------
  // The result list on screen
  // ---------------------------------------------------------------------------

  /** The trailing controls of a result row. */
  datatype Control = Checkbox(checked: bool) | AiButton

  /**
   * One row of `scan_results_list`: its title, the directory a click opens
   * (if any), its trailing controls (None for a tile without them) and its
   * `data` (None for a tile without it).
   */
  datatype Row = Row(title: string, opens: Option<string>, trailing: Option<seq<Control>>, data: Option<string>)

  /** The ".." row leading to the parent directory, absent for the root. */
  function UpRows(path: string): (rows: seq<Row>)
    ensures path == "/" <==> rows == []
    ensures rows != [] ==> rows == [Row("..", Some(PosixPath.Dirname(path)), None, None)]
  {
    if path != "/" then [Row("..", Some(PosixPath.Dirname(path)), None, None)] else []
  }

  /** The row of one result: an unchecked box, the analysis button, and the path as `data`. */
  function ResultRow(e: SizedEntry): Row
  {
    Row(PosixPath.Basename(e.path), if e.isDir then Some(e.path) else None, Some([Checkbox(false), AiButton]), Some(e.path))
  }

  /** One row per result, in order. */
  function ResultRows(results: seq<SizedEntry>): (rows: seq<Row>)
    ensures |rows| == |results|
    ensures forall i :: 0 <= i < |results| ==> rows[i] == ResultRow(results[i])
  {
    if |results| == 0 then [] else [ResultRow(results[0])] + ResultRows(results[1..])
  }

  /** `display_scan_results(results, path)`: the ".." row, then one row per result in order. */
  function DisplayRows(path: string, results: seq<SizedEntry>): (rows: seq<Row>)
    ensures |rows| == |UpRows(path)| + |results|
    ensures forall i :: 0 <= i < |results| ==> rows[|UpRows(path)| + i] == ResultRow(results[i])
    ensures rows[..|UpRows(path)|] == UpRows(path)
  {
    UpRows(path) + ResultRows(results)
  }

  // ---------------------------------------------------------------------------
  // The analyser's state and its transitions
  // ---------------------------------------------------------------------------

  /** The directory cache, `scan_thread_state["current_path"]` and the rows on screen. */
  datatype Analyzer = Analyzer(cache: DirCache.Cache<seq<SizedEntry>>, currentPath: string, rows: seq<Row>)

  /**
   * `scan_directory_thread(path)` once `os.scandir` has answered. A listing
   * error writes no cache entry and leaves only the ".." row; a cancelled
   * scan changes neither the cache nor the rows; a completed scan stores
   * the sorted results under the path, trims the cache and shows them.
   */
  function ScanDirectory(a: Analyzer, path: string, listing: Listing, cancelled: bool): (b: Analyzer)
    requires DirCache.Valid(a.cache)
    ensures DirCache.Valid(b.cache)
    ensures b.currentPath == path
    ensures listing.Unlistable? ==> b.cache == a.cache && b.rows == UpRows(path)
    ensures listing.Listed? && cancelled ==> b.cache == a.cache && b.rows == a.rows
    ensures listing.Listed? && !cancelled ==>
      var results := ScanResults(path, listing.entries);
      && b.cache == DirCache.Store(a.cache, path, results)
      && b.rows == DisplayRows(path, results)
  {
    match listing
    case Unlistable => Analyzer(a.cache, path, UpRows(path))
    case Listed(entries) =>
      if cancelled then Analyzer(a.cache, path, a.rows)
      else
        var results := ScanResults(path, entries);
        Analyzer(DirCache.Store(a.cache, path, results), path, DisplayRows(path, results))
  }

  /** What `scan_and_display` does: show cached results, or clear the list and start a scan. */
  datatype Navigation = Shown(after: Analyzer) | MustScan(after: Analyzer)

  /**
   * `scan_and_display(path)`: a cached path is shown from the cache and
   * becomes the current path; otherwise the list is cleared and a scan is
   * started, the cache left as it is.
   */
  function ScanAndDisplay(a: Analyzer, path: string): (n: Navigation)
    ensures n.Shown? <==> path in a.cache.values
    ensures n.after.cache == a.cache
    ensures n.Shown? ==> n.after == Analyzer(a.cache, path, DisplayRows(path, a.cache.values[path]))
    ensures n.MustScan? ==> n.after.rows == [] && n.after.currentPath == a.currentPath
  {
    if path in a.cache.values then Shown(Analyzer(a.cache, path, DisplayRows(path, a.cache.values[path])))
    else MustScan(Analyzer(a.cache, a.currentPath, []))
  }

  /** Entering a directory: from the cache if it is there, else by scanning it with the given listing. */
  function Navigate(a: Analyzer, path: string, listing: Listing, cancelled: bool): (b: Analyzer)
    requires DirCache.Valid(a.cache)
    ensures DirCache.Valid(b.cache)
  {
    match ScanAndDisplay(a, path)
    case Shown(b) => b
    case MustScan(b) => ScanDirectory(b, path, listing, cancelled)
  }

  /** The "clear_cache" choice of the directory menu: the cache is emptied, nothing else changes. */
  function ClearCache(a: Analyzer): (b: Analyzer)
    ensures DirCache.Valid(b.cache) && DirCache.Size(b.cache) == 0
    ensures b.currentPath == a.currentPath && b.rows == a.rows
  {
    Analyzer(DirCache.Clear(a.cache), a.currentPath, a.rows)
  }

  // ---------------------------------------------------------------------------
  // Properties
  // ---------------------------------------------------------------------------

  /** A cached directory is shown without scanning: the listing and the cancel flag play no part. */
  lemma CachedPathIsNotScanned(a: Analyzer, path: string, l1: Listing, c1: bool, l2: Listing, c2: bool)
    requires DirCache.Valid(a.cache) && path in a.cache.values
    ensures Navigate(a, path, l1, c1) == Navigate(a, path, l2, c2)
    ensures Navigate(a, path, l1, c1).rows == DisplayRows(path, a.cache.values[path])
    ensures Navigate(a, path, l1, c1).currentPath == path
  {
  }

  /**
   * A completed scan's results come back from the cache: entering the same
   * directory again shows exactly the rows the scan showed, without scanning.
   */
  lemma ScanThenRevisit(a: Analyzer, path: string, entries: seq<FileTree.Node>, l: Listing, c: bool)
    requires DirCache.Valid(a.cache) && DirCache.Size(a.cache) <= DirCache.MaxEntries
    requires path !in a.cache.values
    ensures var b := Navigate(a, path, Listed(entries), false);
      && DirCache.Size(b.cache) <= DirCache.MaxEntries
      && Navigate(b, path, l, c) == b
  {
    var results := ScanResults(path, entries);
    DirCache.StoreKeepsBound(a.cache, path, results);
    DirCache.StoreKeepsNewest(a.cache, path, results);
  }

  /** After the cache is cleared every directory is scanned again. */
  lemma ClearedCacheScans(a: Analyzer, path: string)
    ensures ScanAndDisplay(ClearCache(a), path).MustScan?
  {
  }

  /** A completed scan lists every entry once, largest first, ties in listing order. */
  lemma CompletedScanResults(a: Analyzer, path: string, entries: seq<FileTree.Node>)
    requires DirCache.Valid(a.cache) && DirCache.Size(a.cache) <= DirCache.MaxEntries
    ensures var b := ScanDirectory(a, path, Listed(entries), false);
      && path in b.cache.values
      && var r := b.cache.values[path];
      && Sorting.SortedDesc(r, SizeOf)
      && multiset(r) == multiset(SizedAll(path, entries))
      && Sorting.Stable(SizedAll(path, entries), r, SizeOf)
      && DirCache.Size(b.cache) <= DirCache.MaxEntries
  {
    var results := ScanResults(path, entries);
    DirCache.StoreKeepsNewest(a.cache, path, results);
    DirCache.StoreKeepsBound(a.cache, path, results);
    Sorting.SortIsStable(SizedAll(path, entries), SizeOf);
  }
}
