/**
 * POSIX path handling as Python's `posixpath` does it: `str.split('/')` and
 * `'/'.join`, `expanduser`, `normpath`, `basename`, `dirname` and `join`.
 * `normalize_path` of the cleaner is `NormalizePath`: home expansion followed
 * by lexical collapsing. Symbolic links are never consulted.
 */
module PosixPath {

  // ---------------------------------------------------------------------------
  // Splitting on '/' and joining with '/'
  // ---------------------------------------------------------------------------

  /** `s.split('/')`: the pieces between slashes, empty pieces included. */
  function Split(s: string): (parts: seq<string>)
    ensures |parts| >= 1
    ensures forall i :: 0 <= i < |parts| ==> '/' !in parts[i]
    decreases |s|
  {
    if |s| == 0 then [""]
    else
      var rest := Split(s[1..]);
      if s[0] == '/' then [""] + rest
      else [[s[0]] + rest[0]] + rest[1..]
  }

  /** `'/'.join(parts)`. */
  function Join(parts: seq<string>): string
  {
    if |parts| == 0 then ""
    else if |parts| == 1 then parts[0]
    else parts[0] + "/" + Join(parts[1..])
  }

  /** Joining the pieces of a split gives the string back. */
  lemma {:induction false} JoinSplit(s: string)
    ensures Join(Split(s)) == s
    decreases |s|
  {
    if |s| > 0 {
      var rest := Split(s[1..]);
      JoinSplit(s[1..]);
      if s[0] == '/' {
        assert ([""] + rest)[1..] == rest;
      } else if |rest| > 1 {
        var parts := [[s[0]] + rest[0]] + rest[1..];
        assert parts[1..] == rest[1..];
        assert Join(rest) == rest[0] + "/" + Join(rest[1..]);
        assert s == [s[0]] + s[1..];
      } else {
        assert s == [s[0]] + s[1..];
      }
    }
  }

  /** A slash-free prefix fuses with the first piece of what follows it. */
  lemma {:induction false} SplitSlashFreePrefix(x: string, y: string)
    requires '/' !in x
    ensures Split(x + y) == [x + Split(y)[0]] + Split(y)[1..]
    decreases |x|
  {
    if |x| > 0 {
      assert (x + y)[1..] == x[1..] + y;
      assert (x + y)[0] == x[0];
      SplitSlashFreePrefix(x[1..], y);
      assert [x[0]] + (x[1..] + Split(y)[0]) == x + Split(y)[0];
    } else {
      var sy := Split(y);
      assert x + y == y;
      assert x + sy[0] == sy[0];
      assert sy == [sy[0]] + sy[1..];
    }
  }

  /** A leading slash contributes one empty piece. */
  lemma SplitSlash(y: string)
    ensures Split("/" + y) == [""] + Split(y)
  {
    assert ("/" + y)[1..] == y;
  }

  /** Splitting a join of slash-free pieces gives the pieces back. */
  lemma {:induction false} SplitJoin(parts: seq<string>)
    requires |parts| >= 1
    requires forall i :: 0 <= i < |parts| ==> '/' !in parts[i]
    ensures Split(Join(parts)) == parts
    decreases |parts|
  {
    if |parts| == 1 {
      SplitSlashFreePrefix(parts[0], "");
      assert parts[0] + "" == parts[0];
    } else {
      var tail := Join(parts[1..]);
      SplitJoin(parts[1..]);
      SplitSlash(tail);
      assert Join(parts) == parts[0] + ("/" + tail);
      SplitSlashFreePrefix(parts[0], "/" + tail);
      assert parts[0] + "" == parts[0];
      assert parts == [parts[0]] + parts[1..];
    }
  }

  /** Joining two non-empty lists puts one slash between their joins. */
  lemma {:induction false} JoinAppend(a: seq<string>, b: seq<string>)
    requires |a| >= 1 && |b| >= 1
    ensures Join(a + b) == Join(a) + "/" + Join(b)
    decreases |a|
  {
    if |a| == 1 {
      assert (a + b)[1..] == b;
    } else {
      assert (a + b)[1..] == a[1..] + b;
      JoinAppend(a[1..], b);
    }
  }

  /** The join of pieces whose first piece is non-empty starts with that piece's first character. */
  lemma JoinHead(parts: seq<string>)
    requires |parts| >= 1 && |parts[0]| >= 1
    ensures |Join(parts)| >= 1 && Join(parts)[0] == parts[0][0]
  {
  }

  // ---------------------------------------------------------------------------
  // normpath
  // ---------------------------------------------------------------------------

  /** The string of `k` slashes. */
  function Slashes(k: nat): string
  {
    if k == 0 then "" else "/" + Slashes(k - 1)
  }

  /**
   * How many leading slashes `normpath` keeps: POSIX gives a path that starts
   * with exactly two slashes its own meaning, while one or three and more
   * slashes collapse to one.
   */
  function InitialSlashes(path: string): (k: nat)
    ensures k <= 2
  {
    if |path| >= 2 && path[0] == '/' && path[1] == '/' && !(|path| >= 3 && path[2] == '/') then 2
    else if |path| >= 1 && path[0] == '/' then 1
    else 0
  }

  /**
   * One step of `normpath`'s segment loop: drop empty and `.` segments; a `..`
   * removes the previous normal segment, stays when it cannot climb (relative
   * path at its start or after another `..`), and is dropped at the root.
   */
  function PushSegment(stack: seq<string>, comp: string, rooted: bool): seq<string>
  {
    if comp == "" || comp == "." then stack
    else if comp != ".." || (!rooted && |stack| == 0) || (|stack| > 0 && stack[|stack| - 1] == "..") then
      stack + [comp]
    else if |stack| > 0 then stack[..|stack| - 1]
    else stack
  }

  /** The segment loop of `normpath` over `comps`, starting from `stack`. */
  function Collapse(stack: seq<string>, comps: seq<string>, rooted: bool): seq<string>
    decreases |comps|
  {
    if |comps| == 0 then stack
    else Collapse(PushSegment(stack, comps[0], rooted), comps[1..], rooted)
  }

  /** A normalised path: its number of leading slashes and its segments. */
  datatype Parts = Parts(slashes: nat, segments: seq<string>)

  /**
   * The segments of a normalised path: none is empty or `.`, none holds a
   * slash, and a `..` appears only in a relative path and only at the start
   * or right after another `..` (never after a normal segment).
   */
  ghost predicate CleanSegments(stack: seq<string>, rooted: bool)
  {
    forall i {:trigger stack[i]} :: 0 <= i < |stack| ==>
      && stack[i] != "" && stack[i] != "." && '/' !in stack[i]
      && (stack[i] == ".." ==> !rooted && (i == 0 || stack[i - 1] == ".."))
  }

  /** The shape `normpath` produces: at most two leading slashes and clean segments. */
  ghost predicate ValidParts(p: Parts)
  {
    p.slashes <= 2 && CleanSegments(p.segments, p.slashes > 0)
  }

  /** The collapsing loop of `normpath` applied to a path. */
  function NormParts(path: string): Parts
  {
    var k := InitialSlashes(path);
    Parts(k, Collapse([], Split(path), k > 0))
  }

  /** Turns collapsed parts back into a string; the empty result is spelled `.`. */
  function Render(p: Parts): string
  {
    var s := Slashes(p.slashes) + Join(p.segments);
    if s == "" then "." else s
  }

  /** `os.path.normpath` on POSIX. */
  function NormPath(path: string): string
  {
    if path == "" then "." else Render(NormParts(path))
  }

  /** One loop step keeps a clean stack clean. */
  lemma PushKeepsClean(stack: seq<string>, comp: string, rooted: bool)
    requires CleanSegments(stack, rooted)
    requires '/' !in comp
    ensures CleanSegments(PushSegment(stack, comp, rooted), rooted)
  {
    var r := PushSegment(stack, comp, rooted);
    if comp == "" || comp == "." {
    } else if comp != ".." || (!rooted && |stack| == 0) || (|stack| > 0 && stack[|stack| - 1] == "..") {
      assert r == stack + [comp];
      forall i | 0 <= i < |r|
        ensures r[i] != "" && r[i] != "." && '/' !in r[i]
        ensures r[i] == ".." ==> !rooted && (i == 0 || r[i - 1] == "..")
      {
        if i < |stack| {
          assert r[i] == stack[i];
          if i > 0 { assert r[i - 1] == stack[i - 1]; }
        } else {
          assert i == |stack| && r[i] == comp;
          if comp == ".." {
            if |stack| == 0 {
              assert !rooted;
            } else {
              var last := |stack| - 1;
              assert stack[last] == "..";
              assert !rooted;
              assert r[i - 1] == stack[last];
            }
          }
        }
      }
    } else if |stack| > 0 {
      assert r == stack[..|stack| - 1];
      forall i | 0 <= i < |r|
        ensures r[i] != "" && r[i] != "." && '/' !in r[i]
        ensures r[i] == ".." ==> !rooted && (i == 0 || r[i - 1] == "..")
      {
        assert r[i] == stack[i];
        if i > 0 { assert r[i - 1] == stack[i - 1]; }
      }
    }
  }

  /** The whole loop keeps a clean stack clean. */
  lemma {:induction false} CollapseKeepsClean(stack: seq<string>, comps: seq<string>, rooted: bool)
    requires CleanSegments(stack, rooted)
    requires forall i :: 0 <= i < |comps| ==> '/' !in comps[i]
    ensures CleanSegments(Collapse(stack, comps, rooted), rooted)
    decreases |comps|
  {
    if |comps| > 0 {
      PushKeepsClean(stack, comps[0], rooted);
      CollapseKeepsClean(PushSegment(stack, comps[0], rooted), comps[1..], rooted);
    }
  }

  /**
   * Every result of `normpath` is in normal form: at most two leading slashes,
   * no empty or `.` segment, no `..` after a normal segment, and no `..` at all
   * in an absolute path (so it never starts with `/..`).
   */
  lemma NormPartsValid(path: string)
    ensures ValidParts(NormParts(path))
  {
    var k := InitialSlashes(path);
    CollapseKeepsClean([], Split(path), k > 0);
  }

  /** Feeding segments that are already clean just appends them. */
  lemma {:induction false} CollapseClean(stack: seq<string>, comps: seq<string>, rooted: bool)
    requires CleanSegments(stack + comps, rooted)
    ensures Collapse(stack, comps, rooted) == stack + comps
    decreases |comps|
  {
    if |comps| == 0 {
      assert stack + comps == stack;
    } else {
      var c := comps[0];
      assert (stack + comps)[|stack|] == c;
      if c == ".." && |stack| > 0 {
        assert (stack + comps)[|stack| - 1] == stack[|stack| - 1];
      }
      assert PushSegment(stack, c, rooted) == stack + [c];
      assert (stack + [c]) + comps[1..] == stack + comps;
      CollapseClean(stack + [c], comps[1..], rooted);
    }
  }

  /** An empty piece is skipped by the loop. */
  lemma CollapseSkipsEmpty(stack: seq<string>, rest: seq<string>, rooted: bool)
    ensures Collapse(stack, [""] + rest, rooted) == Collapse(stack, rest, rooted)
  {
    assert ([""] + rest)[1..] == rest;
  }

  /** Empty pieces (from leading slashes) are skipped by the loop. */
  lemma CollapseSkipsSlashes(k: nat, rest: string, rooted: bool)
    requires k <= 2
    ensures Collapse([], Split(Slashes(k) + rest), rooted) == Collapse([], Split(rest), rooted)
  {
    var tail := Split(rest);
    if k == 1 {
      assert Slashes(1) + rest == "/" + rest;
      SplitSlash(rest);
      CollapseSkipsEmpty([], tail, rooted);
    } else if k == 2 {
      assert Slashes(2) + rest == "/" + ("/" + rest);
      SplitSlash("/" + rest);
      SplitSlash(rest);
      CollapseSkipsEmpty([], [""] + tail, rooted);
      CollapseSkipsEmpty([], tail, rooted);
    } else {
      assert Slashes(0) + rest == rest;
    }
  }

  /** Rendering a path in normal form and normalising it again gives the same parts back. */
  lemma RenderFixed(p: Parts)
    requires ValidParts(p)
    requires p.slashes > 0 || |p.segments| > 0
    ensures NormParts(Render(p)) == p
  {
    if |p.segments| == 0 {
      RenderFixedSlashesOnly(p);
    } else {
      RenderFixedWithSegments(p);
    }
  }

  /** The round trip for a root of one or two slashes. */
  lemma RenderFixedSlashesOnly(p: Parts)
    requires ValidParts(p)
    requires p.slashes > 0 && |p.segments| == 0
    ensures NormParts(Render(p)) == p
  {
    var k := p.slashes;
    var s := Slashes(k) + Join(p.segments);
    assert s == Slashes(k);
    CollapseSkipsSlashes(k, "", k > 0);
    assert Slashes(k) + "" == s;
    assert Collapse([], [""], k > 0) == [];
    if k == 2 {
      assert s == "//";
    }
  }

  /** The round trip for a path with at least one segment. */
  lemma RenderFixedWithSegments(p: Parts)
    requires ValidParts(p)
    requires |p.segments| > 0
    ensures NormParts(Render(p)) == p
  {
    var k := p.slashes;
    var segs := p.segments;
    var body := Join(segs);
    var s := Slashes(k) + body;
    assert |segs[0]| >= 1;
    JoinHead(segs);
    assert s != "";
    CollapseSkipsSlashes(k, body, k > 0);
    SplitJoin(segs);
    assert [] + segs == segs;
    CollapseClean([], segs, k > 0);
    if k == 0 {
      assert s[0] == segs[0][0];
    } else if k == 1 {
      assert s == "/" + body;
      assert s[1] == segs[0][0];
    } else {
      assert s == "//" + body;
      assert s[2] == segs[0][0];
    }
  }

  /** `normpath` is idempotent. */
  lemma NormPathIdempotent(path: string)
    ensures NormPath(NormPath(path)) == NormPath(path)
  {
    var r := NormPath(path);
    NormPartsValid(path);
    var p := NormParts(path);
    if p.slashes == 0 && |p.segments| == 0 {
      assert r == ".";
      SplitSlashFreePrefix(".", "");
      assert "." + "" == ".";
      assert Split(".") == ["."];
    } else {
      RenderFixed(p);
    }
  }

  /** An absolute path built from normal segments is left untouched by `normpath`. */
  lemma NormPathOfCleanAbsolute(segs: seq<string>)
    requires |segs| >= 1
    requires forall i :: 0 <= i < |segs| ==> IsNormalSegment(segs[i])
    ensures NormPath("/" + Join(segs)) == "/" + Join(segs)
  {
    var p := Parts(1, segs);
    assert CleanSegments(segs, true);
    JoinHead(segs);
    RenderFixed(p);
    assert Slashes(1) == "/";
    assert Render(p) == "/" + Join(segs);
  }

  /** A relative path built from normal segments is left untouched by `normpath`. */
  lemma NormPathOfCleanRelative(segs: seq<string>)
    requires |segs| >= 1
    requires forall i :: 0 <= i < |segs| ==> IsNormalSegment(segs[i])
    ensures NormPath(Join(segs)) == Join(segs)
  {
    var p := Parts(0, segs);
    assert CleanSegments(segs, false);
    JoinHead(segs);
    RenderFixed(p);
    assert Render(p) == Join(segs);
  }

  /** A segment that `normpath` keeps as it is: non-empty, slash-free, neither `.` nor `..`. */
  predicate IsNormalSegment(c: string)
  {
    c != "" && c != "." && c != ".." && '/' !in c
  }

  // ---------------------------------------------------------------------------
  // expanduser and normalize_path
  // ---------------------------------------------------------------------------

  /** `s.rstrip('/')`. */
  function RStripSlashes(s: string): (r: string)
    ensures r <= s
    ensures r == "" || r[|r| - 1] != '/'
  {
    if |s| > 0 && s[|s| - 1] == '/' then RStripSlashes(s[..|s| - 1]) else s
  }

  /**
   * `os.path.expanduser` with `home` as the value of `HOME`: a leading `~`
   * that forms the whole first segment becomes the home directory without its
   * trailing slashes (or `/` if that leaves nothing). A `~user` prefix is left
   * as it is, as Python does for a user it cannot look up.
   */
  function ExpandUser(home: string, path: string): string
  {
    if |path| == 0 || path[0] != '~' then path
    else if |path| == 1 || path[1] == '/' then
      var expanded := RStripSlashes(home) + path[1..];
      if expanded == "" then "/" else expanded
    else path
  }

  /** `normalize_path`: expand `~`, then `normpath`. */
  function NormalizePath(home: string, path: string): string
  {
    NormPath(ExpandUser(home, path))
  }

  /**
   * The output of `normalize_path` is in normal form: either `.` or the
   * rendering of at most two leading slashes and clean segments (no empty or
   * `.` segment, and `..` only at the front of a relative path).
   */
  lemma NormalizePathShape(home: string, path: string)
    ensures var r := NormalizePath(home, path);
      r == "." || exists p :: ValidParts(p) && (p.slashes > 0 || |p.segments| > 0) && r == Render(p)
  {
    var e := ExpandUser(home, path);
    if e != "" {
      NormPartsValid(e);
      var p := NormParts(e);
      if p.slashes == 0 && |p.segments| == 0 {
        assert Render(p) == ".";
      } else {
        assert ValidParts(p) && NormalizePath(home, path) == Render(p);
      }
    }
  }

  /** `path` names the home directory through `~` (so `expanduser` rewrites it). */
  predicate IsHomeReference(path: string)
  {
    |path| > 0 && path[0] == '~' && (|path| == 1 || path[1] == '/')
  }

  /**
   * `normalize_path` is idempotent on every path whose normal form does not
   * itself start with a `~` segment: normalising again only re-runs `normpath`.
   */
  lemma NormalizeIdempotent(home: string, path: string)
    requires !IsHomeReference(NormalizePath(home, path))
    ensures NormalizePath(home, NormalizePath(home, path)) == NormalizePath(home, path)
  {
    NormPathIdempotent(ExpandUser(home, path));
  }

  /**
   * Without that proviso idempotence fails: `./~` normalises to the literal
   * segment `~`, which a second pass expands to the home directory.
   */
  lemma NormalizeNotIdempotentInGeneral(home: string)
    requires home == "/Users/a"
    ensures NormalizePath(home, "./~") == "~"
    ensures NormalizePath(home, NormalizePath(home, "./~")) == home
  {
    assert ExpandUser(home, "./~") == "./~";
    assert Split("./~") == [".", "~"] by {
      assert Join([".", "~"]) == "./~";
      SplitJoin([".", "~"]);
    }
    assert Collapse([], [".", "~"], false) == ["~"] by {
      assert [".", "~"][1..] == ["~"];
      assert ["~"][1..] == [];
    }
    assert InitialSlashes("./~") == 0;
    assert NormParts("./~") == Parts(0, ["~"]);
    assert Render(Parts(0, ["~"])) == "~";
    assert home == "/Users/" + "a";
    NormalizeHome("a");
  }

  /** The home directory `/Users/<user>` is written without trailing slash. */
  lemma HomeHasNoTrailingSlash(user: string)
    requires IsNormalSegment(user)
    ensures RStripSlashes("/Users/" + user) == "/Users/" + user
  {
    var home := "/Users/" + user;
    assert home[|home| - 1] == user[|user| - 1];
  }

  /** The home directory `/Users/<user>` is the join of its two segments under the root. */
  lemma HomeSegments(user: string)
    ensures "/" + Join(["Users", user]) == "/Users/" + user
  {
    assert ["Users", user][1..] == [user];
  }

  /** `~` alone normalises to the home directory. */
  lemma NormalizeHome(user: string)
    requires IsNormalSegment(user)
    ensures NormalizePath("/Users/" + user, "~") == "/Users/" + user
  {
    HomeHasNoTrailingSlash(user);
    assert "~"[1..] == "";
    assert ExpandUser("/Users/" + user, "~") == "/Users/" + user;
    HomeSegments(user);
    NormPathOfCleanAbsolute(["Users", user]);
  }

  /** `~/tail` expands to the home directory followed by `/tail`. */
  lemma ExpandHomeRelative(user: string, tail: string)
    requires IsNormalSegment(user)
    ensures ExpandUser("/Users/" + user, "~/" + tail) == "/Users/" + user + "/" + tail
  {
    HomeHasNoTrailingSlash(user);
    assert ("~/" + tail)[1..] == "/" + tail;
  }

  /**
   * A pattern written relative to `~` with normal segments normalises to the
   * home directory followed by those segments, for a home of the form
   * `/Users/<user>`.
   */
  lemma NormalizeHomeRelative(user: string, segs: seq<string>)
    requires IsNormalSegment(user)
    requires |segs| >= 1
    requires forall i :: 0 <= i < |segs| ==> IsNormalSegment(segs[i])
    ensures NormalizePath("/Users/" + user, "~/" + Join(segs)) == "/Users/" + user + "/" + Join(segs)
  {
    ExpandHomeRelative(user, Join(segs));
    NormPathUnderHome(user, segs);
  }

  /** The home directory followed by normal segments is its own `normpath`. */
  lemma NormPathUnderHome(user: string, segs: seq<string>)
    requires IsNormalSegment(user)
    requires |segs| >= 1
    requires forall i :: 0 <= i < |segs| ==> IsNormalSegment(segs[i])
    ensures var p := "/Users/" + user + "/" + Join(segs); NormPath(p) == p
  {
    var all := ["Users", user] + segs;
    HomeAllNormal(user, segs);
    NormPathOfCleanAbsolute(all);
    HomeJoin(user, segs);
  }

  /** `/Users/<user>/<segs>` written as a join of segments under the root. */
  lemma HomeJoin(user: string, segs: seq<string>)
    requires |segs| >= 1
    ensures "/" + Join(["Users", user] + segs) == "/Users/" + user + "/" + Join(segs)
  {
    HomeSegments(user);
    JoinAppend(["Users", user], segs);
  }

  /** The segments of `/Users/<user>/<segs>` are all normal. */
  lemma HomeAllNormal(user: string, segs: seq<string>)
    requires IsNormalSegment(user)
    requires forall i :: 0 <= i < |segs| ==> IsNormalSegment(segs[i])
    ensures forall i :: 0 <= i < |["Users", user] + segs| ==> IsNormalSegment((["Users", user] + segs)[i])
  {
    var all := ["Users", user] + segs;
    forall i | 0 <= i < |all| ensures IsNormalSegment(all[i]) {
      if i >= 2 { assert all[i] == segs[i - 2]; }
    }
  }

  /** An absolute pattern with normal segments is its own normal form. */
  lemma NormalizeAbsolute(home: string, segs: seq<string>)
    requires |segs| >= 1
    requires forall i :: 0 <= i < |segs| ==> IsNormalSegment(segs[i])
    ensures NormalizePath(home, "/" + Join(segs)) == "/" + Join(segs)
  {
    NormPathOfCleanAbsolute(segs);
  }

  /** A relative pattern with normal segments that does not start with `~` is its own normal form. */
  lemma NormalizeRelative(home: string, segs: seq<string>)
    requires |segs| >= 1 && |segs[0]| >= 1 && segs[0][0] != '~'
    requires forall i :: 0 <= i < |segs| ==> IsNormalSegment(segs[i])
    ensures NormalizePath(home, Join(segs)) == Join(segs)
  {
    JoinHead(segs);
    NormPathOfCleanRelative(segs);
  }

  // ---------------------------------------------------------------------------
  // basename, dirname, join
  // ---------------------------------------------------------------------------

  /** Index just past the last slash of `p` (`p.rfind('/') + 1`), 0 if there is none. */
  function AfterLastSlash(p: string): (i: nat)
    ensures i <= |p|
    ensures i > 0 ==> p[i - 1] == '/'
    ensures forall k :: i <= k < |p| ==> p[k] != '/'
  {
    if |p| == 0 then 0
    else if p[|p| - 1] == '/' then |p|
    else AfterLastSlash(p[..|p| - 1])
  }

  /** `os.path.basename`: everything after the last slash. */
  function Basename(p: string): (r: string)
    ensures '/' !in r
    ensures |r| <= |p| && r == p[|p| - |r|..]
  {
    p[AfterLastSlash(p)..]
  }

  /**
   * The basename is everything after the last slash: what precedes it is
   * empty or ends in a slash, and no longer suffix of the path is free of
   * slashes.
   */
  lemma BasenameIsLastSegment(p: string)
    ensures var r := Basename(p);
      |r| == |p| || p[|p| - |r| - 1] == '/'
    ensures forall k :: 0 <= k <= |p| && '/' !in p[k..] ==> |p| - k <= |Basename(p)|
  {
  }

  /** `s` consists of slashes only. */
  predicate AllSlashes(s: string)
  {
    forall k :: 0 <= k < |s| ==> s[k] == '/'
  }

  /**
   * `os.path.dirname`: everything up to the last slash, with trailing slashes
   * removed unless nothing but slashes is left.
   */
  function Dirname(p: string): string
  {
    var head := p[..AfterLastSlash(p)];
    if head != "" && !AllSlashes(head) then RStripSlashes(head) else head
  }

  /** `os.path.join(dir, name)` for a relative `name`. */
  function JoinPath(dir: string, name: string): string
  {
    if dir == "" || dir[|dir| - 1] == '/' then dir + name else dir + "/" + name
  }

  /** The directory part of a joined child path is the directory again, for a non-root directory. */
  lemma DirnameOfJoin(dir: string, name: string)
    requires dir != "" && dir[0] == '/' && dir[|dir| - 1] != '/'
    requires name != "" && '/' !in name
    ensures Dirname(JoinPath(dir, name)) == dir
    ensures Basename(JoinPath(dir, name)) == name
  {
    var p := dir + "/" + name;
    assert JoinPath(dir, name) == p;
    AfterLastSlashOfJoin(dir, name);
    assert p[..|dir| + 1] == dir + "/";
    assert RStripSlashes(dir + "/") == dir by {
      assert (dir + "/")[..|dir|] == dir;
    }
    assert !AllSlashes(dir + "/") by {
      assert (dir + "/")[|dir| - 1] == dir[|dir| - 1];
    }
    assert p[|dir| + 1..] == name;
  }

  /** The last slash of `dir/name` is the one that joins them. */
  lemma {:induction false} AfterLastSlashOfJoin(dir: string, name: string)
    requires '/' !in name
    ensures AfterLastSlash(dir + "/" + name) == |dir| + 1
    decreases |name|
  {
    var p := dir + "/" + name;
    if |name| == 0 {
      assert p[|p| - 1] == '/';
    } else {
      assert p[|p| - 1] == name[|name| - 1];
      assert p[..|p| - 1] == dir + "/" + name[..|name| - 1];
      AfterLastSlashOfJoin(dir, name[..|name| - 1]);
    }
  }
}
