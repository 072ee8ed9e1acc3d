/**
 * An abstract file-system subtree standing in for `os.scandir`, `os.walk`,
 * `os.path.islink` and `os.path.getsize`, and the size computation both
 * `quick_clean.directory_size` and the disk analyser's `get_size_threaded`
 * perform on it.
 */
module FileTree {
  import opened Base

  /**
   * One directory entry. `size` is what `os.path.getsize` reports (None when
   * it raises); for a link it is the size of the link's target, since
   * `getsize` follows links. An unreadable directory cannot be listed.
   */
  datatype Node =
    | File(name: string, size: Option<nat>)
    | Link(name: string, size: Option<nat>)
    | Dir(name: string, readable: bool, children: seq<Node>)

  /** `getsize` with `except OSError` turning a failure into 0. */
  function SizeOr0(s: Option<nat>): nat
  {
    if s.Some? then s.value else 0
  }

  // ---------------------------------------------------------------------------
  // Reference definition: the bytes a subtree holds
  // ---------------------------------------------------------------------------

  /**
   * The bytes `n` adds when it is met inside a walked directory: a regular
   * file its size (0 when unreadable), a link nothing (links are skipped
   * and never followed), a directory the bytes of its entries, and nothing
   * at all when it cannot be listed.
   */
  function Bytes(n: Node): nat
    decreases n
  {
    match n
    case File(_, s) => SizeOr0(s)
    case Link(_, _) => 0
    case Dir(_, readable, cs) => if readable then BytesOf(cs) else 0
  }

  /** The bytes of a list of entries. */
  function BytesOf(cs: seq<Node>): nat
    decreases cs
  {
    if |cs| == 0 then 0 else Bytes(cs[0]) + BytesOf(cs[1..])
  }

  /** The bytes of a list of entries add up over concatenation. */
  lemma {:induction false} BytesOfAppend(a: seq<Node>, b: seq<Node>)
    ensures BytesOf(a + b) == BytesOf(a) + BytesOf(b)
  {
    if |a| == 0 {
      assert a + b == b;
    } else {
      assert (a + b)[1..] == a[1..] + b;
      BytesOfAppend(a[1..], b);
    }
  }

  // ---------------------------------------------------------------------------
  // os.walk
  // ---------------------------------------------------------------------------

  /** The `filenames` of one `os.walk` step: the entries that are not directories, in listing order. */
  function Filenames(cs: seq<Node>): (fs: seq<Node>)
    ensures forall i :: 0 <= i < |fs| ==> !fs[i].Dir? && fs[i] in cs
  {
    if |cs| == 0 then []
    else if cs[0].Dir? then Filenames(cs[1..])
    else [cs[0]] + Filenames(cs[1..])
  }

  /**
   * `os.walk(top)` top-down, as the list of the `filenames` lists it yields:
   * one step per directory it can list, followed by the steps of its
   * sub-directories in listing order. A directory it cannot list, and a
   * top that is not a directory, yield nothing (the error is swallowed).
   */
  function Walk(n: Node): seq<seq<Node>>
    decreases n
  {
    match n
    case Dir(_, true, cs) => [Filenames(cs)] + WalkAll(cs)
    case _ => []
  }

  /** The walk steps of the sub-directories among `cs`, in order. */
  function WalkAll(cs: seq<Node>): seq<seq<Node>>
    decreases cs
  {
    if |cs| == 0 then [] else Walk(cs[0]) + WalkAll(cs[1..])
  }

  /** The bytes the loop body adds for one step: regular files only, links skipped. */
  function StepBytes(fs: seq<Node>): nat
  {
    if |fs| == 0 then 0
    else (if fs[0].File? then SizeOr0(fs[0].size) else 0) + StepBytes(fs[1..])
  }

  /** The bytes the loop adds over several steps. */
  function WalkBytes(steps: seq<seq<Node>>): nat
  {
    if |steps| == 0 then 0 else StepBytes(steps[0]) + WalkBytes(steps[1..])
  }

  /** The bytes of walk steps add up over concatenation. */
  lemma {:induction false} WalkBytesAppend(a: seq<seq<Node>>, b: seq<seq<Node>>)
    ensures WalkBytes(a + b) == WalkBytes(a) + WalkBytes(b)
  {
    if |a| == 0 {
      assert a + b == b;
    } else {
      assert (a + b)[1..] == a[1..] + b;
      WalkBytesAppend(a[1..], b);
    }
  }

  /** The bytes of one step's file list add up over concatenation. */
  lemma {:induction false} StepBytesAppend(a: seq<Node>, b: seq<Node>)
    ensures StepBytes(a + b) == StepBytes(a) + StepBytes(b)
  {
    if |a| == 0 {
      assert a + b == b;
    } else {
      assert (a + b)[1..] == a[1..] + b;
      StepBytesAppend(a[1..], b);
    }
  }

  /** Summing a walk gives the reference bytes of the walked directory. */
  lemma {:induction false} WalkCountsBytes(n: Node)
    ensures WalkBytes(Walk(n)) == (if n.Dir? then Bytes(n) else 0)
    decreases n
  {
    match n
    case Dir(_, readable, cs) =>
      if readable {
        WalkAllCountsBytes(cs);
        WalkBytesAppend([Filenames(cs)], WalkAll(cs));
        assert [Filenames(cs)][1..] == [];
      }
    case _ =>
  }

  /** The steps of the sub-directories plus the files of this level give the bytes of all entries. */
  lemma {:induction false} WalkAllCountsBytes(cs: seq<Node>)
    ensures StepBytes(Filenames(cs)) + WalkBytes(WalkAll(cs)) == BytesOf(cs)
    decreases cs
  {
    if |cs| > 0 {
      WalkAllCountsBytes(cs[1..]);
      WalkCountsBytes(cs[0]);
      WalkBytesAppend(Walk(cs[0]), WalkAll(cs[1..]));
      if !cs[0].Dir? {
        assert Filenames(cs) == [cs[0]] + Filenames(cs[1..]);
        StepBytesAppend([cs[0]], Filenames(cs[1..]));
        assert [cs[0]][1..] == [];
      }
    }
  }

  /**
   * `directory_size(path)`: walk the tree and add `getsize` of every file that
   * is not a link, a failing `getsize` counting 0. The result is the bytes
   * the directory holds; a top that is not a directory gives 0.
   */
  method DirectorySize(top: Node) returns (total: nat)
    ensures total == (if top.Dir? then Bytes(top) else 0)
  {
    var steps := Walk(top);
    total := 0;
    var i := 0;
    while i < |steps|
      invariant 0 <= i <= |steps|
      invariant total == WalkBytes(steps[..i])
    {
      var files := steps[i];
      var j := 0;
      ghost var before := total;
      while j < |files|
        invariant 0 <= j <= |files|
        invariant total == before + StepBytes(files[..j])
      {
        if files[j].File? {
          total := total + SizeOr0(files[j].size);
        }
        StepBytesAppend(files[..j], [files[j]]);
        assert files[..j + 1] == files[..j] + [files[j]];
        j := j + 1;
      }
      assert files[..j] == files;
      WalkBytesAppend(steps[..i], [files]);
      assert steps[..i + 1] == steps[..i] + [files];
      i := i + 1;
    }
    assert steps[..i] == steps;
    WalkCountsBytes(top);
  }

  /**
   * The size the scanners give one listed entry: a directory (not a link to
   * one) is walked, anything else is asked of `getsize`, which follows a
   * link to its target; a failure counts 0.
   */
  function EntrySize(n: Node): nat
  {
    if n.Dir? then Bytes(n) else SizeOr0(n.size)
  }

  /** Links inside a walked directory add nothing, whatever they point to. */
  lemma LinksAddNothing(name: string, readable: bool, cs: seq<Node>, i: nat, target: Option<nat>)
    requires i < |cs| && cs[i].Link?
    ensures Bytes(Dir(name, readable, cs[i := Link(cs[i].name, target)])) == Bytes(Dir(name, readable, cs))
  {
    var ds := cs[i := Link(cs[i].name, target)];
    assert cs == cs[..i] + [cs[i]] + cs[i + 1..];
    assert ds == cs[..i] + [ds[i]] + cs[i + 1..];
    BytesOfAppend(cs[..i] + [cs[i]], cs[i + 1..]);
    BytesOfAppend(cs[..i], [cs[i]]);
    BytesOfAppend(cs[..i] + [ds[i]], cs[i + 1..]);
    BytesOfAppend(cs[..i], [ds[i]]);
    assert BytesOf([cs[i]]) == 0 && BytesOf([ds[i]]) == 0;
  }
}
