/**
 * The output tree the report generator writes into: a set of directories and
 * a map from file path to bytes, with the three file-system operations the
 * generator uses (create a directory chain, copy a stream to a new file, open
 * a file for writing without truncation).
 */
module FileTree {

  newtype byte = x: int | 0 <= x < 256

  /** A path is the list of its names, from the file-system root `[]` down. */
  type Path = seq<string>

  function Parent(p: Path): Path
    requires p != []
  {
    p[..|p| - 1]
  }

  /** The root, every ancestor of `p`, and `p` itself. */
  function Ancestry(p: Path): (r: set<Path>)
    ensures forall q :: q in r <==> q <= p
  {
    assert forall q :: q <= p ==> q == p[..|q|];
    set i | 0 <= i <= |p| :: p[..i]
  }

  /** Two prefixes of one sequence are prefixes of each other, one way or the other. */
  lemma PrefixesComparable<T>(a: seq<T>, b: seq<T>, c: seq<T>)
    requires a <= c && b <= c
    ensures a <= b || b <= a
  {
    if |a| <= |b| {
      assert a == c[..|a|] == b[..|a|];
    } else {
      assert b == c[..|b|] == a[..|b|];
    }
  }

  datatype Tree = Tree(dirs: set<Path>, files: map<Path, seq<byte>>) {

    /** The shape every real file system has: the root is a directory, the
        parent of every entry is a directory, and no path is both. */
    ghost predicate Valid() {
      && [] in dirs
      && (forall d | d in dirs && d != [] :: Parent(d) in dirs)
      && (forall f | f in files :: f != [] && Parent(f) in dirs)
      && (forall f | f in files :: f !in dirs)
    }
  }

  /** `u` keeps every directory of `t`, and every file of `t` with its bytes. */
  ghost predicate Grows(t: Tree, u: Tree) {
    && t.dirs <= u.dirs
    && (forall f | f in t.files :: f in u.files && u.files[f] == t.files[f])
  }

  /** Everything `u` adds to `t` or changes in it is an ancestor of `p`, `p`
      itself, or below `p`. */
  ghost predicate ConfinedTo(t: Tree, u: Tree, p: Path) {
    && (forall q | q in u.dirs && q !in t.dirs :: q <= p || p <= q)
    && (forall q | q in u.files && (q !in t.files || u.files[q] != t.files[q]) :: q <= p || p <= q)
  }

  /** Every file `u` adds to `t` or changes in it lies at or below `p`. */
  ghost predicate FilesWithin(t: Tree, u: Tree, p: Path) {
    forall q | q in u.files && (q !in t.files || u.files[q] != t.files[q]) :: p <= q
  }

  /**
   * `t` and `u` look alike from `d`: the same directories at and below `d`,
   * and the same files, with the same bytes, on the path to `d` and below it.
   */
  ghost predicate AgreeNear(t: Tree, u: Tree, d: Path) {
    && (forall q | d <= q :: q in t.dirs <==> q in u.dirs)
    && (forall q | q <= d || d <= q :: q in t.files <==> q in u.files)
    && (forall q | (q <= d || d <= q) && q in t.files && q in u.files :: t.files[q] == u.files[q])
  }

  lemma AgreeNearChain(t: Tree, u: Tree, v: Tree, d: Path)
    requires AgreeNear(t, u, d) && AgreeNear(u, v, d)
    ensures AgreeNear(t, v, d) && AgreeNear(v, t, d)
  {
  }

  lemma GrowsTransitive(t: Tree, u: Tree, v: Tree)
    requires Grows(t, u) && Grows(u, v)
    ensures Grows(t, v)
  {
  }

  /** The state after an operation, and whether it completed without an I/O error. */
  datatype Step = Step(tree: Tree, ok: bool)

  /**
   * `Files.createDirectories(p)`: every missing directory on the way to `p`
   * is created; it fails, creating nothing, when some path on the way is a file.
   */
  function CreateDirs(t: Tree, p: Path): (s: Step)
    ensures s.ok <==> forall q :: q <= p ==> q !in t.files
    ensures s.ok ==> s.tree.files == t.files && p in s.tree.dirs
    ensures s.ok ==> forall q :: q in s.tree.dirs <==> q in t.dirs || q <= p
    ensures !s.ok ==> s.tree == t
    ensures Grows(t, s.tree) && ConfinedTo(t, s.tree, p)
    ensures t.Valid() ==> s.tree.Valid()
  {
    assert forall q :: q <= p ==> q == p[..|q|];
    if exists i | 0 <= i <= |p| :: p[..i] in t.files then
      Step(t, false)
    else
      Step(Tree(t.dirs + Ancestry(p), t.files), true)
  }

  /**
   * `Files.copy(stream, dest)` without `REPLACE_EXISTING`: it fails when
   * anything already exists at `dest` or when its parent is not a directory.
   */
  function CopyNew(t: Tree, dest: Path, content: seq<byte>): (s: Step)
    ensures s.ok <==> dest != [] && dest !in t.dirs && dest !in t.files && Parent(dest) in t.dirs
    ensures s.ok ==> dest in s.tree.files && s.tree.files[dest] == content
    ensures s.ok ==> s.tree.dirs == t.dirs && s.tree.files.Keys == t.files.Keys + {dest}
    ensures !s.ok ==> s.tree == t
    ensures Grows(t, s.tree) && ConfinedTo(t, s.tree, dest)
    ensures t.Valid() ==> s.tree.Valid()
  {
    if dest != [] && dest !in t.dirs && dest !in t.files && Parent(dest) in t.dirs then
      Step(Tree(t.dirs, t.files[dest := content]), true)
    else
      Step(t, false)
  }

  /**
   * What a file holds after `data` is written from its start without the file
   * being truncated first: `data`, followed by whatever of the old bytes lay
   * beyond it.
   */
  function Overlay(before: seq<byte>, data: seq<byte>): (r: seq<byte>)
    ensures |r| == if |before| <= |data| then |data| else |before|
    ensures data <= r
    ensures forall i :: |data| <= i < |before| ==> r[i] == before[i]
  {
    if |before| <= |data| then data else data + before[|data|..]
  }

  /** The bytes of the file at `p`, or none when there is no file there. */
  function Existing(t: Tree, p: Path): seq<byte> {
    if p in t.files then t.files[p] else []
  }

  /**
   * Opening `p` with only the `CREATE` option (so with `WRITE` and without
   * `TRUNCATE_EXISTING`) and writing `data`: the open fails when `p` is a
   * directory or its parent is not one; otherwise a missing file is created
   * and `data` overwrites the file's first bytes.
   */
  function WriteCreate(t: Tree, p: Path, data: seq<byte>): (s: Step)
    ensures s.ok <==> p != [] && p !in t.dirs && Parent(p) in t.dirs
    ensures s.ok ==> p in s.tree.files
    ensures s.ok ==> s.tree.files[p] == Overlay(Existing(t, p), data)
    ensures s.tree.dirs == t.dirs
    ensures forall q | q != p :: (q in s.tree.files <==> q in t.files)
    ensures forall q | q != p && q in t.files :: s.tree.files[q] == t.files[q]
    ensures t.Valid() ==> s.tree.Valid()
  {
    if p != [] && p !in t.dirs && Parent(p) in t.dirs then
      Step(Tree(t.dirs, t.files[p := Overlay(Existing(t, p), data)]), true)
    else
      Step(t, false)
  }

  /** The file system the generator writes into, changed in place. */
  class FileSystem {
    var dirs: set<Path>
    var files: map<Path, seq<byte>>

    function Snapshot(): Tree
      reads this
    {
      Tree(dirs, files)
    }

    /** A file system holding only its root directory. */
    constructor ()
      ensures Snapshot() == Tree({[]}, map[]) && Snapshot().Valid()
    {
      dirs := {[]};
      files := map[];
    }

    method CreateDirectories(p: Path) returns (ok: bool)
      modifies this
      ensures Step(Snapshot(), ok) == CreateDirs(old(Snapshot()), p)
    {
      var blocked := exists i | 0 <= i <= |p| :: p[..i] in files;
      if blocked {
        ok := false;
      } else {
        dirs := dirs + Ancestry(p);
        ok := true;
      }
    }

    method Copy(dest: Path, content: seq<byte>) returns (ok: bool)
      modifies this
      ensures Step(Snapshot(), ok) == CopyNew(old(Snapshot()), dest, content)
    {
      ok := dest != [] && dest !in dirs && dest !in files && Parent(dest) in dirs;
      if ok {
        files := files[dest := content];
      }
    }

    method OpenAndWrite(p: Path, data: seq<byte>) returns (ok: bool)
      modifies this
      ensures Step(Snapshot(), ok) == WriteCreate(old(Snapshot()), p, data)
    {
      ok := p != [] && p !in dirs && Parent(p) in dirs;
      if ok {
        var before := if p in files then files[p] else [];
        files := files[p := Overlay(before, data)];
      }
    }
  }
}
