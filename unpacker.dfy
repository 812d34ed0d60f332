/**
 * Unpacking a plugin's packaged static files: which packaged resources belong
 * to a plugin, where each is copied, and what the copy loop leaves behind when
 * an I/O error ends it early.
 */
module Unpacker {

  import opened Wrappers
  import opened FileTree

  /** A packaged resource; `content` is `None` when its stream cannot be opened. */
  datatype Resource = Resource(name: string, content: Option<seq<byte>>)

  /** The outcome of scanning the class path for resources. */
  datatype Scan = Scanned(resources: seq<Resource>) | ScanFailed

  /** The characters a regular-expression `.` does not match by default. */
  predicate IsLineTerminator(c: char) {
    c == '\n' || c == '\r' || c == '\U{0085}' || c == '\U{2028}' || c == '\U{2029}'
  }

  predicate NoLineTerminator(s: string) {
    forall i :: 0 <= i < |s| ==> !IsLineTerminator(s[i])
  }

  /** What a greedy `.+` or `.*` consumes from the start of `s`: everything up to the first line terminator. */
  function LinePrefix(s: string): (r: string)
    ensures r <= s && NoLineTerminator(r)
    ensures |r| < |s| ==> IsLineTerminator(s[|r|])
  {
    if s == [] || IsLineTerminator(s[0]) then [] else [s[0]] + LinePrefix(s[1..])
  }

  /** The literal text the pattern `^allure<name>/(.+)` begins with. */
  function Namespace(pluginName: string): string {
    "allure" + pluginName + "/"
  }

  /**
   * The group captured when `^allure<name>/(.+)` is found in a resource name,
   * with the plugin name taken literally: the pattern is found exactly when the
   * name starts with the namespace and a character other than a line
   * terminator follows it, and the capture is the longest run of such
   * characters there.
   */
  function MatchResource(pluginName: string, resourceName: string): (r: Option<string>)
    ensures var ns := Namespace(pluginName);
      r.Some? <==> ns < resourceName && !IsLineTerminator(resourceName[|ns|])
    ensures r.Some? ==> r.value != [] && NoLineTerminator(r.value)
    ensures r.Some? ==> Namespace(pluginName) + r.value <= resourceName
    ensures r.Some? ==> var rest := resourceName[|Namespace(pluginName) + r.value|..];
      rest == [] || IsLineTerminator(rest[0])
  {
    var ns := Namespace(pluginName);
    if ns <= resourceName then
      var captured := LinePrefix(resourceName[|ns|..]);
      if captured != [] then
        assert resourceName == ns + resourceName[|ns|..];
        assert resourceName[|ns|..] == captured + resourceName[|ns| + |captured|..];
        Some(captured)
      else
        None
    else
      None
  }

  /**
   * For resource names without line terminators, the pattern is plain prefix
   * matching: the name is the namespace followed by a non-empty remainder,
   * which is what is captured.
   */
  lemma MatchIsPrefixSplit(pluginName: string, resourceName: string, remainder: string)
    requires NoLineTerminator(resourceName)
    ensures MatchResource(pluginName, resourceName) == Some(remainder) <==>
      resourceName == Namespace(pluginName) + remainder && remainder != []
  {
    var ns := Namespace(pluginName);
    var r := MatchResource(pluginName, resourceName);
    if r.Some? {
      var rest := resourceName[|ns + r.value|..];
      assert rest == [];
      assert resourceName == ns + r.value;
    }
    if resourceName == ns + remainder && remainder != [] {
      assert resourceName[|ns|..] == remainder;
      assert !IsLineTerminator(resourceName[|ns|]);
      assert resourceName[|ns|..] == r.value + resourceName[|ns + r.value|..];
    }
  }

  /**
   * Two different plugin names without `/` never claim the same resource: one
   * namespace cannot be a prefix of the other.
   */
  lemma NamespacesDisjoint(n: string, m: string, resourceName: string)
    requires '/' !in n && '/' !in m && n != m
    ensures !(MatchResource(n, resourceName).Some? && MatchResource(m, resourceName).Some?)
  {
    var a, b := Namespace(n), Namespace(m);
    if a <= resourceName && b <= resourceName {
      PrefixesComparable(a, b, resourceName);
      if a <= b {
        PlainPrefixSlash(n, m);
      } else {
        PlainPrefixSlash(m, n);
      }
    }
  }

  /** The namespace of a `/`-free name is a prefix of another's only when the names agree. */
  lemma PlainPrefixSlash(n: string, m: string)
    requires '/' !in m && Namespace(n) <= Namespace(m)
    ensures n == m
  {
    NamespaceChars(n);
    NamespaceChars(m);
    var a, b := Namespace(n), Namespace(m);
    assert n == a[6..6 + |n|];
    assert m == b[6..6 + |m|];
  }

  lemma NamespaceChars(n: string)
    ensures |Namespace(n)| == |n| + 7 && Namespace(n)[6 + |n|] == '/'
    ensures forall i :: 0 <= i < |n| ==> Namespace(n)[6 + i] == n[i]
  {
  }

  /** The longest prefix of `s` without a `/`. */
  function Word(s: string): (w: string)
    ensures w <= s && '/' !in w
    ensures |w| < |s| ==> s[|w|] == '/'
  {
    if s == [] || s[0] == '/' then [] else [s[0]] + Word(s[1..])
  }

  /**
   * The names a relative path string resolves to: its `/`-separated parts,
   * with the empty parts that repeated or trailing separators leave dropped.
   */
  function Segments(s: string): (r: seq<string>)
    ensures forall i :: 0 <= i < |r| ==> r[i] != [] && '/' !in r[i]
    decreases |s|
  {
    var w := Word(s);
    var head := if w == [] then [] else [w];
    if |w| == |s| then head else head + Segments(s[|w| + 1..])
  }

  /** The path string of a list of names, joined by `/`. */
  function Join(names: seq<string>): string {
    if names == [] then []
    else if |names| == 1 then names[0]
    else names[0] + "/" + Join(names[1..])
  }

  /** Splitting a joined list of non-empty names gives the names back. */
  lemma {:induction false} SegmentsOfJoin(names: seq<string>)
    requires forall i :: 0 <= i < |names| ==> names[i] != [] && '/' !in names[i]
    ensures Segments(Join(names)) == names
  {
    if |names| == 1 {
      WordOfName(names[0], []);
      assert names[0] + [] == names[0];
    } else if |names| > 1 {
      var s := Join(names);
      var tail := Join(names[1..]);
      assert s == names[0] + ("/" + tail);
      WordOfName(names[0], "/" + tail);
      assert s[|names[0]| + 1..] == tail;
      SegmentsOfJoin(names[1..]);
    }
  }

  lemma {:induction false} WordOfName(name: string, rest: string)
    requires '/' !in name
    requires rest == [] || rest[0] == '/'
    ensures Word(name + rest) == name
    decreases |name|
  {
    if name == [] {
    } else {
      assert (name + rest)[0] == name[0];
      assert (name + rest)[1..] == name[1..] + rest;
      WordOfName(name[1..], rest);
    }
  }

  /**
   * One pass of the copy loop for a matched resource: open its stream, create
   * the destination's parent directories, copy the bytes to a new file.
   */
  function CopyResource(t: Tree, dest: Path, content: Option<seq<byte>>): (s: Step)
    requires dest != []
    ensures s.ok <==>
      && content.Some?
      && (forall q | q in t.files :: !(q <= Parent(dest)))
      && dest !in t.dirs && dest !in t.files
    ensures s.ok ==> content.Some? && dest in s.tree.files && s.tree.files[dest] == content.value
    ensures s.ok ==> Parent(dest) in s.tree.dirs
    ensures content.Some? && (dest in t.files || dest in t.dirs) ==> !s.ok
    ensures content.None? ==> s == Step(t, false)
    ensures Grows(t, s.tree) && ConfinedTo(t, s.tree, dest) && FilesWithin(t, s.tree, dest)
    ensures t.Valid() ==> s.tree.Valid()
  {
    if content.None? then
      Step(t, false)
    else
      var made := CreateDirs(t, Parent(dest));
      if !made.ok then
        made
      else
        var copied := CopyNew(made.tree, dest, content.value);
        forall q | q in made.tree.dirs && q !in t.dirs ensures q <= dest {
          assert q <= Parent(dest);
        }
        assert dest !in made.tree.dirs <==> dest !in t.dirs by {
          assert !(dest <= Parent(dest));
        }
        copied
  }

  /** Where a matched remainder is copied to, inside the plugin's directory. */
  function Destination(dir: Path, remainder: string): (r: Path)
    ensures dir <= r && r[|dir|..] == Segments(remainder)
    ensures forall k | |dir| <= k < |r| :: r[k] != [] && '/' !in r[k]
  {
    dir + Segments(remainder)
  }

  lemma ConfinedWiden(t: Tree, u: Tree, dest: Path, dir: Path)
    requires dir <= dest && ConfinedTo(t, u, dest)
    ensures ConfinedTo(t, u, dir)
  {
    forall q | q in u.dirs && q !in t.dirs ensures q <= dir || dir <= q {
      if q <= dest { PrefixesComparable(q, dir, dest); }
    }
    forall q | q in u.files && (q !in t.files || u.files[q] != t.files[q]) ensures q <= dir || dir <= q {
      if q <= dest { PrefixesComparable(q, dir, dest); }
    }
  }

  lemma ConfinedChain(t: Tree, u: Tree, v: Tree, dir: Path)
    requires Grows(t, u) && ConfinedTo(t, u, dir) && ConfinedTo(u, v, dir)
    ensures ConfinedTo(t, v, dir)
  {
  }

  /**
   * The copy loop of `unpackReportPlugin` over the first resources of `res`,
   * in order: the resources that match are copied, and the first I/O error
   * ends the loop (`ok` false) with what was done so far left in place.
   */
  function UnpackFrom(t: Tree, dir: Path, name: string, res: seq<Resource>): (s: Step)
    requires dir != []
    ensures Grows(t, s.tree) && ConfinedTo(t, s.tree, dir) && FilesWithin(t, s.tree, dir)
    ensures t.Valid() ==> s.tree.Valid()
    decreases |res|
  {
    if res == [] then
      Step(t, true)
    else
      var prev := UnpackFrom(t, dir, name, res[..|res| - 1]);
      var last := res[|res| - 1];
      if !prev.ok then
        prev
      else
        match MatchResource(name, last.name)
        case None => prev
        case Some(remainder) =>
          var dest := Destination(dir, remainder);
          var s := CopyResource(prev.tree, dest, last.content);
          ConfinedWiden(prev.tree, s.tree, dest, dir);
          ConfinedChain(t, prev.tree, s.tree, dir);
          s
  }

  /** One more turn of the copy loop, after turns that all succeeded. */
  lemma UnpackFromNext(t: Tree, dir: Path, name: string, res: seq<Resource>, i: nat)
    requires dir != [] && i < |res| && UnpackFrom(t, dir, name, res[..i]).ok
    ensures var prev := UnpackFrom(t, dir, name, res[..i]);
      UnpackFrom(t, dir, name, res[..i + 1]) ==
        match MatchResource(name, res[i].name)
        case None => prev
        case Some(remainder) => CopyResource(prev.tree, Destination(dir, remainder), res[i].content)
  {
    assert res[..i + 1][..i] == res[..i];
  }

  /** `unpackReportPlugin`: a failed class-path scan ends it before anything is copied. */
  function UnpackPlugin(t: Tree, dir: Path, name: string, scan: Scan): (s: Step)
    requires dir != []
    ensures scan.ScanFailed? ==> s == Step(t, false)
    ensures Grows(t, s.tree) && ConfinedTo(t, s.tree, dir) && FilesWithin(t, s.tree, dir)
    ensures t.Valid() ==> s.tree.Valid()
  {
    match scan
    case ScanFailed => Step(t, false)
    case Scanned(res) => UnpackFrom(t, dir, name, res)
  }

  /**
   * When the loop gets through all of `res`, every resource of the plugin was
   * readable and sits at its destination with identical bytes, below a
   * directory that exists.
   */
  lemma {:induction false} UnpackDelivers(t: Tree, dir: Path, name: string, res: seq<Resource>, k: nat)
    requires dir != [] && k < |res|
    requires UnpackFrom(t, dir, name, res).ok
    requires MatchResource(name, res[k].name).Some?
    ensures var dest := Destination(dir, MatchResource(name, res[k].name).value);
      var u := UnpackFrom(t, dir, name, res).tree;
      && res[k].content.Some?
      && dest in u.files && u.files[dest] == res[k].content.value
      && Parent(dest) in u.dirs
    decreases |res|
  {
    var prev := UnpackFrom(t, dir, name, res[..|res| - 1]);
    if k < |res| - 1 {
      assert res[..|res| - 1][k] == res[k];
      UnpackDelivers(t, dir, name, res[..|res| - 1], k);
    }
  }

  /** Once the loop has stopped on an error, later resources are never looked at. */
  lemma {:induction false} UnpackStopsAtFailure(t: Tree, dir: Path, name: string, res: seq<Resource>, more: seq<Resource>)
    requires dir != []
    requires !UnpackFrom(t, dir, name, res).ok
    ensures UnpackFrom(t, dir, name, res + more) == UnpackFrom(t, dir, name, res)
    decreases |more|
  {
    if more != [] {
      var shorter := more[..|more| - 1];
      assert (res + more)[..|res + more| - 1] == res + shorter;
      UnpackStopsAtFailure(t, dir, name, res, shorter);
    } else {
      assert res + more == res;
    }
  }

  /**
   * The loop over `res` stopped on the resource at `k`: everything before it
   * went through, it matched, and its failed copy is the last step taken.
   */
  ghost predicate StoppedAt(t: Tree, dir: Path, name: string, res: seq<Resource>, k: nat)
    requires dir != []
  {
    && k < |res|
    && UnpackFrom(t, dir, name, res[..k]).ok
    && MatchResource(name, res[k].name).Some?
    && UnpackFrom(t, dir, name, res) ==
         CopyResource(UnpackFrom(t, dir, name, res[..k]).tree,
                      Destination(dir, MatchResource(name, res[k].name).value), res[k].content)
  }

  /** A loop that fails stopped at one matched resource, and the resources after it were never looked at. */
  lemma {:induction false} UnpackFailsAt(t: Tree, dir: Path, name: string, res: seq<Resource>)
    requires dir != []
    requires !UnpackFrom(t, dir, name, res).ok
    ensures exists k :: StoppedAt(t, dir, name, res, k)
    decreases |res|
  {
    var k := |res| - 1;
    var prev := UnpackFrom(t, dir, name, res[..k]);
    if prev.ok {
      assert StoppedAt(t, dir, name, res, k);
    } else {
      UnpackFailsAt(t, dir, name, res[..k]);
      var j: nat :| StoppedAt(t, dir, name, res[..k], j);
      assert res[..k][..j] == res[..j];
      assert StoppedAt(t, dir, name, res, j);
    }
  }

  /** A plugin none of whose resources match changes nothing: no directory is made for it. */
  lemma {:induction false} UnpackNoMatch(t: Tree, dir: Path, name: string, res: seq<Resource>)
    requires dir != []
    requires forall k :: 0 <= k < |res| ==> MatchResource(name, res[k].name).None?
    ensures UnpackFrom(t, dir, name, res) == Step(t, true)
    decreases |res|
  {
    if res != [] {
      var shorter := res[..|res| - 1];
      assert forall k :: 0 <= k < |shorter| ==> shorter[k] == res[k];
      UnpackNoMatch(t, dir, name, shorter);
    }
  }

  /** The result of unpacking the active plugins in one order: the tree and the names whose unpack failed. */
  datatype Unpacked = Unpacked(tree: Tree, failed: set<string>)

  /** Unpacking every name of `order` into `pluginsDir/<name>`, one after another. */
  function UnpackAll(t: Tree, pluginsDir: Path, order: seq<string>, scan: Scan): (r: Unpacked)
    ensures Grows(t, r.tree)
    ensures t.Valid() ==> r.tree.Valid()
    ensures forall n :: n in r.failed ==> n in order
  {
    if order == [] then
      Unpacked(t, {})
    else
      var prev := UnpackAll(t, pluginsDir, order[..|order| - 1], scan);
      var name := order[|order| - 1];
      var s := UnpackPlugin(prev.tree, pluginsDir + [name], name, scan);
      GrowsTransitive(t, prev.tree, s.tree);
      Unpacked(s.tree, if s.ok then prev.failed else prev.failed + {name})
  }

  /**
   * Nothing at or below `pluginsDir/<m>` is created, removed or changed when
   * `m` is not among the names unpacked.
   */
  lemma {:induction false} UnpackAllLeavesOthers(t: Tree, pluginsDir: Path, order: seq<string>, scan: Scan, m: string, q: Path)
    requires m !in order && pluginsDir + [m] <= q
    ensures var u := UnpackAll(t, pluginsDir, order, scan).tree;
      && (q in u.dirs <==> q in t.dirs)
      && (q in u.files <==> q in t.files)
      && (q in t.files ==> u.files[q] == t.files[q])
    decreases |order|
  {
    if order != [] {
      var prev := UnpackAll(t, pluginsDir, order[..|order| - 1], scan);
      var name := order[|order| - 1];
      UnpackAllLeavesOthers(t, pluginsDir, order[..|order| - 1], scan, m, q);
      var dir := pluginsDir + [name];
      assert q[|pluginsDir|] == m != name;
      assert !(q <= dir) && !(dir <= q);
    }
  }

  /** `q` lies below `pluginsDir/<n>` for one of the names `n` of `order`. */
  ghost predicate InPluginDir(pluginsDir: Path, order: seq<string>, q: Path) {
    pluginsDir < q && q[|pluginsDir|] in order
  }

  /**
   * Every file `u` adds to `t` or changes in it lies below `pluginsDir/<n>`
   * for a name `n` of `order`, and so does every directory it adds, unless
   * that directory is on the way to `pluginsDir`.
   */
  ghost predicate LaidOut(t: Tree, u: Tree, pluginsDir: Path, order: seq<string>) {
    && (forall q | q in u.files && (q !in t.files || u.files[q] != t.files[q]) :: InPluginDir(pluginsDir, order, q))
    && (forall q | q in u.dirs && q !in t.dirs :: q <= pluginsDir || InPluginDir(pluginsDir, order, q))
  }

  /**
   * Where a run puts what it writes: every file it adds or changes lies below
   * `pluginsDir/<n>` for a visited name `n`, and every directory it adds does
   * too, or is on the way to `pluginsDir`.
   */
  lemma {:induction false} UnpackAllLayout(t: Tree, pluginsDir: Path, order: seq<string>, scan: Scan)
    ensures LaidOut(t, UnpackAll(t, pluginsDir, order, scan).tree, pluginsDir, order)
    decreases |order|
  {
    if order != [] {
      var shorter := order[..|order| - 1];
      var last := order[|order| - 1];
      var prev := UnpackAll(t, pluginsDir, shorter, scan);
      var s := UnpackPlugin(prev.tree, pluginsDir + [last], last, scan);
      UnpackAllLayout(t, pluginsDir, shorter, scan);
      UnpackAllStep(t, pluginsDir, order, scan);
      forall q | InPluginDir(pluginsDir, shorter, q) ensures InPluginDir(pluginsDir, order, q) {
      }
      forall q | pluginsDir + [last] <= q ensures InPluginDir(pluginsDir, order, q) {
        assert q[|pluginsDir|] == last;
      }
    }
  }

  /**
   * A name whose unpack did not fail has every one of its resources at
   * `pluginsDir/<name>/<remainder>` with identical bytes, whatever happened to
   * the other plugins.
   */
  lemma {:induction false} UnpackAllDelivers(t: Tree, pluginsDir: Path, order: seq<string>, scan: Scan, name: string, k: nat)
    requires name in order
    ensures name !in UnpackAll(t, pluginsDir, order, scan).failed ==> scan.Scanned?
    ensures (&& name !in UnpackAll(t, pluginsDir, order, scan).failed
             && k < |scan.resources|
             && MatchResource(name, scan.resources[k].name).Some?) ==>
      var dest := Destination(pluginsDir + [name], MatchResource(name, scan.resources[k].name).value);
      var u := UnpackAll(t, pluginsDir, order, scan).tree;
      && scan.resources[k].content.Some?
      && dest in u.files && u.files[dest] == scan.resources[k].content.value
      && Parent(dest) in u.dirs
    decreases |order|
  {
    if name in UnpackAll(t, pluginsDir, order, scan).failed {
      return;
    }
    var prev := UnpackAll(t, pluginsDir, order[..|order| - 1], scan);
    var last := order[|order| - 1];
    var s := UnpackPlugin(prev.tree, pluginsDir + [last], last, scan);
    if last == name {
      assert s.ok;
      if k < |scan.resources| && MatchResource(name, scan.resources[k].name).Some? {
        UnpackDelivers(prev.tree, pluginsDir + [name], name, scan.resources, k);
      }
    } else {
      assert name in order[..|order| - 1];
      UnpackAllDelivers(t, pluginsDir, order[..|order| - 1], scan, name, k);
    }
  }

  /*
   * Isolation between plugins. Each plugin writes only into its own
   * directory `pluginsDir/<name>` and creates at most the directories on the
   * way to it, so what one plugin's unpack does and reports depends on nothing
   * another plugin does, nor on the order in which the names are visited.
   */

  /** A sibling directory's region and `pluginsDir/<n>`'s region meet only on the way to `pluginsDir`. */
  lemma SiblingsApart(pluginsDir: Path, m: string, n: string, q: Path)
    requires m != n
    ensures pluginsDir + [n] <= q ==> !(q <= pluginsDir + [m]) && !(pluginsDir + [m] <= q)
    ensures pluginsDir + [m] <= q ==> !(q <= pluginsDir + [n])
  {
    if pluginsDir + [n] <= q {
      assert q[|pluginsDir|] == n;
    }
    if pluginsDir + [m] <= q {
      assert q[|pluginsDir|] == m;
    }
  }

  /** One matched resource behaves alike in two trees that agree near a directory above its destination. */
  lemma CopyResourceRespects(t: Tree, u: Tree, d: Path, dest: Path, content: Option<seq<byte>>)
    requires dest != [] && d <= dest && AgreeNear(t, u, d)
    ensures CopyResource(t, dest, content).ok == CopyResource(u, dest, content).ok
    ensures AgreeNear(CopyResource(t, dest, content).tree, CopyResource(u, dest, content).tree, d)
  {
    if content.Some? {
      var p := Parent(dest);
      forall q | q <= p ensures q in t.files <==> q in u.files {
        PrefixesComparable(q, d, dest);
      }
      var mt, mu := CreateDirs(t, p), CreateDirs(u, p);
      assert mt.ok == mu.ok;
      if mt.ok {
        forall q | d <= q ensures q in mt.tree.dirs <==> q in mu.tree.dirs {
        }
        assert AgreeNear(mt.tree, mu.tree, d);
      }
    }
  }

  /** The copy loop behaves alike in two trees that agree near the plugin's directory. */
  lemma {:induction false} UnpackFromRespects(t: Tree, u: Tree, dir: Path, name: string, res: seq<Resource>)
    requires dir != [] && AgreeNear(t, u, dir)
    ensures UnpackFrom(t, dir, name, res).ok == UnpackFrom(u, dir, name, res).ok
    ensures AgreeNear(UnpackFrom(t, dir, name, res).tree, UnpackFrom(u, dir, name, res).tree, dir)
    decreases |res|
  {
    if res != [] {
      var shorter := res[..|res| - 1];
      UnpackFromRespects(t, u, dir, name, shorter);
      var pt, pu := UnpackFrom(t, dir, name, shorter), UnpackFrom(u, dir, name, shorter);
      var last := res[|res| - 1];
      if pt.ok {
        match MatchResource(name, last.name)
        case None =>
        case Some(remainder) =>
          CopyResourceRespects(pt.tree, pu.tree, dir, Destination(dir, remainder), last.content);
      }
    }
  }

  lemma UnpackPluginRespects(t: Tree, u: Tree, dir: Path, name: string, scan: Scan)
    requires dir != [] && AgreeNear(t, u, dir)
    ensures UnpackPlugin(t, dir, name, scan).ok == UnpackPlugin(u, dir, name, scan).ok
    ensures AgreeNear(UnpackPlugin(t, dir, name, scan).tree, UnpackPlugin(u, dir, name, scan).tree, dir)
  {
    if scan.Scanned? {
      UnpackFromRespects(t, u, dir, name, scan.resources);
    }
  }

  /** Unpacking plugin `m` leaves everything near another plugin's directory as it was. */
  lemma UnpackPluginElsewhere(t: Tree, pluginsDir: Path, m: string, n: string, scan: Scan)
    requires m != n
    ensures AgreeNear(t, UnpackPlugin(t, pluginsDir + [m], m, scan).tree, pluginsDir + [n])
  {
    var u := UnpackPlugin(t, pluginsDir + [m], m, scan).tree;
    forall q | pluginsDir + [n] <= q ensures q in t.dirs <==> q in u.dirs {
      SiblingsApart(pluginsDir, m, n, q);
    }
    forall q | q <= pluginsDir + [n] || pluginsDir + [n] <= q
      ensures q in t.files <==> q in u.files
      ensures q in t.files && q in u.files ==> t.files[q] == u.files[q]
    {
      SiblingsApart(pluginsDir, m, n, q);
    }
  }

  /** Unpacking names other than `n` leaves everything near `pluginsDir/<n>` as it was. */
  lemma {:induction false} UnpackAllElsewhere(t: Tree, pluginsDir: Path, order: seq<string>, scan: Scan, n: string)
    requires n !in order
    ensures AgreeNear(t, UnpackAll(t, pluginsDir, order, scan).tree, pluginsDir + [n])
    decreases |order|
  {
    if order != [] {
      var shorter := order[..|order| - 1];
      var last := order[|order| - 1];
      UnpackAllElsewhere(t, pluginsDir, shorter, scan, n);
      var prev := UnpackAll(t, pluginsDir, shorter, scan);
      UnpackPluginElsewhere(prev.tree, pluginsDir, last, n, scan);
      AgreeNearChain(t, prev.tree, UnpackAll(t, pluginsDir, order, scan).tree, pluginsDir + [n]);
    }
  }

  /** No name is listed twice. */
  ghost predicate NoRepeats(order: seq<string>) {
    forall i, j | 0 <= i < j < |order| :: order[i] != order[j]
  }

  /**
   * Within a run over distinct names, each plugin's unpack fails, and leaves
   * its directory, exactly as it would if it were unpacked alone into the
   * starting tree.
   */
  lemma {:induction false} UnpackAllIsolated(t: Tree, pluginsDir: Path, order: seq<string>, scan: Scan, n: string)
    requires NoRepeats(order) && n in order
    ensures var all := UnpackAll(t, pluginsDir, order, scan);
      var alone := UnpackPlugin(t, pluginsDir + [n], n, scan);
      && (n in all.failed <==> !alone.ok)
      && AgreeNear(all.tree, alone.tree, pluginsDir + [n])
    decreases |order|
  {
    var shorter := order[..|order| - 1];
    assert NoRepeats(shorter);
    if order[|order| - 1] == n {
      assert n !in shorter;
      IsolatedWhenLast(t, pluginsDir, order, scan, n);
    } else {
      assert n in shorter;
      UnpackAllIsolated(t, pluginsDir, shorter, scan, n);
      IsolatedWhenEarlier(t, pluginsDir, order, scan, n);
    }
  }

  /** The step of UnpackAllIsolated where `n` is the name visited last. */
  lemma IsolatedWhenLast(t: Tree, pluginsDir: Path, order: seq<string>, scan: Scan, n: string)
    requires order != [] && order[|order| - 1] == n && n !in order[..|order| - 1]
    ensures var all := UnpackAll(t, pluginsDir, order, scan);
      var alone := UnpackPlugin(t, pluginsDir + [n], n, scan);
      && (n in all.failed <==> !alone.ok)
      && AgreeNear(all.tree, alone.tree, pluginsDir + [n])
  {
    var shorter := order[..|order| - 1];
    var prev := UnpackAll(t, pluginsDir, shorter, scan);
    var alone := UnpackPlugin(t, pluginsDir + [n], n, scan);
    var s := UnpackPlugin(prev.tree, pluginsDir + [n], n, scan);
    UnpackAllElsewhere(t, pluginsDir, shorter, scan, n);
    UnpackPluginRespects(t, prev.tree, pluginsDir + [n], n, scan);
    AgreeNearChain(s.tree, alone.tree, alone.tree, pluginsDir + [n]);
  }

  /** The last name of a run is unpacked into the tree the earlier names left. */
  lemma UnpackAllStep(t: Tree, pluginsDir: Path, order: seq<string>, scan: Scan)
    requires order != []
    ensures var prev := UnpackAll(t, pluginsDir, order[..|order| - 1], scan);
      var last := order[|order| - 1];
      var s := UnpackPlugin(prev.tree, pluginsDir + [last], last, scan);
      UnpackAll(t, pluginsDir, order, scan) == Unpacked(s.tree, if s.ok then prev.failed else prev.failed + {last})
  {
  }

  /** The step of UnpackAllIsolated where a name other than `n` is visited last. */
  lemma IsolatedWhenEarlier(t: Tree, pluginsDir: Path, order: seq<string>, scan: Scan, n: string)
    requires order != [] && order[|order| - 1] != n
    requires var prev := UnpackAll(t, pluginsDir, order[..|order| - 1], scan);
      var alone := UnpackPlugin(t, pluginsDir + [n], n, scan);
      && (n in prev.failed <==> !alone.ok)
      && AgreeNear(prev.tree, alone.tree, pluginsDir + [n])
    ensures var all := UnpackAll(t, pluginsDir, order, scan);
      var alone := UnpackPlugin(t, pluginsDir + [n], n, scan);
      && (n in all.failed <==> !alone.ok)
      && AgreeNear(all.tree, alone.tree, pluginsDir + [n])
  {
    var prev := UnpackAll(t, pluginsDir, order[..|order| - 1], scan);
    EarlierFailed(t, pluginsDir, order, scan, n);
    EarlierTree(t, pluginsDir, order, scan, n, UnpackPlugin(t, pluginsDir + [n], n, scan).tree);
  }

  lemma EarlierFailed(t: Tree, pluginsDir: Path, order: seq<string>, scan: Scan, n: string)
    requires order != [] && order[|order| - 1] != n
    ensures n in UnpackAll(t, pluginsDir, order, scan).failed <==>
      n in UnpackAll(t, pluginsDir, order[..|order| - 1], scan).failed
  {
    UnpackAllStep(t, pluginsDir, order, scan);
  }

  lemma EarlierTree(t: Tree, pluginsDir: Path, order: seq<string>, scan: Scan, n: string, a: Tree)
    requires order != [] && order[|order| - 1] != n
    requires AgreeNear(UnpackAll(t, pluginsDir, order[..|order| - 1], scan).tree, a, pluginsDir + [n])
    ensures AgreeNear(UnpackAll(t, pluginsDir, order, scan).tree, a, pluginsDir + [n])
  {
    var last := order[|order| - 1];
    var prev := UnpackAll(t, pluginsDir, order[..|order| - 1], scan);
    var s := UnpackPlugin(prev.tree, pluginsDir + [last], last, scan);
    UnpackAllStep(t, pluginsDir, order, scan);
    UnpackPluginElsewhere(prev.tree, pluginsDir, last, n, scan);
    AgreeNearChain(s.tree, prev.tree, a, pluginsDir + [n]);
  }

  /*
   * The directories on the way to `pluginsDir`. Every plugin's copy creates
   * the whole chain above its destination, so whether such a directory comes
   * to exist depends only on whether some plugin's directory creation
   * succeeded, and that is again decided near the plugin's own directory.
   */

  /** A directory on the way to `d` that one tree's copy creates is there after the other tree's copy too. */
  lemma CopyResourceWay(a: Tree, b: Tree, d: Path, w: Path, dest: Path, content: Option<seq<byte>>)
    requires dest != [] && d <= dest && w < d && AgreeNear(a, b, d)
    ensures w in CopyResource(a, dest, content).tree.dirs && w !in a.dirs ==> w in CopyResource(b, dest, content).tree.dirs
  {
    if content.Some? {
      var p := Parent(dest);
      assert w <= p;
      forall q | q <= p ensures q in a.files <==> q in b.files {
        PrefixesComparable(q, d, dest);
      }
    }
  }

  /**
   * Started from two trees that agree near `dir`, the copy loop leaves a
   * directory `w` on the way to `dir`, missing from the first tree, in the
   * second tree's result exactly when it was in the second tree already or
   * the loop makes it from the first.
   */
  lemma {:induction false} UnpackFromWay(t: Tree, u: Tree, dir: Path, name: string, res: seq<Resource>, w: Path)
    requires dir != [] && AgreeNear(t, u, dir) && w < dir && w !in t.dirs
    ensures w in UnpackFrom(u, dir, name, res).tree.dirs <==> w in u.dirs || w in UnpackFrom(t, dir, name, res).tree.dirs
    decreases |res|
  {
    if res != [] {
      var shorter := res[..|res| - 1];
      UnpackFromWay(t, u, dir, name, shorter, w);
      UnpackFromRespects(t, u, dir, name, shorter);
      var pt, pu := UnpackFrom(t, dir, name, shorter), UnpackFrom(u, dir, name, shorter);
      var last := res[|res| - 1];
      if pt.ok {
        match MatchResource(name, last.name)
        case None =>
        case Some(remainder) =>
          var dest := Destination(dir, remainder);
          CopyResourceWay(pt.tree, pu.tree, dir, w, dest, last.content);
          AgreeNearChain(pt.tree, pu.tree, pu.tree, dir);
          CopyResourceWay(pu.tree, pt.tree, dir, w, dest, last.content);
      }
    }
  }

  lemma UnpackPluginWay(t: Tree, u: Tree, dir: Path, name: string, scan: Scan, w: Path)
    requires dir != [] && AgreeNear(t, u, dir) && w < dir && w !in t.dirs
    ensures w in UnpackPlugin(u, dir, name, scan).tree.dirs <==> w in u.dirs || w in UnpackPlugin(t, dir, name, scan).tree.dirs
  {
    if scan.Scanned? {
      UnpackFromWay(t, u, dir, name, scan.resources, w);
    }
  }

  /** Some name of `order`, unpacked alone into `t`, makes the directory `w`. */
  ghost predicate MadeBySome(t: Tree, pluginsDir: Path, order: seq<string>, scan: Scan, w: Path) {
    exists n | n in order :: w in UnpackPlugin(t, pluginsDir + [n], n, scan).tree.dirs
  }

  /**
   * A directory on the way to `pluginsDir` that was missing comes to exist in
   * a run over distinct names exactly when one of those names, unpacked
   * alone, makes it.
   */
  lemma {:induction false} UnpackAllWay(t: Tree, pluginsDir: Path, order: seq<string>, scan: Scan, w: Path)
    requires NoRepeats(order) && w <= pluginsDir && w !in t.dirs
    ensures w in UnpackAll(t, pluginsDir, order, scan).tree.dirs <==> MadeBySome(t, pluginsDir, order, scan, w)
    decreases |order|
  {
    if order != [] {
      var shorter := order[..|order| - 1];
      var last := order[|order| - 1];
      assert NoRepeats(shorter) && last !in shorter;
      UnpackAllWay(t, pluginsDir, shorter, scan, w);
      UnpackAllElsewhere(t, pluginsDir, shorter, scan, last);
      var prev := UnpackAll(t, pluginsDir, shorter, scan);
      UnpackAllStep(t, pluginsDir, order, scan);
      UnpackPluginWay(t, prev.tree, pluginsDir + [last], last, scan, w);
      MadeBySomeStep(t, pluginsDir, order, scan, w);
    }
  }

  lemma MadeBySomeStep(t: Tree, pluginsDir: Path, order: seq<string>, scan: Scan, w: Path)
    requires order != []
    ensures var last := order[|order| - 1];
      MadeBySome(t, pluginsDir, order, scan, w) <==>
        MadeBySome(t, pluginsDir, order[..|order| - 1], scan, w) ||
        w in UnpackPlugin(t, pluginsDir + [last], last, scan).tree.dirs
  {
    var shorter, last := order[..|order| - 1], order[|order| - 1];
    if MadeBySome(t, pluginsDir, order, scan, w) {
      var n :| n in order && w in UnpackPlugin(t, pluginsDir + [n], n, scan).tree.dirs;
      if n != last {
        assert n in shorter;
      }
    }
    if MadeBySome(t, pluginsDir, shorter, scan, w) {
      var n :| n in shorter && w in UnpackPlugin(t, pluginsDir + [n], n, scan).tree.dirs;
      assert n in order;
    }
    assert last in order;
  }

  /**
   * Two runs over the same distinct names in different orders end alike:
   * the same failures, and the same tree.
   */
  lemma UnpackAllOrderFree(t: Tree, pluginsDir: Path, o1: seq<string>, o2: seq<string>, scan: Scan)
    requires NoRepeats(o1) && NoRepeats(o2) && (forall x :: x in o1 <==> x in o2)
    ensures UnpackAll(t, pluginsDir, o1, scan) == UnpackAll(t, pluginsDir, o2, scan)
  {
    var r1, r2 := UnpackAll(t, pluginsDir, o1, scan), UnpackAll(t, pluginsDir, o2, scan);
    OrderFreeNear(t, pluginsDir, o1, o2, scan);
    UnpackAllLayout(t, pluginsDir, o1, scan);
    UnpackAllLayout(t, pluginsDir, o2, scan);
    OrderFreeFiles(t, r1.tree, r2.tree, pluginsDir, o1, o2);
    OrderFreeWays(t, pluginsDir, o1, o2, scan);
    assert r1.failed == r2.failed;
    assert r1.tree.files == r2.tree.files;
    assert r1.tree.dirs == r2.tree.dirs;
  }

  /** The step of UnpackAllOrderFree for each visited name: its failure flag and its directory. */
  lemma OrderFreeNear(t: Tree, pluginsDir: Path, o1: seq<string>, o2: seq<string>, scan: Scan)
    requires NoRepeats(o1) && NoRepeats(o2) && (forall x :: x in o1 <==> x in o2)
    ensures var r1, r2 := UnpackAll(t, pluginsDir, o1, scan), UnpackAll(t, pluginsDir, o2, scan);
      forall n | n in o1 :: (n in r1.failed <==> n in r2.failed) && AgreeNear(r1.tree, r2.tree, pluginsDir + [n])
  {
    var r1, r2 := UnpackAll(t, pluginsDir, o1, scan), UnpackAll(t, pluginsDir, o2, scan);
    forall n | n in o1
      ensures n in r1.failed <==> n in r2.failed
      ensures AgreeNear(r1.tree, r2.tree, pluginsDir + [n])
    {
      UnpackAllIsolated(t, pluginsDir, o1, scan, n);
      UnpackAllIsolated(t, pluginsDir, o2, scan, n);
      var alone := UnpackPlugin(t, pluginsDir + [n], n, scan).tree;
      AgreeNearChain(alone, r2.tree, r2.tree, pluginsDir + [n]);
      AgreeNearChain(r1.tree, alone, r2.tree, pluginsDir + [n]);
    }
  }

  /** The step of UnpackAllOrderFree for the files, and the directories off the way to `pluginsDir`. */
  lemma OrderFreeFiles(t: Tree, u1: Tree, u2: Tree, pluginsDir: Path, o1: seq<string>, o2: seq<string>)
    requires Grows(t, u1) && Grows(t, u2)
    requires LaidOut(t, u1, pluginsDir, o1) && LaidOut(t, u2, pluginsDir, o2)
    requires forall x :: x in o1 <==> x in o2
    requires forall n | n in o1 :: AgreeNear(u1, u2, pluginsDir + [n])
    ensures u1.files == u2.files
    ensures forall q | !(q <= pluginsDir) :: q in u1.dirs <==> q in u2.dirs
  {
    forall q
      ensures q in u1.files <==> q in u2.files
      ensures q in u1.files && q in u2.files ==> u1.files[q] == u2.files[q]
      ensures !(q <= pluginsDir) ==> (q in u1.dirs <==> q in u2.dirs)
    {
      AgreeOutsideWays(t, u1, u2, pluginsDir, o1, o2, q);
    }
  }

  /** The step of UnpackAllOrderFree for the directories on the way to `pluginsDir`. */
  lemma OrderFreeWays(t: Tree, pluginsDir: Path, o1: seq<string>, o2: seq<string>, scan: Scan)
    requires NoRepeats(o1) && NoRepeats(o2) && (forall x :: x in o1 <==> x in o2)
    ensures forall w | w <= pluginsDir ::
      w in UnpackAll(t, pluginsDir, o1, scan).tree.dirs <==> w in UnpackAll(t, pluginsDir, o2, scan).tree.dirs
  {
    var r1, r2 := UnpackAll(t, pluginsDir, o1, scan), UnpackAll(t, pluginsDir, o2, scan);
    forall w | w <= pluginsDir ensures w in r1.tree.dirs <==> w in r2.tree.dirs {
      if w !in t.dirs {
        UnpackAllWay(t, pluginsDir, o1, scan, w);
        UnpackAllWay(t, pluginsDir, o2, scan, w);
        MadeBySomeSameNames(t, pluginsDir, o1, o2, scan, w);
      }
    }
  }

  lemma MadeBySomeSameNames(t: Tree, pluginsDir: Path, o1: seq<string>, o2: seq<string>, scan: Scan, w: Path)
    requires forall x :: x in o1 <==> x in o2
    ensures MadeBySome(t, pluginsDir, o1, scan, w) <==> MadeBySome(t, pluginsDir, o2, scan, w)
  {
  }

  /**
   * Two trees laid out from `t` over the same names, and alike near each of
   * those names' directories, agree on `q` unless it is on the way to `pluginsDir`.
   */
  lemma AgreeOutsideWays(t: Tree, u1: Tree, u2: Tree, pluginsDir: Path, o1: seq<string>, o2: seq<string>, q: Path)
    requires Grows(t, u1) && Grows(t, u2)
    requires LaidOut(t, u1, pluginsDir, o1) && LaidOut(t, u2, pluginsDir, o2)
    requires forall x :: x in o1 <==> x in o2
    requires forall n | n in o1 :: AgreeNear(u1, u2, pluginsDir + [n])
    ensures q in u1.files <==> q in u2.files
    ensures q in u1.files && q in u2.files ==> u1.files[q] == u2.files[q]
    ensures !(q <= pluginsDir) ==> (q in u1.dirs <==> q in u2.dirs)
  {
    if InPluginDir(pluginsDir, o1, q) {
      var n := q[|pluginsDir|];
      assert pluginsDir + [n] <= q;
      assert AgreeNear(u1, u2, pluginsDir + [n]);
    } else {
      assert !InPluginDir(pluginsDir, o2, q);
    }
  }
}
