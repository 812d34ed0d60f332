/**
 * The report build orchestrator: create the output root, collect the result
 * sources, write the entry page naming the plugins with static content,
 * unpack each such plugin's files, and hand sources, contributors and output
 * directory to the processing stage.
 */
module Generator {

  import opened Wrappers
  import opened FileTree
  import opened Registry
  import opened Unpacker

  /** The data model handed to the entry-page template. */
  type DataModel = map<string, set<string>>

  /**
   * The template engine's answer: the rendered page, or a failure together
   * with the bytes it had already emitted (the writer is flushed when it is
   * closed, so those reach the file).
   */
  datatype RenderResult = Rendered(page: seq<byte>) | RenderFailed(written: seq<byte>)

  function Emitted(r: RenderResult): seq<byte> {
    match r
    case Rendered(page) => page
    case RenderFailed(written) => written
  }

  /**
   * What lies outside the orchestrator: what each plugin class reports about
   * itself, the class-path scan (the same on every call), and the template.
   */
  datatype Env = Env(describe: PluginClass -> Descriptor, scan: Scan, render: DataModel -> RenderResult)

  /** What is passed to the processing stage, with the tree as it stands at that moment. */
  datatype Handoff = Handoff(sources: seq<Source>, contributors: seq<Contributor>, output: Path, tree: Tree)

  /**
   * How `generate` ends: with the exception thrown when the output root
   * cannot be created, or with the handoff and what was only logged (an entry
   * page error, the plugins whose unpack failed).
   */
  datatype BuildOutcome =
    | Aborted(message: string)
    | Completed(handoff: Handoff, indexLogged: bool, unpackFailed: set<string>)

  datatype Run = Run(outcome: BuildOutcome, tree: Tree)

  const OutputDirectoryError: string := "Could not create output directory"

  function IndexPath(output: Path): Path {
    output + ["index.html"]
  }

  function PluginsDir(output: Path): Path {
    output + ["plugins"]
  }

  /** The template's data model: one key, `plugins`, bound to the given names. */
  function IndexDataModel(names: set<string>): (m: DataModel)
    ensures m.Keys == {"plugins"} && m["plugins"] == names
  {
    map["plugins" := names]
  }

  /**
   * `writeIndexHtml` on an output directory: `ok` is false when an error was
   * logged, which happens exactly when the template fails or `index.html`
   * cannot be opened; nothing but `index.html` is touched.
   */
  function WriteIndex(t: Tree, output: Path, result: RenderResult): (s: Step)
    ensures s.ok <==> result.Rendered? && IndexPath(output) !in t.dirs && output in t.dirs
    ensures s.ok ==> IndexPath(output) in s.tree.files
    ensures s.ok ==> s.tree.files[IndexPath(output)] == Overlay(Existing(t, IndexPath(output)), result.page)
    ensures s.tree.dirs == t.dirs
    ensures forall q | q != IndexPath(output) :: (q in s.tree.files <==> q in t.files)
    ensures forall q | q != IndexPath(output) && q in t.files :: s.tree.files[q] == t.files[q]
    ensures t.Valid() ==> s.tree.Valid()
  {
    var attempt := WriteCreate(t, IndexPath(output), Emitted(result));
    assert Parent(IndexPath(output)) == output;
    Step(attempt.tree, attempt.ok && result.Rendered?)
  }

  /** `order` lists every element of `s` exactly once. */
  ghost predicate Enumerates(order: seq<string>, s: set<string>) {
    && NoRepeats(order)
    && (forall x :: x in order <==> x in s)
  }

  /**
   * The whole of `generate`, with the active names unpacked in `order` (the
   * iteration order of the name set, which the source leaves unspecified).
   */
  function Build(t: Tree, inputs: seq<Path>, output: Path, env: Env, order: seq<string>): (r: Run)
    ensures r.outcome.Aborted? <==> exists q :: q <= output && q in t.files
    ensures r.outcome.Aborted? ==> r.outcome.message == OutputDirectoryError && r.tree == t
    ensures r.outcome.Completed? ==> output in r.tree.dirs && t.dirs <= r.tree.dirs
    ensures r.outcome.Completed? ==> forall f | f in t.files && f != IndexPath(output) ::
      f in r.tree.files && r.tree.files[f] == t.files[f]
    ensures r.outcome.Completed? ==>
      var h := r.outcome.handoff;
      && h.tree == r.tree && h.output == output
      && h.sources == ResultSources(inputs)
      && h.contributors == Contributors(Modules(inputs), Plugins(env.describe))
      && (forall n :: n in r.outcome.unpackFailed ==> n in order)
    ensures t.Valid() ==> r.tree.Valid()
  {
    var made := CreateDirs(t, output);
    if !made.ok then
      Run(Aborted(OutputDirectoryError), made.tree)
    else
      var plugins := Plugins(env.describe);
      var active := ActiveNames(plugins);
      var index := WriteIndex(made.tree, output, env.render(IndexDataModel(active)));
      var unpacked := UnpackAll(index.tree, PluginsDir(output), order, env.scan);
      var contributors := Contributors(Modules(inputs), plugins);
      var h := Handoff(ResultSources(inputs), contributors, output, unpacked.tree);
      Run(Completed(h, !index.ok, unpacked.failed), unpacked.tree)
  }

  /**
   * Nothing at or below `output/plugins/<m>` is created, removed or changed
   * for a name `m` that no plugin with static content carries.
   */
  lemma BuildLeavesInactiveAlone(t: Tree, inputs: seq<Path>, output: Path, env: Env, order: seq<string>,
                                 m: string, q: Path)
    requires Enumerates(order, ActiveNames(Plugins(env.describe)))
    requires m !in ActiveNames(Plugins(env.describe))
    requires PluginsDir(output) + [m] <= q
    ensures var u := Build(t, inputs, output, env, order).tree;
      && (q in u.dirs <==> q in t.dirs)
      && (q in u.files <==> q in t.files)
      && (q in t.files ==> u.files[q] == t.files[q])
  {
    var made := CreateDirs(t, output);
    if made.ok {
      var active := ActiveNames(Plugins(env.describe));
      var index := WriteIndex(made.tree, output, env.render(IndexDataModel(active)));
      assert !(q <= output);
      assert q != IndexPath(output) by {
        assert q[|output|] == "plugins";
      }
      UnpackAllLeavesOthers(index.tree, PluginsDir(output), order, env.scan, m, q);
    }
  }

  /**
   * A plugin whose unpack logged nothing has each of its resources at
   * `output/plugins/<name>/<remainder>` with identical bytes, and the
   * directory above it exists, in whatever order the names were visited.
   */
  lemma BuildDelivers(t: Tree, inputs: seq<Path>, output: Path, env: Env, order: seq<string>,
                      name: string, k: nat)
    requires name in order
    ensures var r := Build(t, inputs, output, env, order);
      r.outcome.Completed? && name !in r.outcome.unpackFailed ==>
        && env.scan.Scanned?
        && (k < |env.scan.resources| && MatchResource(name, env.scan.resources[k].name).Some? ==>
              var dest := Destination(PluginsDir(output) + [name], MatchResource(name, env.scan.resources[k].name).value);
              && env.scan.resources[k].content.Some?
              && dest in r.tree.files && r.tree.files[dest] == env.scan.resources[k].content.value
              && Parent(dest) in r.tree.dirs)
  {
    var made := CreateDirs(t, output);
    if made.ok {
      var active := ActiveNames(Plugins(env.describe));
      var index := WriteIndex(made.tree, output, env.render(IndexDataModel(active)));
      var unpacked := UnpackAll(index.tree, PluginsDir(output), order, env.scan);
      if name !in unpacked.failed {
        UnpackAllDelivers(index.tree, PluginsDir(output), order, env.scan, name, k);
      }
    }
  }

  /**
   * The order in which the active names are visited changes nothing: not
   * what is logged, not what is handed on, not the tree.
   */
  lemma BuildOrderFree(t: Tree, inputs: seq<Path>, output: Path, env: Env, o1: seq<string>, o2: seq<string>)
    requires Enumerates(o1, ActiveNames(Plugins(env.describe)))
    requires Enumerates(o2, ActiveNames(Plugins(env.describe)))
    ensures Build(t, inputs, output, env, o1) == Build(t, inputs, output, env, o2)
  {
    var made := CreateDirs(t, output);
    if made.ok {
      var active := ActiveNames(Plugins(env.describe));
      var index := WriteIndex(made.tree, output, env.render(IndexDataModel(active)));
      UnpackAllOrderFree(index.tree, PluginsDir(output), o1, o2, env.scan);
    }
  }

  /**
   * Where the build writes: every file it adds or changes is `index.html` or
   * lies below `output/plugins/<n>` for a name `n` it visited, and every
   * directory it adds is on the way to `output/plugins` or below such a
   * plugin's directory.
   */
  lemma BuildLayout(t: Tree, inputs: seq<Path>, output: Path, env: Env, order: seq<string>)
    ensures var u := Build(t, inputs, output, env, order).tree;
      && (forall q | q in u.files && (q !in t.files || u.files[q] != t.files[q]) ::
            q == IndexPath(output) || InPluginDir(PluginsDir(output), order, q))
      && (forall q | q in u.dirs && q !in t.dirs ::
            q <= PluginsDir(output) || InPluginDir(PluginsDir(output), order, q))
  {
    var made := CreateDirs(t, output);
    if made.ok {
      var active := ActiveNames(Plugins(env.describe));
      var index := WriteIndex(made.tree, output, env.render(IndexDataModel(active)));
      UnpackAllLayout(index.tree, PluginsDir(output), order, env.scan);
      assert output <= PluginsDir(output);
    }
  }

  /**
   * The entry page, once the output root can be made: an error is logged exactly when the template fails or
   * `index.html` is a directory; otherwise the page's bytes are written over
   * the start of any earlier `index.html` (so a fresh output directory holds
   * exactly the page), and later steps leave it alone.
   */
  lemma BuildIndexPage(t: Tree, inputs: seq<Path>, output: Path, env: Env, order: seq<string>)
    requires forall q | q in t.files :: !(q <= output)
    ensures var r := Build(t, inputs, output, env, order);
      var result := env.render(IndexDataModel(ActiveNames(Plugins(env.describe))));
      && (r.outcome.indexLogged <==> result.RenderFailed? || IndexPath(output) in t.dirs)
      && (IndexPath(output) !in t.dirs ==>
            IndexPath(output) in r.tree.files &&
            r.tree.files[IndexPath(output)] == Overlay(Existing(t, IndexPath(output)), Emitted(result)))
      && (!r.outcome.indexLogged && IndexPath(output) !in t.files ==>
            r.tree.files[IndexPath(output)] == result.page)
  {
    var made := CreateDirs(t, output);
    var active := ActiveNames(Plugins(env.describe));
    var result := env.render(IndexDataModel(active));
    var index := WriteIndex(made.tree, output, result);
    assert !(IndexPath(output) <= output);
    assert Existing(made.tree, IndexPath(output)) == Existing(t, IndexPath(output));
    var attempt := WriteCreate(made.tree, IndexPath(output), Emitted(result));
    assert Parent(IndexPath(output)) == output;
    assert index.tree == attempt.tree;
  }

  /** The report generator, holding the input directories it was built with. */
  class ReportGenerator {
    const inputs: seq<Path>

    constructor (inputs: seq<Path>)
      ensures this.inputs == inputs
    {
      this.inputs := inputs;
    }

    /** `createDirectory`: the error carries the given message when the directories cannot be created. */
    method CreateDirectory(fs: FileSystem, directory: Path, message: string) returns (error: Option<string>)
      modifies fs
      ensures Step(fs.Snapshot(), error.None?) == CreateDirs(old(fs.Snapshot()), directory)
      ensures error.Some? ==> error.value == message
    {
      var ok := fs.CreateDirectories(directory);
      error := if ok then None else Some(message);
    }

    /** `writeIndexHtml`: returns false when an error was logged. */
    method WriteIndexHtml(fs: FileSystem, outputDirectory: Path, facePluginNames: set<string>,
                          render: DataModel -> RenderResult) returns (ok: bool)
      modifies fs
      ensures Step(fs.Snapshot(), ok) ==
        WriteIndex(old(fs.Snapshot()), outputDirectory, render(IndexDataModel(facePluginNames)))
    {
      var result := render(IndexDataModel(facePluginNames));
      var attempt := fs.OpenAndWrite(IndexPath(outputDirectory), Emitted(result));
      ok := attempt && result.Rendered?;
    }

    /** `unpackReportPlugin`: returns false when an error ended the copy loop and was logged. */
    method UnpackReportPlugin(fs: FileSystem, outputDirectory: Path, pluginName: string, scan: Scan)
      returns (ok: bool)
      requires outputDirectory != []
      modifies fs
      ensures Step(fs.Snapshot(), ok) == UnpackPlugin(old(fs.Snapshot()), outputDirectory, pluginName, scan)
    {
      if scan.ScanFailed? {
        return false;
      }
      var res := scan.resources;
      ghost var t0 := fs.Snapshot();
      ok := true;
      var i := 0;
      while i < |res|
        invariant 0 <= i <= |res|
        invariant Step(fs.Snapshot(), true) == UnpackFrom(t0, outputDirectory, pluginName, res[..i])
      {
        var info := res[i];
        UnpackFromNext(t0, outputDirectory, pluginName, res, i);
        var matched := MatchResource(pluginName, info.name);
        if matched.Some? {
          ok := CopyMatched(fs, Destination(outputDirectory, matched.value), info.content);
          if !ok {
            UnpackStopsAtFailure(t0, outputDirectory, pluginName, res[..i + 1], res[i + 1..]);
            assert res[..i + 1] + res[i + 1..] == res;
            return;
          }
        }
        i := i + 1;
      }
      assert res[..i] == res;
    }

    /**
     * The body of the copy loop for a matched resource: open its stream,
     * create the destination's parent directories, copy without replacing.
     */
    method CopyMatched(fs: FileSystem, dest: Path, content: Option<seq<byte>>) returns (ok: bool)
      requires dest != []
      modifies fs
      ensures Step(fs.Snapshot(), ok) == CopyResource(old(fs.Snapshot()), dest, content)
    {
      if content.None? {
        return false;
      }
      ok := fs.CreateDirectories(Parent(dest));
      if ok {
        ok := fs.Copy(dest, content.value);
      }
    }

    /**
     * The `forEach` over the active names: each is unpacked into
     * `pluginsDir/<name>`, in an order the name set chooses, and a failed
     * unpack does not stop the others.
     */
    method UnpackActive(fs: FileSystem, pluginsDir: Path, active: set<string>, scan: Scan)
      returns (failed: set<string>, ghost order: seq<string>)
      modifies fs
      ensures Enumerates(order, active)
      ensures Unpacked(fs.Snapshot(), failed) == UnpackAll(old(fs.Snapshot()), pluginsDir, order, scan)
    {
      ghost var start := fs.Snapshot();
      var remaining := active;
      failed := {};
      order := [];
      while remaining != {}
        invariant remaining <= active
        invariant Enumerates(order, active - remaining)
        invariant Unpacked(fs.Snapshot(), failed) == UnpackAll(start, pluginsDir, order, scan)
        decreases remaining
      {
        var name :| name in remaining;
        var ok := UnpackReportPlugin(fs, pluginsDir + [name], name, scan);
        if !ok {
          failed := failed + {name};
        }
        remaining := remaining - {name};
        assert (order + [name])[..|order|] == order;
        order := order + [name];
      }
    }

    /**
     * `generate`: the run is the one `Build` describes for the order in which
     * the active names were visited, and that order lists each active name once.
     */
    method Generate(fs: FileSystem, output: Path, env: Env) returns (outcome: BuildOutcome, ghost order: seq<string>)
      modifies fs
      ensures outcome.Completed? ==> Enumerates(order, ActiveNames(Plugins(env.describe)))
      ensures Run(outcome, fs.Snapshot()) == Build(old(fs.Snapshot()), inputs, output, env, order)
    {
      order := [];
      var error := CreateDirectory(fs, output, OutputDirectoryError);
      if error.Some? {
        outcome := Aborted(error.value);
        return;
      }
      var sources := ResultSources(inputs);
      var plugins := Plugins(env.describe);
      var active := ActiveNames(plugins);
      var indexOk := WriteIndexHtml(fs, output, active, env.render);
      var failed;
      failed, order := UnpackActive(fs, PluginsDir(output), active, env.scan);
      var all := Contributors(Modules(inputs), plugins);
      outcome := Completed(Handoff(sources, all, output, fs.Snapshot()), !indexOk, failed);
    }
  }
}
