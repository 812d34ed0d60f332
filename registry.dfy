/**
 * The fixed catalogues of the report generator (its plugins and its modules),
 * the result sources it builds from the input directories, and the list of
 * contributors it hands to the processing stage.
 */
module Registry {

  import opened FileTree

  /** One result source per input directory and result format. */
  datatype Source = Allure1Results(input: Path) | JunitResults(input: Path)

  /** Every input yields an Allure 1 source and then a JUnit source, in input order. */
  function ResultSources(inputs: seq<Path>): (r: seq<Source>)
    ensures |r| == 2 * |inputs|
    ensures forall i :: 0 <= i < |inputs| ==> r[2 * i] == Allure1Results(inputs[i])
    ensures forall i :: 0 <= i < |inputs| ==> r[2 * i + 1] == JunitResults(inputs[i])
  {
    if inputs == [] then []
    else
      var rest := ResultSources(inputs[1..]);
      assert forall i :: 1 <= i < |inputs| ==> inputs[i] == inputs[1..][i - 1];
      [Allure1Results(inputs[0]), JunitResults(inputs[0])] + rest
  }

  /** Each source names the input it was built from, and every input is named. */
  lemma {:induction false} SourcesCoverInputs(inputs: seq<Path>, s: Source)
    ensures s in ResultSources(inputs) <==> s.input in inputs
  {
    var r := ResultSources(inputs);
    if s in r {
      var k :| 0 <= k < |r| && r[k] == s;
      assert r[k] == r[2 * (k / 2) + k % 2];
      assert s.input == inputs[k / 2];
    }
    if s.input in inputs {
      var i :| 0 <= i < |inputs| && inputs[i] == s.input;
      assert r[2 * i] == Allure1Results(s.input) && r[2 * i + 1] == JunitResults(s.input);
    }
  }

  /** The plugin classes of the catalogue; their bodies are not part of this model. */
  datatype PluginClass =
    | OpenSansFontPlugin
    | DefectsPlugin
    | XunitPlugin
    | BehaviorsPlugin
    | PackagesPlugin
    | TimelinePlugin
    | GraphPlugin
    | IssueModule
    | TmsModule

  /** What a plugin class answers to `getPluginName` and `hasStaticContent`. */
  datatype Descriptor = Descriptor(name: string, hasStaticContent: bool)

  /** A plugin instance: its class and what that class reports about itself. */
  datatype Plugin = Plugin(cls: PluginClass, name: string, hasStaticContent: bool)

  /** The plugin catalogue in its fixed order; `PackagesPlugin` is listed twice. */
  const PluginClasses: seq<PluginClass> := [
    OpenSansFontPlugin, DefectsPlugin, XunitPlugin, BehaviorsPlugin, PackagesPlugin,
    TimelinePlugin, GraphPlugin, PackagesPlugin, IssueModule, TmsModule
  ]

  function Instantiate(cls: PluginClass, describe: PluginClass -> Descriptor): Plugin {
    Plugin(cls, describe(cls).name, describe(cls).hasStaticContent)
  }

  function InstantiateAll(classes: seq<PluginClass>, describe: PluginClass -> Descriptor): (r: seq<Plugin>)
    ensures |r| == |classes|
    ensures forall i :: 0 <= i < |classes| ==> r[i] == Instantiate(classes[i], describe)
  {
    if classes == [] then [] else [Instantiate(classes[0], describe)] + InstantiateAll(classes[1..], describe)
  }

  /** `getPlugins`: one fresh instance per catalogue entry, in catalogue order. */
  function Plugins(describe: PluginClass -> Descriptor): (r: seq<Plugin>)
    ensures |r| == |PluginClasses|
    ensures forall i | 0 <= i < |r| :: r[i] == Instantiate(PluginClasses[i], describe)
  {
    InstantiateAll(PluginClasses, describe)
  }

  /** The module catalogue entries; `ConfigModule` carries the input directories. */
  datatype ModuleEntry =
    | ConfigModule(inputs: seq<Path>)
    | JacksonMapperModule
    | WriterModule
    | EnvironmentPlugin
    | TotalPlugin

  /** `getModules`, in its fixed order. */
  function Modules(inputs: seq<Path>): (r: seq<ModuleEntry>)
    ensures |r| == 5 && r[0] == ConfigModule(inputs)
    ensures forall i | 1 <= i < |r| :: !r[i].ConfigModule?
    ensures forall i, j | 0 <= i < j < |r| :: r[i] != r[j]
  {
    [ConfigModule(inputs), JacksonMapperModule, WriterModule, EnvironmentPlugin, TotalPlugin]
  }

  /** An entry of the list handed to the injector: a module or a plugin. */
  datatype Contributor = FromModule(m: ModuleEntry) | FromPlugin(p: Plugin)

  /** The modules, in order, followed by all plugins, in order. */
  function Contributors(modules: seq<ModuleEntry>, plugins: seq<Plugin>): (r: seq<Contributor>)
    ensures |r| == |modules| + |plugins|
    ensures forall i :: 0 <= i < |modules| ==> r[i] == FromModule(modules[i])
    ensures forall i :: 0 <= i < |plugins| ==> r[|modules| + i] == FromPlugin(plugins[i])
  {
    if modules != [] then
      [FromModule(modules[0])] + Contributors(modules[1..], plugins)
    else if plugins != [] then
      [FromPlugin(plugins[0])] + Contributors([], plugins[1..])
    else
      []
  }

  /**
   * The names of the plugins that report static content, as a set: a name is
   * in it exactly when some plugin with static content carries it.
   */
  function ActiveNames(plugins: seq<Plugin>): (s: set<string>)
    ensures forall n :: n in s <==>
      exists i :: 0 <= i < |plugins| && plugins[i].hasStaticContent && plugins[i].name == n
  {
    if plugins == [] then {}
    else
      var rest := ActiveNames(plugins[1..]);
      assert forall i :: 1 <= i < |plugins| ==> plugins[i] == plugins[1..][i - 1];
      (if plugins[0].hasStaticContent then {plugins[0].name} else {}) + rest
  }

  /** `ps` with its entry at position `j` removed. */
  function Without(ps: seq<Plugin>, j: nat): (r: seq<Plugin>)
    requires j < |ps|
    ensures |r| == |ps| - 1
    ensures forall k :: 0 <= k < j ==> r[k] == ps[k]
    ensures forall k :: j <= k < |r| ==> r[k] == ps[k + 1]
  {
    ps[..j] + ps[j + 1..]
  }

  /** Removing an entry that is listed again elsewhere does not change the active names. */
  lemma ActiveNamesIgnoreDuplicates(plugins: seq<Plugin>, i: nat, j: nat)
    requires i < |plugins| && j < |plugins| && i != j && plugins[i] == plugins[j]
    ensures ActiveNames(Without(plugins, j)) == ActiveNames(plugins)
  {
    var shorter := Without(plugins, j);
    var i' := if i < j then i else i - 1;
    assert shorter[i'] == plugins[i];
    forall n | n in ActiveNames(shorter) ensures n in ActiveNames(plugins) {
      var k :| 0 <= k < |shorter| && shorter[k].hasStaticContent && shorter[k].name == n;
      var k' := if k < j then k else k + 1;
      assert shorter[k] == plugins[k'];
    }
    forall n | n in ActiveNames(plugins) ensures n in ActiveNames(shorter) {
      var k :| 0 <= k < |plugins| && plugins[k].hasStaticContent && plugins[k].name == n;
      var k' := if k == j then i' else if k < j then k else k - 1;
      assert shorter[k'] == plugins[k];
    }
  }

  /** The classes listed in the plugin catalogue, each once. */
  const DistinctPluginClasses: set<PluginClass> := {
    OpenSansFontPlugin, DefectsPlugin, XunitPlugin, BehaviorsPlugin, PackagesPlugin,
    TimelinePlugin, GraphPlugin, IssueModule, TmsModule
  }

  lemma ClassListed(c: PluginClass)
    ensures c in DistinctPluginClasses
  {
  }

  /** The names of the catalogue classes that report static content. */
  function StaticNames(describe: PluginClass -> Descriptor): set<string> {
    set c | c in DistinctPluginClasses && describe(c).hasStaticContent :: describe(c).name
  }

  lemma ActiveAreStatic(describe: PluginClass -> Descriptor)
    ensures forall i | 0 <= i < |Plugins(describe)| && Plugins(describe)[i].hasStaticContent ::
      Plugins(describe)[i].name in StaticNames(describe)
  {
    forall i | 0 <= i < |Plugins(describe)| && Plugins(describe)[i].hasStaticContent
      ensures Plugins(describe)[i].name in StaticNames(describe)
    {
      assert Plugins(describe)[i] == Instantiate(PluginClasses[i], describe);
      ClassListed(PluginClasses[i]);
    }
  }

  lemma StaticAreActive(describe: PluginClass -> Descriptor, n: string)
    requires n in StaticNames(describe)
    ensures n in ActiveNames(Plugins(describe))
  {
    var ps := Plugins(describe);
    var c :| c in DistinctPluginClasses && describe(c).hasStaticContent && describe(c).name == n;
    var i := CatalogueIndex(c);
    assert ps[i] == Instantiate(c, describe);
  }

  /** The active names of the catalogue are the names of its classes with static content. */
  lemma CatalogueActiveNames(describe: PluginClass -> Descriptor)
    ensures ActiveNames(Plugins(describe)) == StaticNames(describe)
  {
    var ps := Plugins(describe);
    ActiveAreStatic(describe);
    forall n | n in StaticNames(describe) ensures n in ActiveNames(ps) {
      StaticAreActive(describe, n);
    }
  }

  /** `PackagesPlugin` is instantiated twice, alike, and its second entry adds no active name. */
  lemma CatalogueDuplicate(describe: PluginClass -> Descriptor)
    ensures Plugins(describe)[4] == Plugins(describe)[7]
    ensures ActiveNames(Without(Plugins(describe), 7)) == ActiveNames(Plugins(describe))
  {
    var ps := Plugins(describe);
    assert ps[4] == Instantiate(PackagesPlugin, describe) == ps[7];
    ActiveNamesIgnoreDuplicates(ps, 4, 7);
  }

  /** A position at which the plugin catalogue lists class `c`. */
  function CatalogueIndex(c: PluginClass): (i: nat)
    ensures i < |PluginClasses| && PluginClasses[i] == c
  {
    match c
    case OpenSansFontPlugin => 0
    case DefectsPlugin => 1
    case XunitPlugin => 2
    case BehaviorsPlugin => 3
    case PackagesPlugin => 4
    case TimelinePlugin => 5
    case GraphPlugin => 6
    case IssueModule => 8
    case TmsModule => 9
  }

  /** The list handed downstream: the five modules, then the ten catalogue plugins, in order. */
  lemma CatalogueContributors(inputs: seq<Path>, describe: PluginClass -> Descriptor)
    ensures Contributors(Modules(inputs), Plugins(describe)) ==
      [FromModule(ConfigModule(inputs)), FromModule(JacksonMapperModule), FromModule(WriterModule),
       FromModule(EnvironmentPlugin), FromModule(TotalPlugin)] +
      seq(|PluginClasses|, i requires 0 <= i < |PluginClasses| => FromPlugin(Instantiate(PluginClasses[i], describe)))
  {
    var ms := Modules(inputs);
    var ps := Plugins(describe);
    var all := Contributors(ms, ps);
    var expected := [FromModule(ConfigModule(inputs)), FromModule(JacksonMapperModule), FromModule(WriterModule),
       FromModule(EnvironmentPlugin), FromModule(TotalPlugin)] +
      seq(|PluginClasses|, i requires 0 <= i < |PluginClasses| => FromPlugin(Instantiate(PluginClasses[i], describe)));
    assert |all| == |expected| == 15;
    forall k | 0 <= k < 15 ensures all[k] == expected[k] {
      if k < 5 {
        assert all[k] == FromModule(ms[k]);
      } else {
        assert all[5 + (k - 5)] == FromPlugin(ps[k - 5]);
      }
    }
  }
}
