# Report generator orchestration, modelled in Dafny

This project models `ReportGenerator`, the class that builds an Allure report
directory. `generate(output)` runs these steps in order:

1. Create the output root. A failure throws `AllureException("Could not create output directory")`.
2. Build two result sources per input directory: an Allure 1 source, then a JUnit source.
3. Collect into a set the names of the catalogue plugins that report static content.
4. Render `index.html` from a data model whose only key is `plugins`.
5. Copy every packaged resource named `allure<name>/<remainder>` to `output/plugins/<name>/<remainder>`, for each active name.
6. Hand the sources, the module list followed by the plugin list, and the output directory to the processing stage.

Only step 1 can stop the build. A failure in step 4, or in one plugin's unpack, is logged and the build goes on.

The output tree is a value `Tree`: a set of directory paths and a map from
file path to bytes. A path is a sequence of names. The class
`FileTree.FileSystem` holds that tree and changes it in place through three
operations:

- `Files.createDirectories`: fails when some path on the way is a file.
- `Files.copy` without `REPLACE_EXISTING`: fails when the destination exists.
- Opening a file with `CREATE` only: the file is written from its start and is not truncated.

Each method is specified by a function on `Tree`. The loops (the copy loop of
`unpackReportPlugin` and the `forEach` over the active names) are proved
against functions that recurse over the prefix of the sequence already
processed.

The packaged resources are a manifest: a sequence of resources, each with a name and its bytes. Bytes may be missing, which stands for a stream that cannot be opened. The class-path scan itself may also fail.

Three things outside the class are parameters (`Generator.Env`):

- `describe`: what each plugin class reports about its name and static content.
- The scan result.
- `render`: the template, an opaque function from the data model to bytes or to a failure.

The processing stage is not run. `Generator.Handoff` records what it receives and the tree as it stands at that moment.

Modules: `Wrappers` (Option), `FileTree` (tree, file-system operations, the
`FileSystem` class), `Registry` (catalogues, sources, active names,
contributors), `Unpacker` (resource matching, destinations, the copy loop and
its lemmas), `Generator` (entry page, the whole build `Build`, the
`ReportGenerator` class and the end-to-end lemmas).

Assumptions the model states instead of checking:

- A plugin name is spliced into the pattern `^allure<name>/(.+)` literally. The model treats it as literal text, which is right only when the name has no regular-expression metacharacters.
- `.` is modelled exactly. It matches any character but a line terminator (`\n`, `\r`, U+0085, U+2028, U+2029), so the captured remainder stops at the first line terminator. A name whose character right after the namespace is a line terminator does not match.
- Plugin names are non-empty and contain no `/`. For such a name, `pluginsDir.resolve(name)` appends exactly one path name, and the model appends the name as one path name for every name. For other names the model's directory is not the program's: `resolve("")` returns `pluginsDir` itself, and a name holding `/` resolves to several names. The isolation and order lemmas then do not describe the program. For example, take the names `""` and `"a"` with the resources `allure/a/x` and `allurea/x`. The program sends both to `output/plugins/a/x`, so whichever is unpacked second fails.
- A remainder does not start with `/`. Such a remainder comes from a resource named `allure<name>//x`. `resolve("/x")` returns the absolute path `/x`, outside the output directory, whereas the model drops the empty leading part and copies below the plugin's directory.
- `resolve(remainder)` appends the `/`-separated parts of the remainder. Empty parts are dropped, as repeated and trailing separators are. `.` and `..` are kept as ordinary names.
- `/` is the only name separator, as on Unix. The other separators and drive-letter paths of Windows are not modelled.
- The class-path scan returns the same manifest each time it is called.
- The active-name set is iterated in an order the model does not fix. `Generate` returns that order as a ghost value, and every lemma about `Build` holds for every order that lists each active name once. Each plugin writes only into its own directory (`Unpacker.UnpackAllLayout`), so its unpack fails or succeeds as it would alone (`Unpacker.UnpackAllIsolated`). For names as the assumptions above describe, the order therefore changes nothing: the run ends with the same outcome and the same tree (`Generator.BuildOrderFree`).

Two points of the code that a reader might expect to work otherwise:

- Resources are matched with the regular expression at ReportGenerator.java:117, not with a plain prefix test. Its `.+` stops at the first line terminator.
- Only the root creation ends the build. Entry-page and unpack errors are logged and the build goes on.

## Model

| member | source | states |
|---|---|---|
| FileTree.CreateDirs | generator/src/main/java/org/allurefw/report/ReportGenerator.java:152 | creating a directory chain succeeds exactly when no path on the way is a file; on success exactly the path and its ancestors are added and files are untouched; on failure nothing changes; the tree stays well formed |
| FileTree.CopyNew | generator/src/main/java/org/allurefw/report/ReportGenerator.java:126 | a copy without replace succeeds exactly when nothing exists at the destination and its parent is a directory; the new file holds the given bytes and no other entry changes |
| FileTree.Overlay | generator/src/main/java/org/allurefw/report/ReportGenerator.java:140 | writing without truncation leaves the new bytes as a prefix, followed by the old bytes beyond them; the length is the larger of the two |
| FileTree.WriteCreate | generator/src/main/java/org/allurefw/report/ReportGenerator.java:140 | opening with CREATE fails exactly when the path is a directory or its parent is not one; otherwise the file holds the old contents overlaid with the data, created if missing, and nothing else changes |
| FileTree.FileSystem.CreateDirectories | generator/src/main/java/org/allurefw/report/ReportGenerator.java:152 | the in-place update and its result are those of CreateDirs |
| FileTree.FileSystem.Copy | generator/src/main/java/org/allurefw/report/ReportGenerator.java:126 | the in-place update and its result are those of CopyNew |
| FileTree.FileSystem.OpenAndWrite | generator/src/main/java/org/allurefw/report/ReportGenerator.java:140 | the in-place update and its result are those of WriteCreate |
| Registry.ResultSources | generator/src/main/java/org/allurefw/report/ReportGenerator.java:65-67 | exactly two sources per input, Allure 1 at position 2i and JUnit at 2i+1 for input i; empty for no inputs |
| Registry.SourcesCoverInputs | generator/src/main/java/org/allurefw/report/ReportGenerator.java:65-67 | a source is in the list exactly when it names one of the inputs, in either format |
| Registry.Plugins | generator/src/main/java/org/allurefw/report/ReportGenerator.java:90-103 | one instance per catalogue entry, in catalogue order, each carrying the name and static-content flag its class reports |
| Registry.ActiveNames | generator/src/main/java/org/allurefw/report/ReportGenerator.java:69-73 | a name is active exactly when some plugin with static content carries it |
| Registry.ActiveNamesIgnoreDuplicates | generator/src/main/java/org/allurefw/report/ReportGenerator.java:69-73 | dropping an entry that is listed again does not change the active set |
| Registry.CatalogueActiveNames | generator/src/main/java/org/allurefw/report/ReportGenerator.java:90-103 | for the fixed catalogue, the active set is exactly the set of names of its classes that report static content |
| Registry.CatalogueDuplicate | generator/src/main/java/org/allurefw/report/ReportGenerator.java:96-99 | the two PackagesPlugin entries of the catalogue are equal, and dropping the second leaves the active set unchanged |
| Registry.Contributors | generator/src/main/java/org/allurefw/report/ReportGenerator.java:82-84 | the modules in order, then the plugins in order, and nothing else |
| Registry.Modules | generator/src/main/java/org/allurefw/report/ReportGenerator.java:105-113 | five distinct modules, `ConfigModule` carrying the inputs first and the only one of its kind |
| Registry.CatalogueContributors | generator/src/main/java/org/allurefw/report/ReportGenerator.java:82-113 | the contributor list is exactly ConfigModule(inputs), JacksonMapperModule, WriterModule, EnvironmentPlugin, TotalPlugin, followed by one instance of each of the ten catalogue entries in catalogue order |
| Unpacker.LinePrefix | generator/src/main/java/org/allurefw/report/ReportGenerator.java:117 | what a greedy `.+` consumes: the longest prefix free of line terminators, ending at a line terminator or at the end |
| Unpacker.MatchResource | generator/src/main/java/org/allurefw/report/ReportGenerator.java:117-122 | the pattern is found exactly when the name starts with `allure<name>/` followed by a character that is not a line terminator; the capture is non-empty, follows the namespace, and is followed by a line terminator or the end |
| Unpacker.MatchIsPrefixSplit | generator/src/main/java/org/allurefw/report/ReportGenerator.java:117-122 | for names without line terminators, the capture is r exactly when the name is `allure<name>/` + r with r non-empty |
| Unpacker.NamespacesDisjoint | generator/src/main/java/org/allurefw/report/ReportGenerator.java:117 | two different plugin names without `/` never both match the same resource |
| Unpacker.Segments | generator/src/main/java/org/allurefw/report/ReportGenerator.java:123 | resolving a remainder appends only non-empty names without `/` |
| Unpacker.SegmentsOfJoin | generator/src/main/java/org/allurefw/report/ReportGenerator.java:123 | splitting a `/`-joined list of non-empty names gives the list back |
| Unpacker.Destination | generator/src/main/java/org/allurefw/report/ReportGenerator.java:123 | the destination lies below the plugin directory, and every name below it is a non-empty name without `/` taken from the remainder |
| Unpacker.CopyResource | generator/src/main/java/org/allurefw/report/ReportGenerator.java:124-127 | one matched resource succeeds exactly when it is readable, no path on the way to its parent is a file, and nothing exists at the destination; on success the destination holds its bytes below an existing directory; only files at or below the destination, and directories on its path or below it, change; nothing is removed |
| Unpacker.UnpackFrom | generator/src/main/java/org/allurefw/report/ReportGenerator.java:119-130 | the copy loop over a prefix of the manifest only adds to the tree, changes directories only at or around the plugin directory and files only below it, and keeps the tree well formed |
| Unpacker.UnpackPlugin | generator/src/main/java/org/allurefw/report/ReportGenerator.java:115-134 | a failed scan copies nothing and fails; otherwise it is the copy loop over the whole manifest |
| Unpacker.UnpackDelivers | generator/src/main/java/org/allurefw/report/ReportGenerator.java:119-128 | after a loop without error, every matched resource was readable and is at its destination with identical bytes, with the parent directory present |
| Unpacker.UnpackStopsAtFailure | generator/src/main/java/org/allurefw/report/ReportGenerator.java:119-133 | once the loop has failed, later resources change nothing |
| Unpacker.UnpackFailsAt | generator/src/main/java/org/allurefw/report/ReportGenerator.java:119-133 | a failed loop stopped at one matched resource: all before it succeeded and its failed copy was the last step |
| Unpacker.UnpackFromNext | generator/src/main/java/org/allurefw/report/ReportGenerator.java:119-129 | after turns that all succeeded, one more turn leaves a non-matching resource alone and performs the copy of a matching one |
| Unpacker.UnpackNoMatch | generator/src/main/java/org/allurefw/report/ReportGenerator.java:119-130 | a plugin none of whose resources match changes nothing and logs nothing; in particular no plugin directory is made |
| Unpacker.UnpackAll | generator/src/main/java/org/allurefw/report/ReportGenerator.java:76-80 | unpacking the names one after another only adds to the tree, keeps it well formed, and reports failures only for names it unpacked; where it writes is stated by UnpackAllLayout |
| Unpacker.UnpackAllLayout | generator/src/main/java/org/allurefw/report/ReportGenerator.java:76-80 | every file the run adds or changes lies below `pluginsDir/<n>` for a visited name n; every directory it adds does too, or is on the way to `pluginsDir` |
| Unpacker.UnpackAllLeavesOthers | generator/src/main/java/org/allurefw/report/ReportGenerator.java:76-80 | nothing at or below `plugins/<m>` changes when m is not among the names unpacked |
| Unpacker.UnpackAllDelivers | generator/src/main/java/org/allurefw/report/ReportGenerator.java:76-80 | a name whose unpack did not fail has all its resources in place with identical bytes, whatever the other plugins did |
| Unpacker.UnpackPluginRespects | generator/src/main/java/org/allurefw/report/ReportGenerator.java:115-134 | a plugin's unpack fails, and leaves its directory, alike in any two trees that agree at and around that directory |
| Unpacker.UnpackPluginElsewhere | generator/src/main/java/org/allurefw/report/ReportGenerator.java:115-134 | unpacking one plugin leaves everything at, above and below another plugin's directory as it was |
| Unpacker.UnpackAllIsolated | generator/src/main/java/org/allurefw/report/ReportGenerator.java:76-80 | for distinct names, each plugin's unpack fails exactly when, and leaves its directory exactly as, unpacking it alone into the starting tree would |
| Unpacker.UnpackFromWay | generator/src/main/java/org/allurefw/report/ReportGenerator.java:119-130 | from two trees that agree at and around a plugin's directory, the copy loop makes a directory on the way to it in the second tree exactly when it was there already or the loop makes it from the first tree |
| Unpacker.UnpackAllWay | generator/src/main/java/org/allurefw/report/ReportGenerator.java:76-80 | for distinct names, a missing directory on the way to `pluginsDir` exists after the run exactly when one of the names, unpacked alone into the starting tree, makes it |
| Unpacker.UnpackAllOrderFree | generator/src/main/java/org/allurefw/report/ReportGenerator.java:76-80 | two visiting orders of the same distinct names give the same result: the same failed names and the same tree |
| Generator.IndexDataModel | generator/src/main/java/org/allurefw/report/ReportGenerator.java:142-143 | the template data model has the single key `plugins`, bound to the active names |
| Generator.WriteIndex | generator/src/main/java/org/allurefw/report/ReportGenerator.java:136-147 | an error is logged exactly when the render fails or `index.html` cannot be opened; on success `index.html` holds the page over any older bytes; no other entry changes |
| Generator.Build | generator/src/main/java/org/allurefw/report/ReportGenerator.java:62-88 | the build aborts exactly when a path on the way to the output root is a file, with the given message and nothing written; otherwise the root exists, nothing but `index.html` is lost or changed, and the handoff holds the result sources of the inputs in order, the modules followed by the ten catalogue plugins, the output path and the final tree; where new entries go is stated by BuildLayout |
| Generator.BuildLeavesInactiveAlone | generator/src/main/java/org/allurefw/report/ReportGenerator.java:69-80 | nothing at or below `output/plugins/<m>` is created or changed for a name m that no plugin with static content carries |
| Generator.BuildDelivers | generator/src/main/java/org/allurefw/report/ReportGenerator.java:76-80 | for any visiting order that includes a name, if the build completes and that name's unpack logged nothing, the scan succeeded and every resource matching the name is at `output/plugins/<name>/<remainder>` with identical bytes |
| Generator.BuildOrderFree | generator/src/main/java/org/allurefw/report/ReportGenerator.java:69-80 | any two orders that list each active name once give the same run: the same outcome, logged errors, handoff and tree |
| Generator.BuildLayout | generator/src/main/java/org/allurefw/report/ReportGenerator.java:62-80 | every file the build adds or changes is `index.html` or lies below `output/plugins/<n>` for a visited name n; every directory it adds is on the way to `output/plugins` or below such a plugin's directory |
| Generator.BuildIndexPage | generator/src/main/java/org/allurefw/report/ReportGenerator.java:136-147 | when no path on the way to the output root is a file, the entry-page error is logged exactly when the render fails or `index.html` is a directory; otherwise the emitted bytes overlay any older `index.html`, and a fresh output holds exactly the page |
| Generator.ReportGenerator.constructor | generator/src/main/java/org/allurefw/report/ReportGenerator.java:58-60 | the generator keeps the input directories it is given, in order |
| Generator.ReportGenerator.CreateDirectory | generator/src/main/java/org/allurefw/report/ReportGenerator.java:150-156 | creates the directory chain as CreateDirs does and returns an error carrying the given message exactly when that fails |
| Generator.ReportGenerator.WriteIndexHtml | generator/src/main/java/org/allurefw/report/ReportGenerator.java:136-147 | the in-place update and the logged flag are those of WriteIndex on the data model of the given names |
| Generator.ReportGenerator.UnpackReportPlugin | generator/src/main/java/org/allurefw/report/ReportGenerator.java:115-134 | the loop, with its early exit on the first error, yields exactly UnpackPlugin's tree and result |
| Generator.ReportGenerator.CopyMatched | generator/src/main/java/org/allurefw/report/ReportGenerator.java:124-127 | the in-place update and result of handling one matched resource are those of CopyResource |
| Generator.ReportGenerator.UnpackActive | generator/src/main/java/org/allurefw/report/ReportGenerator.java:76-80 | visits every active name once, in some order, and yields UnpackAll's tree and failed set for that order |
| Generator.ReportGenerator.Generate | generator/src/main/java/org/allurefw/report/ReportGenerator.java:62-88 | the run is `Build` for the order in which the active names were visited; when the build completes, that order lists each active name exactly once |

## Left out

- Guice injector construction and the processing stage (`ProcessStage.run`): a foreign container and downstream logic. The model records the handoff and does not run it, so exceptions from the stage are not modelled.
- FreeMarker configuration and template loading: the render is an opaque function of the data model. A failure may carry the bytes already emitted, which reach the file when the writer is closed.
- Class-path scanning, class loaders and URL streams: replaced by an explicit manifest. Opening a resource stream either works or fails before anything is done for that resource. A stream that fails part-way through a copy is not modelled.
- Logging: recorded only as an outcome flag (entry-page error) and a set of names whose unpack failed.
- The bodies of the plugin, module and result classes: they are tagged values. What each plugin class reports about itself is a parameter.
- File-system failures other than structural ones: permissions, full disks, symbolic links and races are not modelled. The only failures are a file in the way of a directory, an existing copy destination, and an `index.html` that is a directory.
- Regular-expression metacharacters in plugin names, empty plugin names and names holding `/`, remainders that start with `/`, the meaning of `..`, and separators other than `/`: for these the model does not do what the program does. The assumptions above name each case and what the program does instead.
- The constructor's varargs array: only its contents, as a sequence, are kept.
