# gomplate template sources and targets, in Dafny

This project models the layer of gomplate that decides which files become
templates and where each template's output goes. It works against an
in-memory file namespace, which stands in for the package-global afero
`fs`:

- `inList` checks list membership.
- `readInput` reads a source. The path `-` means standard input.
- `openOutFile` creates an output file. The path `-` means `Stdout`.
- `executeCombinedGlob` combines the exclusion globs into one sorted list
  with no duplicates.
- `walkDir` turns an input directory into one pending template per
  remaining file. Each template is re-rooted under the output directory,
  and the templates are sorted by name.
- The `*tplate` methods `loadContents` and `addTarget` fill in a
  template's contents and its target.
- `gatherTemplates` picks one acquisition mode from the configuration:
  none, a single `Input`, paired `InputFiles`/`OutputFiles`, or
  `InputDir`/`OutputDir`. It lists that mode's templates, then loads
  and opens each one in turn.

The model follows the assertions of `template_test.go`. Each test is
replayed as a lemma or a method on the file tree its configuration sees.
The one place where that tree differs from the test's shared file system
is listed under "Left out".

Modules, one per file:

- `Wrappers` (wrappers.dfy): `Option` and `Result`.
- `Order` (order.dfy): byte-wise string order, `sort.Strings` of a set.
- `Paths` (paths.dfy): below a directory, relative path, re-rooting,
  segments, ancestors.
- `Glob` (glob.dfy): the `*`-within-a-segment part of `filepath.Match`.
- `FileSystem` (filesystem.dfy): the namespace value and the `MemFs` class
  (the global `fs`, updated in place).
- `Inputs` (inputs.dfy): `readInput`, `openOutFile`.
- `Walk` (walk.dfy): `inList`, `executeCombinedGlob`, `walkDir`.
- `Templates` (templates.dfy): the `Template` class (`*tplate`), job
  processing, `gatherTemplates`.
- `ScenarioSupport`, `ScenarioTrees` (scenario_support.dfy,
  scenario_trees.dfy): the trees the tests write, and facts about them.
- `WalkScenarios`, `InputScenarios`, `GatherScenarios`: the tests replayed.

Standard input is a `stdin: string` parameter. `Stdout` is the target
value `Stdout`. The global `fs` is a `MemFs` object, or its `View()`
value for the functions.

Directory mode loads contents and opens targets like the other modes do,
because template_test.go:177 checks the first template's contents.

## Model

| member | source | states |
|---|---|---|
| Walk.InList | template_test.go:62-74 | `inList(list, s)` holds exactly when `s` is an element of `list`, so the empty list holds nothing, not even `""` |
| InputScenarios.InListExample | template_test.go:62-74 | the empty list does not hold `""`; `[foo baz qux]` does not hold `bar`; `[foo bar baz]` does |
| Inputs.ReadInput | template_test.go:27-39 | `-` gives the whole of standard input; any other path gives the file's contents verbatim when it is a file, and NotFound exactly when it is not |
| Inputs.ReadAfterWrite | template_test.go:21-29 | what was written to a file that could be created is what reading it gives back |
| InputScenarios.ReadInputScenario | template_test.go:16-40 | on the test's tree, reading /tmp/foo gives "foo", reading `-` with "bar" on standard input gives "bar", and reading bogus fails with NotFound |
| Inputs.OpenOut | template_test.go:48-59 | `-` gives `Stdout` and leaves the namespace alone; any other path succeeds exactly when a file can be created there, and then yields that file, created or truncated; otherwise it fails with WriteError and changes nothing |
| Inputs.OpenOutFile | template_test.go:48-59 | the result and the new state of the global `fs` are exactly what `OpenOut` gives for the old state |
| Inputs.OpenOutCreates | template_test.go:48-52 | a file opened for output that did not exist is there afterwards, empty, with the requested mode |
| Inputs.OpenOutKeepsOthers | template_test.go:48-52 | opening an output changes what no other path reads |
| InputScenarios.OpenOutFileScenario | template_test.go:42-60 | after Mkdir /tmp, opening /tmp/foo with 0644 yields that file, whose mode is then 0644; opening `-` yields `Stdout` |
| FileSystem.WithDir | template_test.go:80-82 | `MkdirAll` leaves the files alone; when neither the path nor a directory above it is a file, the directories become exactly the old ones plus the path and its ancestors, and otherwise nothing changes |
| FileSystem.WithDirWellFormed | template_test.go:80-82 | making a directory keeps the namespace a tree |
| FileSystem.Create | template_test.go:48-52 | O_CREATE/O_TRUNC: the file exists and is empty; a new file gets the requested mode and an old one keeps its own; the file set gains exactly the path and no other file changes; the directories gain exactly the file's ancestors |
| FileSystem.WithFile | template_test.go:83-85 | `WriteFile`, when the file can be created: the file set gains exactly the path, the path holds the data with the mode `Create` gives it, every other file is unchanged, and the directories gain exactly the path's ancestors; when it cannot, nothing changes |
| FileSystem.CreateWellFormed | template_test.go:83-85 | creating a file keeps the namespace a tree: every entry's parents are directories, and no name is both a file and a directory |
| FileSystem.WithFileWellFormed | template_test.go:83-85 | writing a file keeps the namespace a tree |
| FileSystem.MemFs.constructor | template_test.go:19 | a new `MemMapFs` is empty |
| FileSystem.MemFs.MkdirAll | template_test.go:80-82 | the new state of the global `fs` is `WithDir` of the old one |
| FileSystem.MemFs.OpenFile | template_test.go:48 | reports whether the file can be created; on success the new state is `Create` of the old one, otherwise the state is unchanged |
| FileSystem.MemFs.WriteFile | template_test.go:83-85 | the new state of the global `fs` is `WithFile` of the old one |
| Glob.StarMatchesAll | template_test.go:87 | a lone `*` matches every path segment |
| Glob.SegmentMatch | template_test.go:87 | a pattern segment without `*` matches exactly itself |
| Glob.PrefixStar | template_test.go:87 | `lit*` (as `o*`) matches exactly the segments that start with `lit` |
| Glob.Matches | template_test.go:106 | a pattern without `*` matches one path only: itself |
| Paths.JoinSegmentsOfSegments | template_test.go:87 | splitting a path on `/` loses nothing: joining the segments gives the path back |
| Paths.SegmentsOfJoinSegments | template_test.go:87 | joining separator-free segments and splitting again gives the same segments |
| Paths.Rel | template_test.go:110-113 | the path below a directory is that directory's prefix followed by the non-empty relative part |
| Paths.Rebase | template_test.go:110-113 | the re-rooted path lies below the output root, at the same relative place the input had below the input root |
| Paths.RebaseRoundTrip | template_test.go:110-113 | re-rooting back to the input root gives the input path again |
| Paths.RebaseInjective | template_test.go:110-113 | two different inputs are never sent to the same output path |
| Paths.BelowTransitive | template_test.go:106 | a path below a directory that is below `d` is below `d` |
| Paths.AncestorsTransitive | template_test.go:80-85 | the ancestors of an ancestor are ancestors too |
| Order.LessIrreflexive | template_test.go:89 | no string sorts before itself |
| Order.LessTransitive | template_test.go:89 | the string order is transitive |
| Order.LessTotal | template_test.go:89 | of two different strings, one sorts first |
| Order.MinimumExists | template_test.go:89 | every non-empty finite set of strings has a least element |
| Order.Min | template_test.go:89 | the least element belongs to the set and sorts before every other element |
| Order.SortSet | template_test.go:89 | a set's sorted listing holds exactly its elements, each once, in strictly ascending order |
| Order.StrictlySortedUnique | template_test.go:89 | two strictly sorted lists with the same elements are equal, so the listing is unique |
| Order.LessAfterCommonPrefix | template_test.go:110-112 | a shared prefix does not change which of two strings sorts first |
| Walk.GlobMatches | template_test.go:87 | `afero.Glob` gives only entries that exist; a pattern without `*` gives itself when it exists and nothing otherwise |
| Walk.MatchedSet | template_test.go:87-89 | the union contains every pattern's `afero.Glob` result and only entries some pattern's result contains, so exactly the entries matched by at least one pattern |
| Walk.CombinedGlob | template_test.go:87-89 | the combined list holds exactly the entries matched by at least one pattern, in strictly ascending order (so each appears once) |
| Walk.ExecuteCombinedGlob | template_test.go:87-89 | the loop over the patterns returns exactly the matched entries, strictly ascending, equal to `CombinedGlob` |
| Walk.CombinedGlobOrderIndependent | template_test.go:87-89 | the order and repetition of the patterns do not change the result |
| Walk.CombinedGlobAppend | template_test.go:87-89 | the list for `a + b` holds exactly what the lists for `a` and for `b` hold |
| Walk.SelectedFiles | template_test.go:106-109 | the files the walk keeps are exactly the files below the root that are not, and do not lie under, an entry some exclude pattern matches |
| Walk.WalkDir | template_test.go:97-113 | NotFound exactly when the root is not a directory; otherwise exactly the kept files, strictly sorted by name, each below the root and re-rooted under the output directory |
| Walk.WalkDirTargetsDistinct | template_test.go:106-113 | no two jobs of a walk write to the same target |
| Walk.WalkDirOneJobPerFile | template_test.go:106-109 | every file gives at most one job |
| Walk.WalkDirSkipsExcluded | template_test.go:106-109 | a file that an exclude pattern matches, or that lies under a matched entry, gives no job |
| Walk.WalkDirMoreExcludes | template_test.go:106-109 | more exclude patterns only ever remove jobs |
| WalkScenarios.PatternOneMatchesA | template_test.go:83-89 | `/tmp/o*/*` matches /tmp/one/a |
| WalkScenarios.PatternTwoMatchesB | template_test.go:84-89 | `/*/*/b` matches /tmp/two/b |
| WalkScenarios.GlobTreeMisses | template_test.go:80-89 | neither pattern matches /, /tmp, the three directories or /tmp/three/c |
| WalkScenarios.CombinedGlobExample | template_test.go:76-90 | on `GlobTree()` (which `TestExecuteCombinedGlob` builds through `MemFs` calls), the two patterns give exactly `[/tmp/one/a /tmp/two/b]` |
| WalkScenarios.TestExecuteCombinedGlob | template_test.go:76-90 | on a fresh file system after the test's three `MkdirAll` and three `WriteFile` calls, `executeCombinedGlob` of the two patterns returns exactly `[/tmp/one/a /tmp/two/b]` |
| WalkScenarios.ExcludeMatchesTwo | template_test.go:101-106 | `/*/two` matches /indir/two |
| WalkScenarios.WalkTreeMisses | template_test.go:100-106 | `/*/two` matches no other entry of the walk tree |
| WalkScenarios.WalkTreeSelected | template_test.go:100-109 | the walk of /indir keeps exactly /indir/one/bar and /indir/one/foo |
| WalkScenarios.WalkTreeNames | template_test.go:106-112 | the walk succeeds and lists bar before foo |
| WalkScenarios.WalkDirExample | template_test.go:92-114 | walking /indir on an empty namespace fails with NotFound; on `WalkTree()` (which `TestWalkDir` builds through `MemFs` calls) it gives exactly the bar job and then the foo job, targeted at /outdir/one/bar and /outdir/one/foo |
| WalkScenarios.TestWalkDir | template_test.go:92-114 | on a fresh file system the walk of /indir fails; after the test's two `MkdirAll` and three `WriteFile` calls it gives two jobs, /indir/one/bar to /outdir/one/bar and then /indir/one/foo to /outdir/one/foo |
| Templates.Step | template_test.go:123-137 | a job that loads and opens comes back with the same name and target path, preset contents kept, and a target that is `Stdout` exactly for `-` and otherwise the file at its target path |
| Templates.ProcessAll | template_test.go:150-177 | on success, one prepared template per job, in job order |
| Templates.LoadJobIdempotent | template_test.go:123-126 | loading a job that is already loaded changes nothing |
| Templates.Template.constructor | template_test.go:123 | a new `tplate` holds the given name, target path and contents, and no target |
| Templates.Template.LoadContents | template_test.go:123-126 | when loading succeeds the contents are the loaded text and there is no error; when it fails the contents are unchanged and the error is reported |
| Templates.Template.AddTarget | template_test.go:134-137 | a template that has a target keeps it and leaves the file system alone; otherwise the target path is opened with 0644, and the template gets that target or the error |
| Templates.Process | template_test.go:150-177 | one round: the file system becomes `Step`'s namespace, and the result is a fresh template that matches `Step`'s prepared job, or `Step`'s error |
| Templates.ProcessTemplates | template_test.go:150-177 | the loop leaves the file system as `ProcessAll` does, and fails exactly when it fails, with the same error; on success, fresh templates that match its prepared jobs one for one |
| Templates.GatherTemplates | template_test.go:150-177 | the file system and the result are `Gather`'s: the error, or one fresh template per gathered job, in order |
| Templates.ProcessAllExtend | template_test.go:150-177 | processing one more job runs its step on the namespace the earlier jobs left |
| Templates.ProcessAllStopsAtError | template_test.go:150-177 | once a prefix of the jobs has failed, the whole run fails the same way and changes nothing more |
| Templates.ProcessAllKeepsUnwritten | template_test.go:162-169 | a path that no job writes reads the same after processing as before |
| Templates.ProcessAllReadsOriginal | template_test.go:162-177 | when processing succeeds and no job writes a file that a later job reads, every template's contents are what loading its job from the original namespace gives |
| Templates.ProcessAllMissingInput | template_test.go:162-169 | a job that must read a missing file, which no earlier job creates, makes the run fail |
| Templates.ProcessAllWellFormed | template_test.go:150-177 | processing keeps the namespace a tree |
| Templates.Targets | template_test.go:162-177 | the set holds exactly the jobs' file targets: every target other than `-`, and nothing else |
| Templates.TargetDirs | template_test.go:162-177 | the set holds exactly the ancestors of the jobs' file targets |
| Templates.PrefixOpenable | template_test.go:162-177 | the jobs before the last are still loadable and openable, and the last target clashes with none of their files or directories |
| Templates.ProcessAllSucceeds | template_test.go:150-177 | when every job can be loaded and every target opened, processing succeeds; it removes no file, and adds only the targets and their directories |
| Templates.Plan | template_test.go:150-177 | fails exactly when two modes are set, when directory mode lacks a directory or its input directory does not exist (NotFound, the rest ConfigError), or when the paired lists differ in length; nothing configured plans nothing; `Input` plans one `<arg>` job to the first output file or `-`; paired lists plan one job per pair; directory mode plans the walk's sorted, selected, re-rooted files |
| Templates.Gather | template_test.go:150-177 | a planning error is returned with the file system unchanged; on success each gathered template is its planned job prepared, in plan order |
| Templates.GatherNoMode | template_test.go:150-152 | an empty configuration gives no templates, no error, and leaves the file system unchanged |
| Templates.GatherModesExclusive | template_test.go:150-177 | a configuration that sets two modes is an error |
| Templates.GatherSingle | template_test.go:154-160 | `Input` alone gives one template holding the `Input` text; without output files that is exactly one `<arg>` template to `Stdout`, and the file system is unchanged; with output files it goes to the first one, to `Stdout` exactly when that one is `-` |
| Templates.GatherListMismatch | template_test.go:162-169 | input and output lists of different lengths are an error |
| Templates.GatherList | template_test.go:162-169 | when gathering succeeds and no pair's output is the input of a later pair (writing a pair's output over its own input is allowed), paired lists give one template per pair, in order, loaded from the input as it was before gathering, sent to `Stdout` exactly for `-` and otherwise to the output file |
| Templates.GatherListMissingInput | template_test.go:162-169 | a paired input file that does not exist, and is not written by an earlier pair, makes gathering fail |
| Templates.GatherDirMissing | template_test.go:171-177 | directory mode on a missing input directory fails with NotFound and changes nothing |
| Templates.GatherDir | template_test.go:171-177 | when gathering succeeds and no template's target is the input of a later template, directory mode gives one template per file the walk keeps, in name order, holding that file's contents and targeted at its re-rooted path |
| InputScenarios.LoadContentsScenario | template_test.go:116-127 | after writing "contents" to foo, a template named foo loads with no error and holds "contents" |
| InputScenarios.AddTargetScenario | template_test.go:129-138 | on an empty file system, a template for /out/outfile gets that file as its target, with no error |
| GatherScenarios.GatherNothingExample | template_test.go:150-152 | an empty `Config` on `GatherTree()` gives no templates and changes nothing |
| GatherScenarios.GatherInputExample | template_test.go:154-160 | on `GatherTree()`, `Input: "foo"` gives exactly one template holding "foo", whose target is `Stdout` |
| GatherScenarios.GatherListExample | template_test.go:162-169 | on `GatherTree()`, `InputFiles: [foo]` with `OutputFiles: [out]` gives one template holding "bar" (foo's contents), whose target is the file out rather than `Stdout` |
| GatherScenarios.DirWalk | template_test.go:146-148 | walking in on `GatherTree()` gives in/1, in/2 and in/3 in that order, targeted at out/1, out/2 and out/3 |
| GatherScenarios.GatherDirExample | template_test.go:171-177 | on `GatherTree()`, `InputDir: in` with `OutputDir: out` gives three templates, holding "foo", "bar" and "baz" in that order, targeted at out/1, out/2 and out/3 |
| GatherScenarios.WriteGatherTree | template_test.go:140-145 | the test's four `WriteFile` calls on a fresh file system leave it holding exactly `GatherTree()` |
| GatherScenarios.GatherNothingOn | template_test.go:150-152 | on a file system holding `GatherTree()`, `gatherTemplates(&Config{})` gives no templates and no error, and the file system still holds `GatherTree()` |
| GatherScenarios.GatherInputOn | template_test.go:154-160 | on a file system holding `GatherTree()`, `Input: "foo"` gives one template holding "foo" whose target is `Stdout`, and the file system still holds `GatherTree()` |
| GatherScenarios.GatherListOn | template_test.go:162-169 | on a file system holding `GatherTree()`, the paired lists give one template holding "bar" whose target is not `Stdout` |
| GatherScenarios.GatherDirOn | template_test.go:171-177 | on a file system holding `GatherTree()`, directory mode gives three templates, the first holding "foo" |
| GatherScenarios.TestGatherTemplates | template_test.go:140-178 | the test's four calls and their assertions: no templates; one holding "foo" to `Stdout`; one holding "bar" not to `Stdout`; three, the first holding "foo" |

## Left out

- Real I/O, afero's internals, stream handles and their closing: the
  file system is a value and the `MemFs` object; standard input is a
  string parameter; `Stdout` is a target value.
- The full `filepath.Match` syntax (`?`, character classes, escapes,
  malformed-pattern errors): only `*` within one segment is modelled,
  because the tests use nothing else.
- `filepath.Clean`: paths are compared as written, and `in`, `out`,
  `/indir` and `/outdir` are all already clean.
- Read failures other than a missing file. The test's /tmp/unreadable is
  readable in a `MemMapFs`, so it is an ordinary file here.
- `fs.Mkdir` (template_test.go:20, 46) is modelled by `MkdirAll`. Both
  give the same result for /tmp in an empty file system.
- Permission bits beyond the mode a file gets when it is created.
  Truncating an existing file keeps that file's mode.
- Windows behaviour: the test file is built with `!windows`.
- Template rendering, and how flags and configuration files are parsed
  into the `Config` record.
- How the tests swap and restore the globals `fs`, `stdin` and `Stdout`
  with `defer`.
- FileSystem.WithDir: `MkdirAll` of a path that is, or lies below, a
  file is modelled as changing nothing. How `MemMapFs` registers a
  directory below a file is not modelled; no test does that.
- Inputs.ReadInput: standard input is a fixed `stdin` string, and every
  read of `-` gives all of it. In Go `stdin` is a stream, so a second
  read of `-` in one run would give the empty text.
- Templates.ProcessAll: passes the same `stdin` to every job, so two
  jobs reading `-` both load the whole of standard input. In Go the
  second one would load the empty text. The tests read `-` at most once
  per run.
- The single mode reads only `OutputFiles[0]`. Any further output files
  are ignored rather than rejected.
- A relative input directory is walked by its name as given. No
  working-directory resolution is modelled.
- GatherScenarios.GatherDirExample: runs each `gatherTemplates`
  configuration on the tree as the test writes it. It does not run them
  one after the other on one shared file system.
  - In template_test.go the list-mode call (lines 162-169) first creates
    the file out. The directory-mode call (lines 171-177) then writes
    out/1 under that file, which afero's `MemMapFs` permits.
  - In the model a file can never lie below another file, so run in that
    order the directory mode would fail with WriteError.
- GatherScenarios.TestGatherTemplates: runs the first three
  configurations on one shared file system, as the test does, but the
  directory mode on a freshly written one, for the reason just given.
