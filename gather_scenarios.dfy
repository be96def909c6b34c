/**
 * `TestGatherTemplates` replayed on the model: the four configurations the
 * test tries, each against the tree the test writes (`GatherTree`).
 */
module GatherScenarios {
  import opened Wrappers
  import opened Order
  import opened Paths
  import opened FileSystem
  import opened Inputs
  import opened Walk
  import opened Templates
  import opened ScenarioSupport
  import opened ScenarioTrees

  /** Nothing configured gives no templates and leaves the file system as it was. */
  lemma GatherNothingExample(stdin: string)
    ensures Gather(Config("", [], [], "", "", []), GatherTree(), stdin) == (Ok([]), GatherTree())
  {
    GatherNoMode(Config("", [], [], "", "", []), GatherTree(), stdin);
  }

  /** `Input: "foo"` gives one template whose contents are the text "foo" itself, written to `Stdout`. */
  lemma GatherInputExample(stdin: string)
    ensures Gather(Config("foo", [], [], "", "", []), GatherTree(), stdin) ==
      (Ok([Ready(ArgName, StdStream, "foo", Stdout)]), GatherTree())
  {
    GatherSingle(Config("foo", [], [], "", "", []), GatherTree(), stdin);
  }

  lemma ListJobs(ns: Namespace)
    ensures Plan(Config("", ["foo"], ["out"], "", "", []), ns) == Ok([Job("foo", "out", "")])
  {
    var cfg := Config("", ["foo"], ["out"], "", "", []);
    var jobs := seq(|cfg.inputFiles|, k requires 0 <= k < |cfg.inputFiles| => Job(cfg.inputFiles[k], cfg.outputFiles[k], []));
    assert jobs == [Job("foo", "out", "")];
  }

  lemma ListReady()
    ensures Loadable(GatherTree(), [Job("foo", "out", "")])
    ensures Openable(GatherTree(), [Job("foo", "out", "")])
  {
    OutTopLevel();
  }

  lemma GatherListSucceeds(stdin: string)
    ensures Gather(Config("", ["foo"], ["out"], "", "", []), GatherTree(), stdin).0.Ok?
  {
    ListJobs(GatherTree());
    ListReady();
    ProcessAllOk(GatherTree(), stdin, [Job("foo", "out", "")]);
    GatherRunsPlan(Config("", ["foo"], ["out"], "", "", []), GatherTree(), stdin, [Job("foo", "out", "")]);
  }

  lemma ListOutput(out: seq<Ready>, stdin: string)
    requires |out| == 1 && Ok(out[0].contents) == ReadInput(GatherTree(), stdin, "foo")
    requires out[0].target != Stdout && (out[0].target.OutFile? ==> out[0].target.path == "out")
    ensures out[0].contents == "bar" && out[0].target == OutFile("out")
  {
    GatherContents();
  }

  /**
   * `InputFiles: ["foo"]` with `OutputFiles: ["out"]` gives one template
   * holding the contents of the file foo, written to the file out rather
   * than to `Stdout`.
   */
  lemma GatherListExample(stdin: string)
    ensures var g := Gather(Config("", ["foo"], ["out"], "", "", []), GatherTree(), stdin);
      g.0.Ok? && |g.0.value| == 1 &&
      g.0.value[0].contents == "bar" && g.0.value[0].target == OutFile("out")
  {
    var cfg := Config("", ["foo"], ["out"], "", "", []);
    GatherListSucceeds(stdin);
    GatherList(cfg, GatherTree(), stdin);
    ListOutput(Gather(cfg, GatherTree(), stdin).0.value, stdin);
  }

  /** The jobs directory mode plans for the directory in. */
  function DirJobs(): seq<Job>
  {
    [Job("in/1", "out/1", ""), Job("in/2", "out/2", ""), Job("in/3", "out/3", "")]
  }

  lemma DirNames()
    ensures WalkDir(GatherTree(), "in", "out", []).Ok?
    ensures Names(WalkDir(GatherTree(), "in", "out", []).value) == ["in/1", "in/2", "in/3"]
  {
    assert "in" in GatherTree().dirs;
    var names := Names(WalkDir(GatherTree(), "in", "out", []).value);
    forall f
      ensures f in names <==> f == "in/1" || f == "in/2" || f == "in/3"
    {
      SelectedWithoutExcludes(GatherTree(), "in", f);
      GatherTreeFiles(f);
    }
    InOrdered();
    SortedThree(names, "in/1", "in/2", "in/3");
  }

  /** Walking in gives in/1, in/2 and in/3 in that order, re-rooted under out. */
  lemma DirWalk()
    ensures WalkDir(GatherTree(), "in", "out", []) == Ok(DirJobs())
  {
    DirNames();
    var jobs := WalkDir(GatherTree(), "in", "out", []).value;
    JobsOfThree(jobs, "in", "out", "in/1", "in/2", "in/3");
    InTargets();
  }

  /** File targets that all sit directly in one directory `d`, itself neither a file nor a target, can all be opened. */
  lemma OpenableInOneDirectory(ns: Namespace, jobs: seq<Job>, d: string)
    requires d !in ns.files
    requires forall k :: 0 <= k < |jobs| ==>
      jobs[k].targetPath != StdStream && jobs[k].targetPath != [] && jobs[k].targetPath != d &&
      jobs[k].targetPath !in ns.dirs && Ancestors(jobs[k].targetPath) == {d}
    ensures Openable(ns, jobs)
  {
  }

  lemma DirTargets()
    ensures forall k :: 0 <= k < |DirJobs()| ==> Ancestors(DirJobs()[k].targetPath) == {"out"}
  {
    forall k | 0 <= k < |DirJobs()|
      ensures Ancestors(DirJobs()[k].targetPath) == {"out"}
    {
      if k == 0 {
        AncestorsOut1();
      } else if k == 1 {
        AncestorsOut2();
      } else {
        AncestorsOut3();
      }
    }
  }

  lemma DirOpenable()
    ensures Openable(GatherTree(), DirJobs())
  {
    DirTargets();
    OpenableInOneDirectory(GatherTree(), DirJobs(), "out");
  }

  lemma DirUnwritten()
    ensures forall l :: 0 <= l < |DirJobs()| ==> NotWrittenBy(DirJobs()[..l], DirJobs()[l].name)
  {
  }

  /** Gathering processes the planned jobs. */
  lemma GatherRunsPlan(cfg: Config, ns: Namespace, stdin: string, jobs: seq<Job>)
    requires Plan(cfg, ns) == Ok(jobs)
    ensures Gather(cfg, ns, stdin) == ProcessAll(ns, stdin, jobs)
  {
  }

  lemma ProcessAllOk(ns: Namespace, stdin: string, jobs: seq<Job>)
    requires Loadable(ns, jobs) && Openable(ns, jobs)
    ensures ProcessAll(ns, stdin, jobs).0.Ok?
  {
    ProcessAllSucceeds(ns, stdin, jobs);
  }

  /** In directory mode the plan is the walk. */
  lemma PlanDir(cfg: Config, ns: Namespace)
    requires !SingleMode(cfg) && !ListMode(cfg) && cfg.inputDir != [] && cfg.outputDir != []
    ensures Plan(cfg, ns) == WalkDir(ns, cfg.inputDir, cfg.outputDir, cfg.excludeGlob)
  {
  }

  lemma DirPlan()
    ensures Plan(Config("", [], [], "in", "out", []), GatherTree()) == Ok(DirJobs())
  {
    PlanDir(Config("", [], [], "in", "out", []), GatherTree());
    DirWalk();
  }

  lemma DirLoadable()
    ensures Loadable(GatherTree(), DirJobs())
  {
  }

  lemma GatherDirSucceeds(stdin: string)
    ensures Gather(Config("", [], [], "in", "out", []), GatherTree(), stdin).0.Ok?
  {
    DirPlan();
    DirLoadable();
    DirOpenable();
    ProcessAllOk(GatherTree(), stdin, DirJobs());
    GatherRunsPlan(Config("", [], [], "in", "out", []), GatherTree(), stdin, DirJobs());
  }

  /** Directory mode, stated for a walk already known to be `jobs`. */
  lemma GatherDirJobs(cfg: Config, ns: Namespace, stdin: string, jobs: seq<Job>)
    requires !SingleMode(cfg) && !ListMode(cfg) && cfg.inputDir != [] && cfg.outputDir != []
    requires WalkDir(ns, cfg.inputDir, cfg.outputDir, cfg.excludeGlob) == Ok(jobs)
    requires Gather(cfg, ns, stdin).0.Ok?
    requires forall l :: 0 <= l < |jobs| ==> NotWrittenBy(jobs[..l], jobs[l].name)
    ensures var out := Gather(cfg, ns, stdin).0.value;
      |out| == |jobs| &&
      forall k :: 0 <= k < |out| ==>
        out[k].targetPath == jobs[k].targetPath && jobs[k].name in ns.files && out[k].contents == ns.files[jobs[k].name].contents
  {
    GatherDir(cfg, ns, stdin);
  }

  lemma DirOutputs(out: seq<Ready>)
    requires |out| == |DirJobs()|
    requires forall k :: 0 <= k < |out| ==>
      out[k].targetPath == DirJobs()[k].targetPath && DirJobs()[k].name in GatherTree().files &&
      out[k].contents == GatherTree().files[DirJobs()[k].name].contents
    ensures |out| == 3
    ensures out[0].contents == "foo" && out[1].contents == "bar" && out[2].contents == "baz"
    ensures out[0].targetPath == "out/1" && out[1].targetPath == "out/2" && out[2].targetPath == "out/3"
  {
    GatherContents();
    assert out[0].contents == GatherTree().files["in/1"].contents;
    assert out[1].contents == GatherTree().files["in/2"].contents;
    assert out[2].contents == GatherTree().files["in/3"].contents;
  }

  /**
   * `InputDir: "in"` with `OutputDir: "out"` gives one template per file of
   * in, in name order, each holding that file's contents and targeted at
   * the same name under out.
   */
  lemma GatherDirExample(stdin: string)
    ensures var g := Gather(Config("", [], [], "in", "out", []), GatherTree(), stdin);
      g.0.Ok? && |g.0.value| == 3 &&
      g.0.value[0].contents == "foo" && g.0.value[1].contents == "bar" && g.0.value[2].contents == "baz" &&
      g.0.value[0].targetPath == "out/1" && g.0.value[1].targetPath == "out/2" && g.0.value[2].targetPath == "out/3"
  {
    GatherDirSucceeds(stdin);
    DirWalk();
    DirUnwritten();
    GatherDirJobs(Config("", [], [], "in", "out", []), GatherTree(), stdin, DirJobs());
    DirOutputs(Gather(Config("", [], [], "in", "out", []), GatherTree(), stdin).0.value);
  }

  /** The test's four `WriteFile` calls on a fresh file system. */
  method WriteGatherTree() returns (fs: MemFs)
    ensures fresh(fs) && fs.View() == GatherTree()
  {
    fs := new MemFs();
    fs.WriteFile("foo", "bar", DefaultMode);
    fs.WriteFile("in/1", "foo", DefaultMode);
    fs.WriteFile("in/2", "bar", DefaultMode);
    fs.WriteFile("in/3", "baz", DefaultMode);
    GatherTreeBuilt();
  }

  /** `gatherTemplates(&Config{})` on the test's tree: nothing, and the tree stays as it was. */
  method GatherNothingOn(fs: MemFs, stdin: string) returns (r: Result<seq<Template>, ErrorKind>)
    requires fs.View() == GatherTree()
    modifies fs
    ensures r.Ok? && |r.value| == 0 && fs.View() == GatherTree()
  {
    GatherNothingExample(stdin);
    r := GatherTemplates(Config("", [], [], "", "", []), fs, stdin);
  }

  /** `gatherTemplates(&Config{Input: "foo"})` on the test's tree: the text "foo" to `Stdout`, and the tree stays as it was. */
  method GatherInputOn(fs: MemFs, stdin: string) returns (r: Result<seq<Template>, ErrorKind>)
    requires fs.View() == GatherTree()
    modifies fs
    ensures r.Ok? && |r.value| == 1 && r.value[0].contents == "foo" && r.value[0].target == Some(Stdout)
    ensures fs.View() == GatherTree()
  {
    GatherInputExample(stdin);
    r := GatherTemplates(Config("foo", [], [], "", "", []), fs, stdin);
  }

  /** The paired-list configuration on the test's tree: foo's contents, to a file rather than `Stdout`. */
  method GatherListOn(fs: MemFs, stdin: string) returns (r: Result<seq<Template>, ErrorKind>)
    requires fs.View() == GatherTree()
    modifies fs
    ensures r.Ok? && |r.value| == 1 && r.value[0].contents == "bar" && r.value[0].target != Some(Stdout)
  {
    GatherListExample(stdin);
    r := GatherTemplates(Config("", ["foo"], ["out"], "", "", []), fs, stdin);
  }

  /** The directory configuration on the test's tree: three templates, the first holding in/1's contents. */
  method GatherDirOn(fs: MemFs, stdin: string) returns (r: Result<seq<Template>, ErrorKind>)
    requires fs.View() == GatherTree()
    modifies fs
    ensures r.Ok? && |r.value| == 3 && r.value[0].contents == "foo"
  {
    GatherDirExample(stdin);
    r := GatherTemplates(Config("", [], [], "in", "out", []), fs, stdin);
  }

  /**
   * `TestGatherTemplates` as the test runs it: the tree is written, then
   * `gatherTemplates` runs the four configurations. The first three share
   * one file system; the directory mode runs on a freshly written one.
   */
  method TestGatherTemplates(stdin: string) returns (none: Result<seq<Template>, ErrorKind>, single: Result<seq<Template>, ErrorKind>,
                                                    list: Result<seq<Template>, ErrorKind>, dir: Result<seq<Template>, ErrorKind>)
    ensures none.Ok? && |none.value| == 0
    ensures single.Ok? && |single.value| == 1 && single.value[0].contents == "foo" && single.value[0].target == Some(Stdout)
    ensures list.Ok? && |list.value| == 1 && list.value[0].contents == "bar" && list.value[0].target != Some(Stdout)
    ensures dir.Ok? && |dir.value| == 3 && dir.value[0].contents == "foo"
  {
    var fs := WriteGatherTree();
    none := GatherNothingOn(fs, stdin);
    single := GatherInputOn(fs, stdin);
    list := GatherListOn(fs, stdin);
    var dirFs := WriteGatherTree();
    dir := GatherDirOn(dirFs, stdin);
  }
}
