/**
 * Template jobs (`tplate`) and gathering them from the configuration
 * (`gatherTemplates`): pick the one acquisition mode the configuration
 * sets, list its jobs, then load each job's contents and open its target
 * in turn, stopping at the first failure.
 */
module Templates {
  import opened Wrappers
  import opened Order
  import opened Paths
  import opened FileSystem
  import opened Inputs
  import opened Walk

  /** The name given to the job whose text comes from the `Input` setting itself. */
  const ArgName: string := "<arg>"

  /** A job whose contents are loaded and whose target is open. */
  datatype Ready = Ready(name: string, targetPath: string, contents: string, target: Target)

  /** `ready` is `job` completed: same names, contents kept when preset, target opened at `targetPath`. */
  predicate Prepared(job: Job, ready: Ready)
  {
    ready.name == job.name && ready.targetPath == job.targetPath &&
    (job.contents != [] ==> ready.contents == job.contents) &&
    (ready.target == Stdout <==> job.targetPath == StdStream) &&
    (ready.target.OutFile? ==> ready.target.path == job.targetPath)
  }

  /** What `loadContents` leaves in `contents`: kept when already set, read from `name` otherwise. */
  function LoadJob(ns: Namespace, stdin: string, job: Job): Result<string, ErrorKind>
  {
    if job.contents != [] then Ok(job.contents) else ReadInput(ns, stdin, job.name)
  }

  /** One job of `processTemplates`: `loadContents`, then `addTarget` with mode 0644. */
  function Step(ns: Namespace, stdin: string, job: Job): (r: (Result<Ready, ErrorKind>, Namespace))
    ensures r.0.Ok? ==> Prepared(job, r.0.value)
  {
    match LoadJob(ns, stdin, job)
    case Err(e) => (Err(e), ns)
    case Ok(c) =>
      var res := OpenOut(ns, job.targetPath, DefaultMode);
      match res.0
      case Err(e) => (Err(e), res.1)
      case Ok(t) => (Ok(Ready(job.name, job.targetPath, c, t)), res.1)
  }

  /**
   * `processTemplates` over the jobs in order: every job prepared, or the
   * first failure together with the namespace as it stood then.
   */
  function ProcessAll(ns: Namespace, stdin: string, jobs: seq<Job>): (r: (Result<seq<Ready>, ErrorKind>, Namespace))
    ensures r.0.Ok? ==> |r.0.value| == |jobs|
    ensures r.0.Ok? ==> forall k :: 0 <= k < |jobs| ==> Prepared(jobs[k], r.0.value[k])
    decreases |jobs|
  {
    if jobs == [] then (Ok([]), ns)
    else
      var before := ProcessAll(ns, stdin, jobs[..|jobs| - 1]);
      if before.0.Err? then before
      else
        var last := Step(before.1, stdin, jobs[|jobs| - 1]);
        if last.0.Err? then (Err(last.0.error), last.1)
        else (Ok(before.0.value + [last.0.value]), last.1)
  }

  /** The configuration fields this layer reads. */
  datatype Config = Config(
    input: string,
    inputFiles: seq<string>,
    outputFiles: seq<string>,
    inputDir: string,
    outputDir: string,
    excludeGlob: seq<string>)

  predicate SingleMode(cfg: Config) { cfg.input != [] }

  predicate ListMode(cfg: Config) { cfg.inputFiles != [] }

  predicate DirMode(cfg: Config) { cfg.inputDir != [] || cfg.outputDir != [] }

  /** More than one acquisition mode is configured. */
  predicate Conflicting(cfg: Config)
  {
    (SingleMode(cfg) && ListMode(cfg)) || (SingleMode(cfg) && DirMode(cfg)) || (ListMode(cfg) && DirMode(cfg))
  }

  /** Nothing is configured at all. */
  predicate NoMode(cfg: Config)
  {
    cfg.input == [] && cfg.inputFiles == [] && cfg.outputFiles == [] && cfg.inputDir == [] && cfg.outputDir == []
  }

  /**
   * The jobs the configuration asks for, before loading: the `Input` text
   * to `Stdout` (or to the first output file), one job per input/output
   * pair, or one per file of the input directory.
   */
  function Plan(cfg: Config, ns: Namespace): (r: Result<seq<Job>, ErrorKind>)
    ensures r.Err? <==>
      Conflicting(cfg) ||
      (DirMode(cfg) && (cfg.inputDir == [] || cfg.outputDir == [] || cfg.inputDir !in ns.dirs)) ||
      (!SingleMode(cfg) && !DirMode(cfg) && |cfg.inputFiles| != |cfg.outputFiles|)
    ensures r.Err? ==> r.error == if Conflicting(cfg) || cfg.inputDir == [] || cfg.outputDir == [] || !DirMode(cfg) then ConfigError else NotFound
    ensures NoMode(cfg) ==> r == Ok([])
    ensures SingleMode(cfg) && r.Ok? ==>
      |r.value| == 1 && r.value[0].name == ArgName && r.value[0].contents == cfg.input &&
      r.value[0].targetPath == if cfg.outputFiles == [] then StdStream else cfg.outputFiles[0]
    ensures ListMode(cfg) && r.Ok? ==>
      |r.value| == |cfg.inputFiles| == |cfg.outputFiles| &&
      forall k :: 0 <= k < |r.value| ==>
        r.value[k] == Job(cfg.inputFiles[k], cfg.outputFiles[k], [])
    ensures DirMode(cfg) && r.Ok? ==>
      StrictlySorted(Names(r.value)) &&
      (forall f :: f in Names(r.value) <==> Selected(ns, cfg.inputDir, cfg.excludeGlob, f)) &&
      forall k :: 0 <= k < |r.value| ==>
        r.value[k].contents == [] && Below(r.value[k].name, cfg.inputDir) &&
        r.value[k].targetPath == Rebase(r.value[k].name, cfg.inputDir, cfg.outputDir)
  {
    var single, list, dir := SingleMode(cfg), ListMode(cfg), DirMode(cfg);
    if Conflicting(cfg) then Err(ConfigError)
    else if single then
      Ok([Job(ArgName, if cfg.outputFiles == [] then StdStream else cfg.outputFiles[0], cfg.input)])
    else if dir then
      if cfg.inputDir == [] || cfg.outputDir == [] then Err(ConfigError)
      else WalkDir(ns, cfg.inputDir, cfg.outputDir, cfg.excludeGlob)
    else if |cfg.inputFiles| != |cfg.outputFiles| then Err(ConfigError)
    else Ok(seq(|cfg.inputFiles|, k requires 0 <= k < |cfg.inputFiles| => Job(cfg.inputFiles[k], cfg.outputFiles[k], [])))
  }

  /** `gatherTemplates` over a namespace value: the prepared jobs (or the error) and the namespace afterwards. */
  function Gather(cfg: Config, ns: Namespace, stdin: string): (r: (Result<seq<Ready>, ErrorKind>, Namespace))
    ensures Plan(cfg, ns).Err? ==> r == (Err(Plan(cfg, ns).error), ns)
    ensures r.0.Ok? ==>
      Plan(cfg, ns).Ok? && |r.0.value| == |Plan(cfg, ns).value| &&
      forall k :: 0 <= k < |r.0.value| ==> Prepared(Plan(cfg, ns).value[k], r.0.value[k])
  {
    match Plan(cfg, ns)
    case Err(e) => (Err(e), ns)
    case Ok(jobs) => ProcessAll(ns, stdin, jobs)
  }

  /** A `*tplate`: source name, target path, and the contents and target filled in later. */
  class Template {
    var name: string
    var targetPath: string
    var contents: string
    var target: Option<Target>

    constructor (name: string, targetPath: string, contents: string)
      ensures this.name == name && this.targetPath == targetPath && this.contents == contents
      ensures target == None
    {
      this.name := name;
      this.targetPath := targetPath;
      this.contents := contents;
      target := None;
    }

    /** The job this template stands for. */
    function AsJob(): Job
      reads this
    {
      Job(name, targetPath, contents)
    }

    /** `loadContents`: read the source named `name` unless the contents are already set. */
    method LoadContents(fs: MemFs, stdin: string) returns (err: Option<ErrorKind>)
      modifies this`contents
      ensures var loaded := LoadJob(fs.View(), stdin, old(AsJob()));
        (loaded.Ok? ==> contents == loaded.value && err == None) &&
        (loaded.Err? ==> contents == old(contents) && err == Some(loaded.error))
    {
      if contents == [] {
        var r := ReadInput(fs.View(), stdin, name);
        if r.Err? {
          return Some(r.error);
        }
        contents := r.value;
      }
      return None;
    }

    /** `addTarget`: open `targetPath` unless a target is already attached. */
    method AddTarget(fs: MemFs) returns (err: Option<ErrorKind>)
      modifies this`target, fs
      ensures old(target).Some? ==> target == old(target) && err == None && fs.View() == old(fs.View())
      ensures old(target).None? ==>
        var res := OpenOut(old(fs.View()), targetPath, DefaultMode);
        fs.View() == res.1 &&
        (res.0.Ok? ==> target == Some(res.0.value) && err == None) &&
        (res.0.Err? ==> target == None && err == Some(res.0.error))
    {
      if target.Some? {
        return None;
      }
      var r := OpenOutFile(fs, targetPath, DefaultMode);
      if r.Err? {
        return Some(r.error);
      }
      target := Some(r.value);
      return None;
    }

    /** The template matches `ready` field by field. */
    ghost predicate Holds(ready: Ready)
      reads this
    {
      name == ready.name && targetPath == ready.targetPath &&
      contents == ready.contents && target == Some(ready.target)
    }
  }

  /**
   * One round of `processTemplates`: a new template for `job`, its contents
   * loaded and its target added, or the first error.
   */
  method Process(job: Job, fs: MemFs, stdin: string) returns (r: Result<Template, ErrorKind>)
    modifies fs
    ensures var s := Step(old(fs.View()), stdin, job);
      fs.View() == s.1 && r.Ok? == s.0.Ok? &&
      (r.Ok? ==> fresh(r.value) && r.value.Holds(s.0.value)) &&
      (r.Err? ==> r.error == s.0.error)
  {
    var t := new Template(job.name, job.targetPath, job.contents);
    var err := t.LoadContents(fs, stdin);
    if err.Some? {
      return Err(err.value);
    }
    err := t.AddTarget(fs);
    if err.Some? {
      return Err(err.value);
    }
    return Ok(t);
  }

  /** Processing one more job: the step runs on the namespace the earlier jobs left. */
  lemma ProcessAllExtend(ns: Namespace, stdin: string, jobs: seq<Job>, i: nat)
    requires i < |jobs|
    requires ProcessAll(ns, stdin, jobs[..i]).0.Ok?
    ensures var before := ProcessAll(ns, stdin, jobs[..i]);
      var last := Step(before.1, stdin, jobs[i]);
      ProcessAll(ns, stdin, jobs[..i + 1]) ==
        if last.0.Err? then (Err(last.0.error), last.1) else (Ok(before.0.value + [last.0.value]), last.1)
  {
    assert jobs[..i + 1][..i] == jobs[..i];
  }

  /**
   * `processTemplates`: one template per job, in order, each with its
   * contents loaded and its target added, stopping at the first error.
   */
  method ProcessTemplates(jobs: seq<Job>, fs: MemFs, stdin: string) returns (r: Result<seq<Template>, ErrorKind>)
    modifies fs
    ensures var p := ProcessAll(old(fs.View()), stdin, jobs);
      fs.View() == p.1 && r.Ok? == p.0.Ok? &&
      (r.Err? ==> r.error == p.0.error) &&
      (r.Ok? ==> |r.value| == |p.0.value| && forall k :: 0 <= k < |r.value| ==> fresh(r.value[k]) && r.value[k].Holds(p.0.value[k]))
  {
    ghost var ns0 := fs.View();
    var ts: seq<Template> := [];
    for i := 0 to |jobs|
      invariant var p := ProcessAll(ns0, stdin, jobs[..i]);
        p.0.Ok? && p.1 == fs.View() && |ts| == i &&
        forall k :: 0 <= k < i ==> fresh(ts[k]) && ts[k].Holds(p.0.value[k])
    {
      ProcessAllExtend(ns0, stdin, jobs, i);
      var t := Process(jobs[i], fs, stdin);
      if t.Err? {
        ProcessAllStopsAtError(ns0, stdin, jobs, i + 1);
        return Err(t.error);
      }
      ts := ts + [t.value];
    }
    assert jobs[..|jobs|] == jobs;
    return Ok(ts);
  }

  /**
   * `gatherTemplates(cfg)`: the templates of the configured mode, each with
   * its contents loaded and its target open, or the first error.
   */
  method GatherTemplates(cfg: Config, fs: MemFs, stdin: string) returns (r: Result<seq<Template>, ErrorKind>)
    modifies fs
    ensures var g := Gather(cfg, old(fs.View()), stdin);
      fs.View() == g.1 && r.Ok? == g.0.Ok? &&
      (r.Err? ==> r.error == g.0.error) &&
      (r.Ok? ==> |r.value| == |g.0.value| && forall k :: 0 <= k < |r.value| ==> fresh(r.value[k]) && r.value[k].Holds(g.0.value[k]))
  {
    var plan := Plan(cfg, fs.View());
    if plan.Err? {
      return Err(plan.error);
    }
    r := ProcessTemplates(plan.value, fs, stdin);
  }

  /** Once a prefix of the jobs has failed, the whole run fails the same way and changes nothing more. */
  lemma {:induction false} ProcessAllStopsAtError(ns: Namespace, stdin: string, jobs: seq<Job>, m: nat)
    requires m <= |jobs|
    requires ProcessAll(ns, stdin, jobs[..m]).0.Err?
    ensures ProcessAll(ns, stdin, jobs) == ProcessAll(ns, stdin, jobs[..m])
    decreases |jobs| - m
  {
    if m < |jobs| {
      var shorter := jobs[..|jobs| - 1];
      assert shorter[..m] == jobs[..m];
      ProcessAllStopsAtError(ns, stdin, shorter, m);
    } else {
      assert jobs[..m] == jobs;
    }
  }

  /** No job of `jobs` creates a file named `q` (writing to `Stdout` creates none). */
  predicate NotWrittenBy(jobs: seq<Job>, q: string)
  {
    forall k :: 0 <= k < |jobs| ==> jobs[k].targetPath != q || q == StdStream
  }

  /** A path no job writes reads the same after processing as before. */
  lemma {:induction false} ProcessAllKeepsUnwritten(ns: Namespace, stdin: string, jobs: seq<Job>, q: string)
    requires NotWrittenBy(jobs, q)
    ensures ReadInput(ProcessAll(ns, stdin, jobs).1, stdin, q) == ReadInput(ns, stdin, q)
    decreases |jobs|
  {
    if jobs != [] {
      var before := ProcessAll(ns, stdin, jobs[..|jobs| - 1]);
      ProcessAllKeepsUnwritten(ns, stdin, jobs[..|jobs| - 1], q);
      if before.0.Ok? {
        var last := jobs[|jobs| - 1];
        if LoadJob(before.1, stdin, last).Ok? && q != StdStream {
          OpenOutKeepsOthers(before.1, last.targetPath, DefaultMode, stdin, q);
        }
      }
    }
  }

  /**
   * When no job overwrites a file that a later job reads, every job's
   * contents are exactly what loading it from the original namespace gives.
   */
  lemma {:induction false} ProcessAllReadsOriginal(ns: Namespace, stdin: string, jobs: seq<Job>)
    requires forall l :: 0 <= l < |jobs| ==> NotWrittenBy(jobs[..l], jobs[l].name)
    requires ProcessAll(ns, stdin, jobs).0.Ok?
    ensures forall k :: 0 <= k < |jobs| ==>
      LoadJob(ns, stdin, jobs[k]) == Ok(ProcessAll(ns, stdin, jobs).0.value[k].contents)
    decreases |jobs|
  {
    if jobs != [] {
      var n := |jobs| - 1;
      var prefix := jobs[..n];
      var before := ProcessAll(ns, stdin, prefix);
      assert before.0.Ok?;
      forall l | 0 <= l < n
        ensures NotWrittenBy(prefix[..l], prefix[l].name)
      {
        assert prefix[..l] == jobs[..l];
      }
      ProcessAllReadsOriginal(ns, stdin, prefix);
      ProcessAllKeepsUnwritten(ns, stdin, prefix, jobs[n].name);
      assert LoadJob(before.1, stdin, jobs[n]) == LoadJob(ns, stdin, jobs[n]);
      var last := Step(before.1, stdin, jobs[n]);
      var out := ProcessAll(ns, stdin, jobs).0.value;
      assert out == before.0.value + [last.0.value];
      assert LoadJob(ns, stdin, jobs[n]) == Ok(out[n].contents);
    }
  }

  /**
   * Fail fast: a job that must read a file that does not exist, and that
   * no earlier job creates, makes the whole run fail.
   */
  lemma ProcessAllMissingInput(ns: Namespace, stdin: string, jobs: seq<Job>, k: nat)
    requires k < |jobs| && jobs[k].contents == [] && jobs[k].name != StdStream && jobs[k].name !in ns.files
    requires NotWrittenBy(jobs[..k], jobs[k].name)
    ensures ProcessAll(ns, stdin, jobs).0.Err?
  {
    var upTo := jobs[..k + 1];
    assert upTo[..k] == jobs[..k];
    ProcessAllKeepsUnwritten(ns, stdin, jobs[..k], jobs[k].name);
    ProcessAllStopsAtError(ns, stdin, jobs, k + 1);
  }

  /** Processing keeps the namespace a tree. */
  lemma {:induction false} ProcessAllWellFormed(ns: Namespace, stdin: string, jobs: seq<Job>)
    requires WellFormed(ns)
    ensures WellFormed(ProcessAll(ns, stdin, jobs).1)
    decreases |jobs|
  {
    if jobs != [] {
      var before := ProcessAll(ns, stdin, jobs[..|jobs| - 1]);
      ProcessAllWellFormed(ns, stdin, jobs[..|jobs| - 1]);
      var last := jobs[|jobs| - 1];
      if before.0.Ok? && LoadJob(before.1, stdin, last).Ok? && last.targetPath != StdStream && CanCreate(before.1, last.targetPath) {
        CreateWellFormed(before.1, last.targetPath, DefaultMode);
      }
    }
  }

  /** Every job can be loaded: its contents are preset, or it reads standard input or an existing file. */
  predicate Loadable(ns: Namespace, jobs: seq<Job>)
  {
    forall k :: 0 <= k < |jobs| ==> jobs[k].contents != [] || jobs[k].name == StdStream || jobs[k].name in ns.files
  }

  /**
   * Every file target can be created in turn: it is named, is no directory
   * and lies below no file, and no target lies in a directory that is
   * another target.
   */
  predicate Openable(ns: Namespace, jobs: seq<Job>)
  {
    forall k :: 0 <= k < |jobs| && jobs[k].targetPath != StdStream ==>
      jobs[k].targetPath != [] && jobs[k].targetPath !in ns.dirs &&
      Ancestors(jobs[k].targetPath) !! ns.files.Keys &&
      forall l :: 0 <= l < |jobs| && jobs[l].targetPath != StdStream ==> jobs[l].targetPath !in Ancestors(jobs[k].targetPath)
  }

  /** The files the jobs write. */
  function Targets(jobs: seq<Job>): (r: set<string>)
    ensures forall k :: 0 <= k < |jobs| && jobs[k].targetPath != StdStream ==> jobs[k].targetPath in r
    ensures forall t :: t in r ==> exists k :: 0 <= k < |jobs| && jobs[k].targetPath != StdStream && jobs[k].targetPath == t
  {
    set k | 0 <= k < |jobs| && jobs[k].targetPath != StdStream :: jobs[k].targetPath
  }

  /** The directories that creating the jobs' files registers. */
  function TargetDirs(jobs: seq<Job>): (r: set<string>)
    ensures forall k :: 0 <= k < |jobs| && jobs[k].targetPath != StdStream ==> Ancestors(jobs[k].targetPath) <= r
    ensures forall d :: d in r ==> exists k :: 0 <= k < |jobs| && jobs[k].targetPath != StdStream && d in Ancestors(jobs[k].targetPath)
  {
    set k, d | 0 <= k < |jobs| && jobs[k].targetPath != StdStream && d in Ancestors(jobs[k].targetPath) :: d
  }

  /** What the jobs before the last one need, and what they leave for it. */
  lemma PrefixOpenable(ns: Namespace, jobs: seq<Job>)
    requires jobs != [] && Loadable(ns, jobs) && Openable(ns, jobs)
    ensures var pre, t := jobs[..|jobs| - 1], jobs[|jobs| - 1].targetPath;
      Loadable(ns, pre) && Openable(ns, pre) &&
      Targets(pre) <= Targets(jobs) && TargetDirs(pre) <= TargetDirs(jobs) &&
      (t != StdStream ==> t !in TargetDirs(pre) && Ancestors(t) !! Targets(pre))
  {
    var n := |jobs| - 1;
    var pre, t := jobs[..n], jobs[n].targetPath;
    assert forall k :: 0 <= k < n ==> pre[k] == jobs[k];
    forall d | d in TargetDirs(pre)
      ensures d in TargetDirs(jobs)
    {
      var k :| 0 <= k < n && pre[k].targetPath != StdStream && d in Ancestors(pre[k].targetPath);
      assert jobs[k] == pre[k];
    }
    if t != StdStream {
      forall k | 0 <= k < n && pre[k].targetPath != StdStream
        ensures t !in Ancestors(pre[k].targetPath) && pre[k].targetPath !in Ancestors(t)
      {
        assert jobs[k] == pre[k];
      }
    }
  }

  /**
   * Processing succeeds when every job can be loaded and every target
   * opened; it removes no file and creates no file or directory beyond
   * the targets and the directories above them.
   */
  lemma {:induction false} ProcessAllSucceeds(ns: Namespace, stdin: string, jobs: seq<Job>)
    requires Loadable(ns, jobs) && Openable(ns, jobs)
    ensures var r := ProcessAll(ns, stdin, jobs);
      r.0.Ok? &&
      ns.files.Keys <= r.1.files.Keys <= ns.files.Keys + Targets(jobs) &&
      r.1.dirs <= ns.dirs + TargetDirs(jobs)
    decreases |jobs|
  {
    if jobs != [] {
      var n := |jobs| - 1;
      var pre, last := jobs[..n], jobs[n];
      PrefixOpenable(ns, jobs);
      ProcessAllSucceeds(ns, stdin, pre);
      var before := ProcessAll(ns, stdin, pre);
      assert LoadJob(before.1, stdin, last).Ok?;
      if last.targetPath != StdStream {
        assert CanCreate(before.1, last.targetPath);
      }
      StepWithin(before.1, stdin, last);
    }
  }

  /** A step that can load and open its job succeeds, adding at most its target and the directories above it. */
  lemma StepWithin(ns: Namespace, stdin: string, job: Job)
    requires LoadJob(ns, stdin, job).Ok?
    requires job.targetPath != StdStream ==> CanCreate(ns, job.targetPath)
    ensures var s := Step(ns, stdin, job);
      s.0.Ok? &&
      (job.targetPath == StdStream ==> s.1 == ns) &&
      (job.targetPath != StdStream ==>
        s.1.files.Keys == ns.files.Keys + {job.targetPath} && s.1.dirs == ns.dirs + Ancestors(job.targetPath))
  {
  }

  /** Loading twice gives what loading once gave. */
  lemma LoadJobIdempotent(ns: Namespace, stdin: string, job: Job)
    requires LoadJob(ns, stdin, job).Ok?
    ensures LoadJob(ns, stdin, job.(contents := LoadJob(ns, stdin, job).value)) == LoadJob(ns, stdin, job)
  {
  }

  /** With nothing configured there are no templates, no error, and nothing is created. */
  lemma GatherNoMode(cfg: Config, ns: Namespace, stdin: string)
    requires NoMode(cfg)
    ensures Gather(cfg, ns, stdin) == (Ok([]), ns)
  {
  }

  /** More than one mode at once is a configuration error. */
  lemma GatherModesExclusive(cfg: Config, ns: Namespace, stdin: string)
    requires Conflicting(cfg)
    ensures Gather(cfg, ns, stdin) == (Err(ConfigError), ns)
  {
  }

  /**
   * `Input` alone gives one template holding the `Input` text itself,
   * written to `Stdout` unless an output file is named.
   */
  lemma GatherSingle(cfg: Config, ns: Namespace, stdin: string)
    requires SingleMode(cfg) && !ListMode(cfg) && !DirMode(cfg)
    ensures var g := Gather(cfg, ns, stdin);
      cfg.outputFiles == [] ==> g == (Ok([Ready(ArgName, StdStream, cfg.input, Stdout)]), ns)
    ensures var g := Gather(cfg, ns, stdin);
      g.0.Ok? ==> |g.0.value| == 1 && g.0.value[0].contents == cfg.input && g.0.value[0].name == ArgName
    ensures var g := Gather(cfg, ns, stdin);
      cfg.outputFiles != [] && g.0.Ok? ==>
        g.0.value[0].targetPath == cfg.outputFiles[0] &&
        (g.0.value[0].target == Stdout <==> cfg.outputFiles[0] == StdStream)
  {
    var jobs := Plan(cfg, ns).value;
    assert jobs[..0] == [];
    if cfg.outputFiles == [] {
      var ready := Ready(ArgName, StdStream, cfg.input, Stdout);
      assert Step(ns, stdin, jobs[0]) == (Ok(ready), ns);
      assert ProcessAll(ns, stdin, jobs[..0]) == (Ok([]), ns);
      assert [] + [ready] == [ready];
      assert ProcessAll(ns, stdin, jobs) == (Ok([ready]), ns);
    }
  }

  /** Input and output lists of different lengths are a configuration error. */
  lemma GatherListMismatch(cfg: Config, ns: Namespace, stdin: string)
    requires !SingleMode(cfg) && !DirMode(cfg) && |cfg.inputFiles| != |cfg.outputFiles|
    ensures Gather(cfg, ns, stdin) == (Err(ConfigError), ns)
  {
  }

  /**
   * Paired lists give one template per pair, in order, each loaded from
   * its input file as it was before gathering (when no pair's output is
   * the input of a later pair) and sent to its output file, or to
   * `Stdout` for `-`.
   */
  lemma GatherList(cfg: Config, ns: Namespace, stdin: string)
    requires !SingleMode(cfg) && !DirMode(cfg) && |cfg.inputFiles| == |cfg.outputFiles|
    requires forall k, l :: 0 <= k < l < |cfg.inputFiles| ==>
      cfg.outputFiles[k] != cfg.inputFiles[l] || cfg.inputFiles[l] == StdStream
    requires Gather(cfg, ns, stdin).0.Ok?
    ensures var out := Gather(cfg, ns, stdin).0.value;
      |out| == |cfg.inputFiles| &&
      forall k :: 0 <= k < |out| ==>
        out[k].name == cfg.inputFiles[k] && out[k].targetPath == cfg.outputFiles[k] &&
        Ok(out[k].contents) == ReadInput(ns, stdin, cfg.inputFiles[k]) &&
        (out[k].target == Stdout <==> cfg.outputFiles[k] == StdStream) &&
        (out[k].target.OutFile? ==> out[k].target.path == cfg.outputFiles[k])
  {
    var jobs := Plan(cfg, ns).value;
    forall l | 0 <= l < |jobs|
      ensures NotWrittenBy(jobs[..l], jobs[l].name)
    {
      assert forall k :: 0 <= k < l ==> jobs[..l][k] == jobs[k];
    }
    ProcessAllReadsOriginal(ns, stdin, jobs);
  }

  /** A paired input file that does not exist (and is no output) makes gathering fail. */
  lemma GatherListMissingInput(cfg: Config, ns: Namespace, stdin: string, k: nat)
    requires !SingleMode(cfg) && !DirMode(cfg) && |cfg.inputFiles| == |cfg.outputFiles|
    requires k < |cfg.inputFiles| && cfg.inputFiles[k] != StdStream && cfg.inputFiles[k] !in ns.files
    requires forall l :: 0 <= l < k ==> cfg.outputFiles[l] != cfg.inputFiles[k]
    ensures Gather(cfg, ns, stdin).0.Err?
  {
    var jobs := Plan(cfg, ns).value;
    ProcessAllMissingInput(ns, stdin, jobs, k);
  }

  /** Directory mode with an input directory that does not exist fails with NotFound and creates nothing. */
  lemma GatherDirMissing(cfg: Config, ns: Namespace, stdin: string)
    requires !SingleMode(cfg) && !ListMode(cfg) && cfg.inputDir != [] && cfg.outputDir != []
    requires cfg.inputDir !in ns.dirs
    ensures Gather(cfg, ns, stdin) == (Err(NotFound), ns)
  {
  }

  /**
   * Directory mode gives one template per selected file, sorted by name,
   * each loaded with the file's contents and sent to the same relative
   * place under the output directory (when no target is the input of a
   * later job).
   */
  lemma GatherDir(cfg: Config, ns: Namespace, stdin: string)
    requires !SingleMode(cfg) && !ListMode(cfg) && cfg.inputDir != [] && cfg.outputDir != []
    requires Gather(cfg, ns, stdin).0.Ok?
    requires var jobs := WalkDir(ns, cfg.inputDir, cfg.outputDir, cfg.excludeGlob);
      jobs.Ok? ==> forall l :: 0 <= l < |jobs.value| ==> NotWrittenBy(jobs.value[..l], jobs.value[l].name)
    ensures var out := Gather(cfg, ns, stdin).0.value;
      var jobs := WalkDir(ns, cfg.inputDir, cfg.outputDir, cfg.excludeGlob).value;
      |out| == |jobs| &&
      forall k :: 0 <= k < |out| ==>
        out[k].name == jobs[k].name &&
        Selected(ns, cfg.inputDir, cfg.excludeGlob, out[k].name) &&
        out[k].targetPath == Rebase(out[k].name, cfg.inputDir, cfg.outputDir) &&
        out[k].name in ns.files && out[k].contents == ns.files[out[k].name].contents
  {
    var jobs := WalkDir(ns, cfg.inputDir, cfg.outputDir, cfg.excludeGlob).value;
    ProcessAllReadsOriginal(ns, stdin, jobs);
    forall k | 0 <= k < |jobs|
      ensures Selected(ns, cfg.inputDir, cfg.excludeGlob, jobs[k].name)
    {
      assert jobs[k].name in Names(jobs);
    }
  }
}
