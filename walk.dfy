/**
 * Directory mode: combining the exclusion globs into one match list
 * (`executeCombinedGlob`, `inList`) and walking an input directory into
 * one pending job per file (`walkDir`).
 */
module Walk {
  import opened Wrappers
  import opened Order
  import opened Paths
  import opened Glob
  import opened FileSystem
  import opened Inputs

  /** A template job before its contents are loaded and its target opened. */
  datatype Job = Job(name: string, targetPath: string, contents: string)

  /** The source names of `jobs`, in order. */
  function Names(jobs: seq<Job>): (r: seq<string>)
    ensures |r| == |jobs|
    ensures forall k :: 0 <= k < |jobs| ==> r[k] == jobs[k].name
  {
    seq(|jobs|, k requires 0 <= k < |jobs| => jobs[k].name)
  }

  /** `inList`: `s` is one of the elements of `list`. */
  function InList(list: seq<string>, s: string): (r: bool)
    ensures r <==> s in list
  {
    if list == [] then false else list[0] == s || InList(list[1..], s)
  }

  /** `afero.Glob(fs, pattern)`: every file or directory that `pattern` matches. */
  function GlobMatches(ns: Namespace, pattern: string): (r: set<string>)
    ensures r <= ns.Entries()
    ensures Star !in pattern ==> r == if pattern in ns.Entries() then {pattern} else {}
  {
    set q | q in ns.Entries() && Matches(pattern, q)
  }

  /** Reference definition: `q` exists and at least one of `patterns` matches it. */
  predicate MatchedBySome(ns: Namespace, patterns: seq<string>, q: string)
  {
    q in ns.Entries() && exists p :: p in patterns && Matches(p, q)
  }

  /** The union of what `afero.Glob` gives for each pattern. */
  function MatchedSet(ns: Namespace, patterns: seq<string>): (r: set<string>)
    ensures forall p :: p in patterns ==> GlobMatches(ns, p) <= r
    ensures forall q :: q in r ==> exists p :: p in patterns && q in GlobMatches(ns, p)
    ensures forall q :: q in r <==> MatchedBySome(ns, patterns, q)
  {
    set q | q in ns.Entries() && exists p :: p in patterns && Matches(p, q)
  }

  /** The combined match list: each matched path once, in ascending order. */
  function CombinedGlob(ns: Namespace, patterns: seq<string>): (r: seq<string>)
    ensures forall q :: q in r <==> MatchedBySome(ns, patterns, q)
    ensures StrictlySorted(r)
  {
    SortSet(MatchedSet(ns, patterns))
  }

  /**
   * `executeCombinedGlob`: expand each pattern against the global file system
   * in turn, collect the union, and return it sorted without duplicates.
   */
  method ExecuteCombinedGlob(fs: MemFs, patterns: seq<string>) returns (matches: seq<string>)
    ensures forall q :: q in matches <==> MatchedBySome(fs.View(), patterns, q)
    ensures StrictlySorted(matches)
    ensures matches == CombinedGlob(fs.View(), patterns)
  {
    var ns := fs.View();
    var acc: set<string> := {};
    for i := 0 to |patterns|
      invariant forall q :: q in acc <==> q in ns.Entries() && exists k :: 0 <= k < i && Matches(patterns[k], q)
    {
      acc := acc + GlobMatches(ns, patterns[i]);
    }
    assert acc == MatchedSet(ns, patterns) by {
      forall q
        ensures q in acc <==> q in MatchedSet(ns, patterns)
      {
        if q in MatchedSet(ns, patterns) {
          var p :| p in patterns && Matches(p, q);
          var k :| 0 <= k < |patterns| && patterns[k] == p;
        }
      }
    }
    matches := SortSet(acc);
  }

  /** The order and repetition of the patterns do not change the combined list. */
  lemma CombinedGlobOrderIndependent(ns: Namespace, a: seq<string>, b: seq<string>)
    requires forall p :: p in a <==> p in b
    ensures CombinedGlob(ns, a) == CombinedGlob(ns, b)
  {
    assert MatchedSet(ns, a) == MatchedSet(ns, b);
  }

  /** Appending patterns combines exactly the two match lists. */
  lemma CombinedGlobAppend(ns: Namespace, a: seq<string>, b: seq<string>)
    ensures forall q :: q in CombinedGlob(ns, a + b) <==> q in CombinedGlob(ns, a) || q in CombinedGlob(ns, b)
  {
    forall q
      ensures MatchedBySome(ns, a + b, q) <==> MatchedBySome(ns, a, q) || MatchedBySome(ns, b, q)
    {
      if MatchedBySome(ns, a + b, q) {
        var p :| p in a + b && Matches(p, q);
        assert p in a || p in b;
      }
      if MatchedBySome(ns, a, q) {
        var p :| p in a && Matches(p, q);
        assert p in a + b;
      }
      if MatchedBySome(ns, b, q) {
        var p :| p in b && Matches(p, q);
        assert p in a + b;
      }
    }
  }

  /** The walk skips `f`: it, or a directory above it, is in the match list. */
  predicate Excluded(excludes: seq<string>, f: string)
  {
    InList(excludes, f) || exists m :: m in excludes && Below(f, m)
  }

  /**
   * Reference definition of the files a walk of `dir` yields: the files
   * below `dir` such that no pattern matches the file itself or a
   * directory it lies in.
   */
  ghost predicate Selected(ns: Namespace, dir: string, patterns: seq<string>, f: string)
  {
    f in ns.files && Below(f, dir) &&
    forall m :: MatchedBySome(ns, patterns, m) ==> m != f && !Below(f, m)
  }

  /** The files below `dir` that the match list leaves in, by the walk's own test. */
  function SelectedFiles(ns: Namespace, dir: string, excludeGlob: seq<string>): (r: set<string>)
    ensures forall f :: f in r <==> Selected(ns, dir, excludeGlob, f)
  {
    var excludes := CombinedGlob(ns, excludeGlob);
    set f | f in ns.files && Below(f, dir) && !Excluded(excludes, f)
  }

  /** One job per name, targeted at the name's relative place under `outDir`. */
  function JobsFor(names: seq<string>, dir: string, outDir: string): (r: seq<Job>)
    requires forall k :: 0 <= k < |names| ==> Below(names[k], dir)
    ensures Names(r) == names
    ensures forall k :: 0 <= k < |r| ==> r[k].contents == [] && r[k].targetPath == Rebase(names[k], dir, outDir)
  {
    seq(|names|, k requires 0 <= k < |names| => Job(names[k], Rebase(names[k], dir, outDir), []))
  }

  /**
   * `walkDir(dir, outDir, excludeGlob)`: NotFound unless `dir` is a
   * directory; otherwise one job per selected file, named by its path,
   * targeted at the same relative place under `outDir`, sorted by name.
   */
  function WalkDir(ns: Namespace, dir: string, outDir: string, excludeGlob: seq<string>): (r: Result<seq<Job>, ErrorKind>)
    ensures r.Err? <==> dir !in ns.dirs
    ensures r.Err? ==> r.error == NotFound
    ensures r.Ok? ==> StrictlySorted(Names(r.value))
    ensures r.Ok? ==> forall f :: f in Names(r.value) <==> Selected(ns, dir, excludeGlob, f)
    ensures r.Ok? ==> forall k :: 0 <= k < |r.value| ==>
      Below(r.value[k].name, dir) && r.value[k].contents == [] &&
      r.value[k].targetPath == Rebase(r.value[k].name, dir, outDir)
  {
    if dir !in ns.dirs then Err(NotFound)
    else
      var names := SortSet(SelectedFiles(ns, dir, excludeGlob));
      assert forall k :: 0 <= k < |names| ==> Selected(ns, dir, excludeGlob, names[k]);
      Ok(JobsFor(names, dir, outDir))
  }

  /** No two jobs of a walk write to the same target path. */
  lemma WalkDirTargetsDistinct(ns: Namespace, dir: string, outDir: string, excludeGlob: seq<string>, i: nat, j: nat)
    requires WalkDir(ns, dir, outDir, excludeGlob).Ok?
    requires i < |WalkDir(ns, dir, outDir, excludeGlob).value| && j < |WalkDir(ns, dir, outDir, excludeGlob).value|
    requires i != j
    ensures WalkDir(ns, dir, outDir, excludeGlob).value[i].targetPath != WalkDir(ns, dir, outDir, excludeGlob).value[j].targetPath
  {
    var jobs := WalkDir(ns, dir, outDir, excludeGlob).value;
    StrictlySortedDistinct(Names(jobs), i, j);
    if jobs[i].targetPath == jobs[j].targetPath {
      RebaseInjective(jobs[i].name, jobs[j].name, dir, outDir);
    }
  }

  /** Every selected file gives exactly one job: no file is listed twice. */
  lemma WalkDirOneJobPerFile(ns: Namespace, dir: string, outDir: string, excludeGlob: seq<string>, i: nat, j: nat)
    requires WalkDir(ns, dir, outDir, excludeGlob).Ok?
    requires i < |WalkDir(ns, dir, outDir, excludeGlob).value| && j < |WalkDir(ns, dir, outDir, excludeGlob).value|
    requires WalkDir(ns, dir, outDir, excludeGlob).value[i].name == WalkDir(ns, dir, outDir, excludeGlob).value[j].name
    ensures i == j
  {
    var jobs := WalkDir(ns, dir, outDir, excludeGlob).value;
    if i != j {
      StrictlySortedDistinct(Names(jobs), i, j);
    }
  }

  /** A file lying in (or being) a path some pattern matches gives no job. */
  lemma WalkDirSkipsExcluded(ns: Namespace, dir: string, outDir: string, excludeGlob: seq<string>, pattern: string, m: string, f: string)
    requires WalkDir(ns, dir, outDir, excludeGlob).Ok?
    requires pattern in excludeGlob && m in ns.Entries() && Matches(pattern, m)
    requires f == m || Below(f, m)
    ensures f !in Names(WalkDir(ns, dir, outDir, excludeGlob).value)
  {
    assert MatchedBySome(ns, excludeGlob, m);
  }

  /** More exclusion patterns can only drop jobs, never add any. */
  lemma WalkDirMoreExcludes(ns: Namespace, dir: string, outDir: string, a: seq<string>, b: seq<string>)
    requires dir in ns.dirs
    ensures forall f :: f in Names(WalkDir(ns, dir, outDir, a + b).value) ==> f in Names(WalkDir(ns, dir, outDir, a).value)
  {
    forall f | f in Names(WalkDir(ns, dir, outDir, a + b).value)
      ensures Selected(ns, dir, a, f)
    {
      forall m | MatchedBySome(ns, a, m)
        ensures m != f && !Below(f, m)
      {
        var p :| p in a && Matches(p, m);
        assert p in a + b;
        assert MatchedBySome(ns, a + b, m);
      }
    }
  }
}
