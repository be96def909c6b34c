/**
 * `TestExecuteCombinedGlob` and `TestWalkDir` replayed on the model: what
 * each test asserts about the namespace it builds (`ScenarioTrees`).
 */
module WalkScenarios {
  import opened Wrappers
  import opened Paths
  import opened Glob
  import opened FileSystem
  import opened Inputs
  import opened Walk
  import opened ScenarioSupport
  import opened ScenarioTrees

  // ---- TestExecuteCombinedGlob ----

  lemma PatternOneMatchesA()
    ensures Matches("/tmp/o*/*", "/tmp/one/a")
  {
    SegmentsPatternOne();
    SegmentsFileA();
    TmpMatchesTmp();
    PrefixStarOne();
    StarMatchesA();
    MatchFourOf("/tmp/o*/*", "/tmp/one/a", "tmp", "o*", "*", "tmp", "one", "a");
  }

  lemma PatternTwoMatchesB()
    ensures Matches("/*/*/b", "/tmp/two/b")
  {
    SegmentsPatternTwo();
    SegmentsFileB();
    StarMatchesTmp();
    StarMatchesTwo();
    LiteralBB();
    MatchFourOf("/*/*/b", "/tmp/two/b", "*", "*", "b", "tmp", "two", "b");
  }

  /** Neither pattern matches the other entries of the glob tree. */
  lemma GlobTreeMisses(e: string)
    requires e == "/" || e == "/tmp" || e == "/tmp/one" || e == "/tmp/two" || e == "/tmp/three" || e == "/tmp/three/c"
    ensures !Matches("/tmp/o*/*", e) && !Matches("/*/*/b", e)
  {
    if e == "/" {
      PatternsMissRoot();
    } else if e == "/tmp" {
      PatternsMissTmp();
    } else if e == "/tmp/one" {
      PatternsMissTmpOne();
    } else if e == "/tmp/two" {
      PatternsMissTmpTwo();
    } else if e == "/tmp/three" {
      PatternsMissTmpThree();
    } else {
      PatternOneMissesC();
      PatternTwoMissesC();
    }
  }

  /**
   * `TestExecuteCombinedGlob`: on the tree the test writes, its two
   * patterns together match /tmp/one/a and /tmp/two/b, listed once each
   * and in that order.
   */
  lemma GlobTreeOnlyHits()
    ensures forall e :: e in GlobTree().Entries() && e != "/tmp/one/a" && e != "/tmp/two/b" ==>
      !Matches("/tmp/o*/*", e) && !Matches("/*/*/b", e)
  {
    forall e | e in GlobTree().Entries() && e != "/tmp/one/a" && e != "/tmp/two/b"
      ensures !Matches("/tmp/o*/*", e) && !Matches("/*/*/b", e)
    {
      GlobTreeOthers(e);
      GlobTreeMisses(e);
    }
  }

  lemma CombinedGlobExample()
    ensures CombinedGlob(GlobTree(), ["/tmp/o*/*", "/*/*/b"]) == ["/tmp/one/a", "/tmp/two/b"]
  {
    GlobTreeOnlyHits();
    PatternOneMatchesA();
    PatternTwoMatchesB();
    OneBeforeTwo();
    CombinedGlobOfTwo(GlobTree(), "/tmp/o*/*", "/*/*/b", "/tmp/one/a", "/tmp/two/b");
  }

  /**
   * `TestExecuteCombinedGlob` as the test runs it: a fresh file system,
   * three `MkdirAll` and three `WriteFile` calls, then the combined glob.
   */
  method TestExecuteCombinedGlob() returns (excludes: seq<string>)
    ensures excludes == ["/tmp/one/a", "/tmp/two/b"]
  {
    var fs := new MemFs();
    fs.MkdirAll("/tmp/one");
    fs.MkdirAll("/tmp/two");
    fs.MkdirAll("/tmp/three");
    fs.WriteFile("/tmp/one/a", "file a", DefaultMode);
    fs.WriteFile("/tmp/two/b", "file b", DefaultMode);
    fs.WriteFile("/tmp/three/c", "file c", DefaultMode);
    GlobTreeBuilt();
    CombinedGlobExample();
    excludes := ExecuteCombinedGlob(fs, ["/tmp/o*/*", "/*/*/b"]);
  }

  // ---- TestWalkDir ----

  lemma ExcludeMatchesTwo()
    ensures Matches("/*/two", "/indir/two")
  {
    SegmentsExclude();
    SegmentsIndirTwo();
    StarMatchesIndir();
    LiteralTwoTwo();
    MatchThreeOf("/*/two", "/indir/two", "*", "two", "indir", "two");
  }

  /** The exclude pattern matches none of the other entries of the walk tree. */
  lemma WalkTreeMisses(e: string)
    requires e == "/" || e == "/indir" || e == "/indir/one" || e == "/indir/one/foo" || e == "/indir/one/bar" || e == "/indir/two/baz"
    ensures !Matches("/*/two", e)
  {
    if e == "/" {
      ExcludeMissesRoot();
    } else if e == "/indir" {
      ExcludeMissesIndir();
    } else if e == "/indir/one" {
      ExcludeMissesOne();
    } else if e == "/indir/one/foo" {
      ExcludeMissesFoo();
    } else if e == "/indir/one/bar" {
      ExcludeMissesBar();
    } else {
      ExcludeMissesBaz();
    }
  }

  // The exclude pattern matches /indir/two and nothing else in the walk tree.
  lemma WalkExcludeHitsTwo()
    ensures forall m :: MatchedBySome(WalkTree(), ["/*/two"], m) <==> m == "/indir/two"
  {
    forall e | e in WalkTree().Entries() && e != "/indir/two"
      ensures !Matches("/*/two", e)
    {
      WalkTreeOthers(e);
      WalkTreeMisses(e);
    }
    ExcludeMatchesTwo();
    OnlyMatch(WalkTree(), "/*/two", "/indir/two");
  }

  // The walk keeps exactly the two files under /indir/one.
  lemma WalkTreeSelected(f: string)
    ensures Selected(WalkTree(), "/indir", ["/*/two"], f) <==> f == "/indir/one/bar" || f == "/indir/one/foo"
  {
    WalkExcludeHitsTwo();
    SelectedWithOneMatch(WalkTree(), "/indir", ["/*/two"], "/indir/two", f);
    WalkTreePlaces();
  }

  lemma WalkTreeNames()
    ensures WalkDir(WalkTree(), "/indir", "/outdir", ["/*/two"]).Ok?
    ensures Names(WalkDir(WalkTree(), "/indir", "/outdir", ["/*/two"]).value) == ["/indir/one/bar", "/indir/one/foo"]
  {
    assert "/indir" in WalkTree().dirs;
    var r := WalkDir(WalkTree(), "/indir", "/outdir", ["/*/two"]);
    var names := Names(r.value);
    forall f
      ensures f in names <==> f == "/indir/one/bar" || f == "/indir/one/foo"
    {
      WalkTreeSelected(f);
    }
    BarBeforeFoo();
    SortedTwo(names, "/indir/one/bar", "/indir/one/foo");
  }

  /**
   * `TestWalkDir`: walking a directory that does not exist fails; walking
   * /indir of the tree the test writes, with a pattern that matches
   * /indir/two, gives bar and then foo, re-rooted under /outdir.
   */
  lemma WalkDirExample()
    ensures WalkDir(Empty, "/indir", "/outdir", []) == Err(NotFound)
    ensures WalkDir(WalkTree(), "/indir", "/outdir", ["/*/two"]) ==
      Ok([Job("/indir/one/bar", "/outdir/one/bar", ""), Job("/indir/one/foo", "/outdir/one/foo", "")])
  {
    WalkTreeNames();
    var jobs := WalkDir(WalkTree(), "/indir", "/outdir", ["/*/two"]).value;
    JobsOfTwo(jobs, "/indir", "/outdir", "/indir/one/bar", "/indir/one/foo");
    WalkTreeTargets();
  }

  /**
   * `TestWalkDir` as the test runs it: the walk fails on the fresh file
   * system, and after two `MkdirAll` and three `WriteFile` calls it lists
   * bar and then foo.
   */
  method TestWalkDir() returns (missing: Result<seq<Job>, ErrorKind>, templates: Result<seq<Job>, ErrorKind>)
    ensures missing == Err(NotFound)
    ensures templates.Ok? && |templates.value| == 2
    ensures templates.value[0].name == "/indir/one/bar" && templates.value[0].targetPath == "/outdir/one/bar"
    ensures templates.value[1].name == "/indir/one/foo" && templates.value[1].targetPath == "/outdir/one/foo"
  {
    var fs := new MemFs();
    WalkDirExample();
    missing := WalkDir(fs.View(), "/indir", "/outdir", []);
    fs.MkdirAll("/indir/one");
    fs.MkdirAll("/indir/two");
    fs.WriteFile("/indir/one/foo", "foo", DefaultMode);
    fs.WriteFile("/indir/one/bar", "bar", DefaultMode);
    fs.WriteFile("/indir/two/baz", "baz", DefaultMode);
    WalkTreeBuilt();
    templates := WalkDir(fs.View(), "/indir", "/outdir", ["/*/two"]);
  }
}
