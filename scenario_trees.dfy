/**
 * The namespaces `TestExecuteCombinedGlob` and `TestWalkDir` build, and the
 * facts about their concrete paths that the scenarios rest on: ancestors,
 * segments, segment matches and order. Each fact sits in a lemma of its
 * own, so that no proof has to reason about many literal strings at once.
 */
module ScenarioTrees {
  import opened Order
  import opened Paths
  import opened Glob
  import opened FileSystem
  import opened ScenarioSupport

  // ---- TestExecuteCombinedGlob ----

  /** The tree of the glob test: /tmp/one/a, /tmp/two/b and /tmp/three/c, each with mode 0644. */
  function GlobTree(): Namespace
  {
    Namespace(
      map["/tmp/one/a" := File("file a", DefaultMode),
          "/tmp/two/b" := File("file b", DefaultMode),
          "/tmp/three/c" := File("file c", DefaultMode)],
      GlobDirs())
  }

  function GlobDirs(): set<string>
  {
    {"/", "/tmp", "/tmp/one", "/tmp/two", "/tmp/three"}
  }

  lemma AncestorsTmp()
    ensures Ancestors("/tmp") == {"/"}
  {
    LastSeparatorIs("/tmp", 0);
    LastSeparatorIs("/", 0);
  }

  lemma AncestorsTmpOne()
    ensures Ancestors("/tmp/one") == {"/tmp", "/"}
  {
    AncestorsAt("/tmp/one", 4);
    assert "/tmp/one"[..4] == "/tmp";
    AncestorsTmp();
  }

  lemma AncestorsTmpTwo()
    ensures Ancestors("/tmp/two") == {"/tmp", "/"}
  {
    AncestorsAt("/tmp/two", 4);
    assert "/tmp/two"[..4] == "/tmp";
    AncestorsTmp();
  }

  lemma AncestorsTmpThree()
    ensures Ancestors("/tmp/three") == {"/tmp", "/"}
  {
    AncestorsAt("/tmp/three", 4);
    assert "/tmp/three"[..4] == "/tmp";
    AncestorsTmp();
  }

  lemma AncestorsTmpFoo()
    ensures Ancestors("/tmp/foo") == {"/tmp", "/"}
  {
    AncestorsAt("/tmp/foo", 4);
    assert "/tmp/foo"[..4] == "/tmp";
    AncestorsTmp();
  }

  lemma AncestorsTmpUnreadable()
    ensures Ancestors("/tmp/unreadable") == {"/tmp", "/"}
  {
    assert "/tmp/unreadable" == "/tmp" + "/" + "unreadable";
    AncestorsOfChild("/tmp", "unreadable");
    AncestorsTmp();
  }

  lemma AncestorsIn1()
    ensures Ancestors("in/1") == {"in"}
  {
    AncestorsAt("in/1", 2);
    assert "in/1"[..2] == "in";
    TopLevel("in");
  }

  lemma AncestorsIn2()
    ensures Ancestors("in/2") == {"in"}
  {
    AncestorsAt("in/2", 2);
    assert "in/2"[..2] == "in";
    TopLevel("in");
  }

  lemma AncestorsIn3()
    ensures Ancestors("in/3") == {"in"}
  {
    AncestorsAt("in/3", 2);
    assert "in/3"[..2] == "in";
    TopLevel("in");
  }

  lemma AncestorsOut1()
    ensures Ancestors("out/1") == {"out"}
  {
    AncestorsAt("out/1", 3);
    assert "out/1"[..3] == "out";
    TopLevel("out");
  }

  lemma AncestorsOut2()
    ensures Ancestors("out/2") == {"out"}
  {
    AncestorsAt("out/2", 3);
    assert "out/2"[..3] == "out";
    TopLevel("out");
  }

  lemma AncestorsOut3()
    ensures Ancestors("out/3") == {"out"}
  {
    AncestorsAt("out/3", 3);
    assert "out/3"[..3] == "out";
    TopLevel("out");
  }

  lemma AncestorsFileA()
    ensures Ancestors("/tmp/one/a") == {"/tmp/one", "/tmp", "/"}
  {
    AncestorsAt("/tmp/one/a", 8);
    assert "/tmp/one/a"[..8] == "/tmp/one";
    AncestorsTmpOne();
  }

  lemma AncestorsFileB()
    ensures Ancestors("/tmp/two/b") == {"/tmp/two", "/tmp", "/"}
  {
    AncestorsAt("/tmp/two/b", 8);
    assert "/tmp/two/b"[..8] == "/tmp/two";
    AncestorsTmpTwo();
  }

  lemma AncestorsFileC()
    ensures Ancestors("/tmp/three/c") == {"/tmp/three", "/tmp", "/"}
  {
    AncestorsAt("/tmp/three/c", 10);
    assert "/tmp/three/c"[..10] == "/tmp/three";
    AncestorsTmpThree();
  }

  lemma GlobDirsOne()
    ensures WithDir(Empty, "/tmp/one") == Namespace(map[], {"/", "/tmp", "/tmp/one"})
  {
    AncestorsTmpOne();
  }

  lemma GlobDirsTwo()
    ensures WithDir(Namespace(map[], {"/", "/tmp", "/tmp/one"}), "/tmp/two") == Namespace(map[], {"/", "/tmp", "/tmp/one", "/tmp/two"})
  {
    AncestorsTmpTwo();
  }

  lemma GlobDirsThree()
    ensures WithDir(Namespace(map[], {"/", "/tmp", "/tmp/one", "/tmp/two"}), "/tmp/three") == Namespace(map[], GlobDirs())
  {
    AncestorsTmpThree();
  }

  lemma GlobDirsMade()
    ensures WithDir(WithDir(WithDir(Empty, "/tmp/one"), "/tmp/two"), "/tmp/three") == Namespace(map[], GlobDirs())
  {
    GlobDirsOne();
    GlobDirsTwo();
    GlobDirsThree();
  }

  lemma GlobWriteAFresh()
    ensures "/tmp/one/a" !in GlobDirs() && Ancestors("/tmp/one/a") <= GlobDirs()
  {
    AncestorsFileA();
  }

  lemma GlobWriteA()
    ensures WithFile(Namespace(map[], GlobDirs()), "/tmp/one/a", "file a", DefaultMode) ==
      Namespace(map["/tmp/one/a" := File("file a", DefaultMode)], GlobDirs())
  {
    GlobWriteAFresh();
    WriteNew(Namespace(map[], GlobDirs()), "/tmp/one/a", "file a", DefaultMode);
  }

  lemma GlobWriteBFresh()
    ensures "/tmp/two/b" !in GlobDirs() && Ancestors("/tmp/two/b") <= GlobDirs()
    ensures "/tmp/two/b" !in {"/tmp/one/a"} && Ancestors("/tmp/two/b") !! {"/tmp/one/a"}
  {
    AncestorsFileB();
  }

  lemma GlobWriteB()
    ensures WithFile(Namespace(map["/tmp/one/a" := File("file a", DefaultMode)], GlobDirs()), "/tmp/two/b", "file b", DefaultMode) ==
      Namespace(map["/tmp/one/a" := File("file a", DefaultMode), "/tmp/two/b" := File("file b", DefaultMode)], GlobDirs())
  {
    GlobWriteBFresh();
    WriteNew(Namespace(map["/tmp/one/a" := File("file a", DefaultMode)], GlobDirs()), "/tmp/two/b", "file b", DefaultMode);
  }

  lemma GlobWriteCFresh()
    ensures "/tmp/three/c" !in GlobDirs() && Ancestors("/tmp/three/c") <= GlobDirs()
    ensures "/tmp/three/c" !in {"/tmp/one/a", "/tmp/two/b"} && Ancestors("/tmp/three/c") !! {"/tmp/one/a", "/tmp/two/b"}
  {
    AncestorsFileC();
  }

  lemma GlobWriteC()
    ensures WithFile(Namespace(map["/tmp/one/a" := File("file a", DefaultMode), "/tmp/two/b" := File("file b", DefaultMode)], GlobDirs()), "/tmp/three/c", "file c", DefaultMode) ==
      Namespace(map["/tmp/one/a" := File("file a", DefaultMode), "/tmp/two/b" := File("file b", DefaultMode), "/tmp/three/c" := File("file c", DefaultMode)], GlobDirs())
  {
    GlobWriteCFresh();
    WriteNew(Namespace(map["/tmp/one/a" := File("file a", DefaultMode), "/tmp/two/b" := File("file b", DefaultMode)], GlobDirs()), "/tmp/three/c", "file c", DefaultMode);
  }

  /** The test's `MkdirAll` and `WriteFile` calls build exactly `GlobTree()`. */
  lemma GlobTreeBuilt()
    ensures WithFile(WithFile(WithFile(WithDir(WithDir(WithDir(Empty, "/tmp/one"), "/tmp/two"), "/tmp/three"),
      "/tmp/one/a", "file a", DefaultMode), "/tmp/two/b", "file b", DefaultMode), "/tmp/three/c", "file c", DefaultMode)
      == GlobTree()
  {
    GlobDirsMade();
    GlobWriteA();
    GlobWriteB();
    GlobWriteC();
  }

  lemma SegmentsPatternOne()
    ensures Segments("/tmp/o*/*") == ["", "tmp", "o*", "*"]
  {
    assert JoinSegments(["", "tmp", "o*", "*"]) == "/tmp/o*/*";
    SegmentsOfJoinSegments(["", "tmp", "o*", "*"]);
  }

  lemma SegmentsPatternTwo()
    ensures Segments("/*/*/b") == ["", "*", "*", "b"]
  {
    assert JoinSegments(["", "*", "*", "b"]) == "/*/*/b";
    SegmentsOfJoinSegments(["", "*", "*", "b"]);
  }

  lemma SegmentsFileA()
    ensures Segments("/tmp/one/a") == ["", "tmp", "one", "a"]
  {
    assert JoinSegments(["", "tmp", "one", "a"]) == "/tmp/one/a";
    SegmentsOfJoinSegments(["", "tmp", "one", "a"]);
  }

  lemma SegmentsFileB()
    ensures Segments("/tmp/two/b") == ["", "tmp", "two", "b"]
  {
    assert JoinSegments(["", "tmp", "two", "b"]) == "/tmp/two/b";
    SegmentsOfJoinSegments(["", "tmp", "two", "b"]);
  }

  lemma SegmentsFileC()
    ensures Segments("/tmp/three/c") == ["", "tmp", "three", "c"]
  {
    assert JoinSegments(["", "tmp", "three", "c"]) == "/tmp/three/c";
    SegmentsOfJoinSegments(["", "tmp", "three", "c"]);
  }

  lemma SegmentsRootLength()
    ensures |Segments("/")| == 2
  {
    assert JoinSegments(["", ""]) == "/";
    SegmentsOfJoinSegments(["", ""]);
  }

  lemma SegmentsTmpLength()
    ensures |Segments("/tmp")| == 2
  {
    assert JoinSegments(["", "tmp"]) == "/tmp";
    SegmentsOfJoinSegments(["", "tmp"]);
  }

  lemma SegmentsTmpOneLength()
    ensures |Segments("/tmp/one")| == 3
  {
    assert JoinSegments(["", "tmp", "one"]) == "/tmp/one";
    SegmentsOfJoinSegments(["", "tmp", "one"]);
  }

  lemma SegmentsTmpTwoLength()
    ensures |Segments("/tmp/two")| == 3
  {
    assert JoinSegments(["", "tmp", "two"]) == "/tmp/two";
    SegmentsOfJoinSegments(["", "tmp", "two"]);
  }

  lemma SegmentsTmpThreeLength()
    ensures |Segments("/tmp/three")| == 3
  {
    assert JoinSegments(["", "tmp", "three"]) == "/tmp/three";
    SegmentsOfJoinSegments(["", "tmp", "three"]);
  }

  lemma TmpMatchesTmp()
    ensures SegmentMatch("tmp", "tmp")
  {
  }

  lemma PrefixStarOne()
    ensures SegmentMatch("o*", "one")
  {
    assert "o" + [Star] == "o*";
    PrefixStar("o", "one");
  }

  lemma PrefixStarTwo()
    ensures !SegmentMatch("o*", "two")
  {
    assert "o" + [Star] == "o*";
    PrefixStar("o", "two");
  }

  lemma PrefixStarThree()
    ensures !SegmentMatch("o*", "three")
  {
    assert "o" + [Star] == "o*";
    PrefixStar("o", "three");
  }

  lemma StarMatchesA()
    ensures SegmentMatch("*", "a")
  {
    StarMatchesAll("a");
  }

  lemma StarMatchesTmp()
    ensures SegmentMatch("*", "tmp")
  {
    StarMatchesAll("tmp");
  }

  lemma StarMatchesTwo()
    ensures SegmentMatch("*", "two")
  {
    StarMatchesAll("two");
  }

  lemma StarMatchesIndir()
    ensures SegmentMatch("*", "indir")
  {
    StarMatchesAll("indir");
  }

  lemma LiteralBB()
    ensures SegmentMatch("b", "b")
  {
  }

  lemma LiteralBA()
    ensures !SegmentMatch("b", "a")
  {
  }

  lemma LiteralBC()
    ensures !SegmentMatch("b", "c")
  {
  }

  lemma LiteralTwoTwo()
    ensures SegmentMatch("two", "two")
  {
  }

  lemma LiteralTwoOne()
    ensures !SegmentMatch("two", "one")
  {
  }

  lemma PatternOneMissesB()
    ensures !Matches("/tmp/o*/*", "/tmp/two/b")
  {
    SegmentsPatternOne();
    SegmentsFileB();
    var ps, qs := Segments("/tmp/o*/*"), Segments("/tmp/two/b");
    assert !SegmentMatch(ps[2], qs[2]) by { PrefixStarTwo(); }
    NoMatchAt("/tmp/o*/*", "/tmp/two/b", 2);
  }

  lemma PatternOneMissesC()
    ensures !Matches("/tmp/o*/*", "/tmp/three/c")
  {
    SegmentsPatternOne();
    SegmentsFileC();
    var ps, qs := Segments("/tmp/o*/*"), Segments("/tmp/three/c");
    assert !SegmentMatch(ps[2], qs[2]) by { PrefixStarThree(); }
    NoMatchAt("/tmp/o*/*", "/tmp/three/c", 2);
  }

  lemma PatternTwoMissesA()
    ensures !Matches("/*/*/b", "/tmp/one/a")
  {
    SegmentsPatternTwo();
    SegmentsFileA();
    var ps, qs := Segments("/*/*/b"), Segments("/tmp/one/a");
    assert !SegmentMatch(ps[3], qs[3]) by { LiteralBA(); }
    NoMatchAt("/*/*/b", "/tmp/one/a", 3);
  }

  lemma PatternTwoMissesC()
    ensures !Matches("/*/*/b", "/tmp/three/c")
  {
    SegmentsPatternTwo();
    SegmentsFileC();
    var ps, qs := Segments("/*/*/b"), Segments("/tmp/three/c");
    assert !SegmentMatch(ps[3], qs[3]) by { LiteralBC(); }
    NoMatchAt("/*/*/b", "/tmp/three/c", 3);
  }

  /** Apart from the two files the patterns pick, the glob tree holds its directories and /tmp/three/c. */
  lemma GlobTreeOthers(e: string)
    requires e in GlobTree().Entries() && e != "/tmp/one/a" && e != "/tmp/two/b"
    ensures e == "/" || e == "/tmp" || e == "/tmp/one" || e == "/tmp/two" || e == "/tmp/three" || e == "/tmp/three/c"
  {
  }

  lemma PatternsMissRoot()
    ensures !Matches("/tmp/o*/*", "/") && !Matches("/*/*/b", "/")
  {
    SegmentsRootLength();
    SegmentsPatternOne();
    SegmentsPatternTwo();
    NoMatchByCount("/tmp/o*/*", "/");
    NoMatchByCount("/*/*/b", "/");
  }

  lemma PatternsMissTmp()
    ensures !Matches("/tmp/o*/*", "/tmp") && !Matches("/*/*/b", "/tmp")
  {
    SegmentsTmpLength();
    SegmentsPatternOne();
    SegmentsPatternTwo();
    NoMatchByCount("/tmp/o*/*", "/tmp");
    NoMatchByCount("/*/*/b", "/tmp");
  }

  lemma PatternsMissTmpOne()
    ensures !Matches("/tmp/o*/*", "/tmp/one") && !Matches("/*/*/b", "/tmp/one")
  {
    SegmentsTmpOneLength();
    SegmentsPatternOne();
    SegmentsPatternTwo();
    NoMatchByCount("/tmp/o*/*", "/tmp/one");
    NoMatchByCount("/*/*/b", "/tmp/one");
  }

  lemma PatternsMissTmpTwo()
    ensures !Matches("/tmp/o*/*", "/tmp/two") && !Matches("/*/*/b", "/tmp/two")
  {
    SegmentsTmpTwoLength();
    SegmentsPatternOne();
    SegmentsPatternTwo();
    NoMatchByCount("/tmp/o*/*", "/tmp/two");
    NoMatchByCount("/*/*/b", "/tmp/two");
  }

  lemma PatternsMissTmpThree()
    ensures !Matches("/tmp/o*/*", "/tmp/three") && !Matches("/*/*/b", "/tmp/three")
  {
    SegmentsTmpThreeLength();
    SegmentsPatternOne();
    SegmentsPatternTwo();
    NoMatchByCount("/tmp/o*/*", "/tmp/three");
    NoMatchByCount("/*/*/b", "/tmp/three");
  }

  lemma OneBeforeTwo()
    ensures Less("/tmp/one/a", "/tmp/two/b")
  {
    LessAfterCommonPrefix("/tmp/", "one/a", "two/b");
    assert "/tmp/" + "one/a" == "/tmp/one/a" && "/tmp/" + "two/b" == "/tmp/two/b";
  }

  // ---- TestWalkDir ----

  /** The tree `TestWalkDir` writes: /indir/one/foo, /indir/one/bar and /indir/two/baz. */
  function WalkTree(): Namespace
  {
    Namespace(
      map["/indir/one/foo" := File("foo", DefaultMode),
          "/indir/one/bar" := File("bar", DefaultMode),
          "/indir/two/baz" := File("baz", DefaultMode)],
      WalkDirs())
  }

  function WalkDirs(): set<string>
  {
    {"/", "/indir", "/indir/one", "/indir/two"}
  }

  lemma AncestorsIndir()
    ensures Ancestors("/indir") == {"/"}
  {
    LastSeparatorIs("/indir", 0);
    LastSeparatorIs("/", 0);
  }

  lemma AncestorsIndirOne()
    ensures Ancestors("/indir/one") == {"/indir", "/"}
  {
    AncestorsAt("/indir/one", 6);
    assert "/indir/one"[..6] == "/indir";
    AncestorsIndir();
  }

  lemma AncestorsIndirTwo()
    ensures Ancestors("/indir/two") == {"/indir", "/"}
  {
    AncestorsAt("/indir/two", 6);
    assert "/indir/two"[..6] == "/indir";
    AncestorsIndir();
  }

  lemma AncestorsFoo()
    ensures Ancestors("/indir/one/foo") == {"/indir/one", "/indir", "/"}
  {
    AncestorsAt("/indir/one/foo", 10);
    assert "/indir/one/foo"[..10] == "/indir/one";
    AncestorsIndirOne();
  }

  lemma AncestorsBar()
    ensures Ancestors("/indir/one/bar") == {"/indir/one", "/indir", "/"}
  {
    AncestorsAt("/indir/one/bar", 10);
    assert "/indir/one/bar"[..10] == "/indir/one";
    AncestorsIndirOne();
  }

  lemma AncestorsBaz()
    ensures Ancestors("/indir/two/baz") == {"/indir/two", "/indir", "/"}
  {
    AncestorsAt("/indir/two/baz", 10);
    assert "/indir/two/baz"[..10] == "/indir/two";
    AncestorsIndirTwo();
  }

  lemma WalkDirsOne()
    ensures WithDir(Empty, "/indir/one") == Namespace(map[], {"/", "/indir", "/indir/one"})
  {
    AncestorsIndirOne();
  }

  lemma WalkDirsTwo()
    ensures WithDir(Namespace(map[], {"/", "/indir", "/indir/one"}), "/indir/two") == Namespace(map[], WalkDirs())
  {
    AncestorsIndirTwo();
  }

  lemma WalkDirsMade()
    ensures WithDir(WithDir(Empty, "/indir/one"), "/indir/two") == Namespace(map[], WalkDirs())
  {
    WalkDirsOne();
    WalkDirsTwo();
  }

  lemma WalkWriteFooFresh()
    ensures "/indir/one/foo" !in WalkDirs() && Ancestors("/indir/one/foo") <= WalkDirs()
  {
    AncestorsFoo();
  }

  lemma WalkWriteFoo()
    ensures WithFile(Namespace(map[], WalkDirs()), "/indir/one/foo", "foo", DefaultMode) ==
      Namespace(map["/indir/one/foo" := File("foo", DefaultMode)], WalkDirs())
  {
    WalkWriteFooFresh();
    WriteNew(Namespace(map[], WalkDirs()), "/indir/one/foo", "foo", DefaultMode);
  }

  lemma WalkWriteBarFresh()
    ensures "/indir/one/bar" !in WalkDirs() && Ancestors("/indir/one/bar") <= WalkDirs()
    ensures "/indir/one/bar" !in {"/indir/one/foo"} && Ancestors("/indir/one/bar") !! {"/indir/one/foo"}
  {
    AncestorsBar();
  }

  lemma WalkWriteBar()
    ensures WithFile(Namespace(map["/indir/one/foo" := File("foo", DefaultMode)], WalkDirs()), "/indir/one/bar", "bar", DefaultMode) ==
      Namespace(map["/indir/one/foo" := File("foo", DefaultMode), "/indir/one/bar" := File("bar", DefaultMode)], WalkDirs())
  {
    WalkWriteBarFresh();
    WriteNew(Namespace(map["/indir/one/foo" := File("foo", DefaultMode)], WalkDirs()), "/indir/one/bar", "bar", DefaultMode);
  }

  lemma WalkWriteBazFresh()
    ensures "/indir/two/baz" !in WalkDirs() && Ancestors("/indir/two/baz") <= WalkDirs()
    ensures "/indir/two/baz" !in {"/indir/one/foo", "/indir/one/bar"} && Ancestors("/indir/two/baz") !! {"/indir/one/foo", "/indir/one/bar"}
  {
    AncestorsBaz();
  }

  lemma WalkWriteBaz()
    ensures WithFile(Namespace(map["/indir/one/foo" := File("foo", DefaultMode), "/indir/one/bar" := File("bar", DefaultMode)], WalkDirs()), "/indir/two/baz", "baz", DefaultMode) ==
      Namespace(map["/indir/one/foo" := File("foo", DefaultMode), "/indir/one/bar" := File("bar", DefaultMode), "/indir/two/baz" := File("baz", DefaultMode)], WalkDirs())
  {
    WalkWriteBazFresh();
    WriteNew(Namespace(map["/indir/one/foo" := File("foo", DefaultMode), "/indir/one/bar" := File("bar", DefaultMode)], WalkDirs()), "/indir/two/baz", "baz", DefaultMode);
  }

  /** The test's `MkdirAll` and `WriteFile` calls build exactly `WalkTree()`. */
  lemma WalkTreeBuilt()
    ensures WithFile(WithFile(WithFile(WithDir(WithDir(Empty, "/indir/one"), "/indir/two"),
      "/indir/one/foo", "foo", DefaultMode), "/indir/one/bar", "bar", DefaultMode), "/indir/two/baz", "baz", DefaultMode)
      == WalkTree()
  {
    WalkDirsMade();
    WalkWriteFoo();
    WalkWriteBar();
    WalkWriteBaz();
  }

  lemma SegmentsExclude()
    ensures Segments("/*/two") == ["", "*", "two"]
  {
    assert JoinSegments(["", "*", "two"]) == "/*/two";
    SegmentsOfJoinSegments(["", "*", "two"]);
  }

  lemma SegmentsIndirOne()
    ensures Segments("/indir/one") == ["", "indir", "one"]
  {
    assert JoinSegments(["", "indir", "one"]) == "/indir/one";
    SegmentsOfJoinSegments(["", "indir", "one"]);
  }

  lemma SegmentsIndirTwo()
    ensures Segments("/indir/two") == ["", "indir", "two"]
  {
    assert JoinSegments(["", "indir", "two"]) == "/indir/two";
    SegmentsOfJoinSegments(["", "indir", "two"]);
  }

  lemma SegmentsIndirLength()
    ensures |Segments("/indir")| == 2
  {
    assert JoinSegments(["", "indir"]) == "/indir";
    SegmentsOfJoinSegments(["", "indir"]);
  }

  lemma SegmentsFooLength()
    ensures |Segments("/indir/one/foo")| == 4
  {
    assert JoinSegments(["", "indir", "one", "foo"]) == "/indir/one/foo";
    SegmentsOfJoinSegments(["", "indir", "one", "foo"]);
  }

  lemma SegmentsBarLength()
    ensures |Segments("/indir/one/bar")| == 4
  {
    assert JoinSegments(["", "indir", "one", "bar"]) == "/indir/one/bar";
    SegmentsOfJoinSegments(["", "indir", "one", "bar"]);
  }

  lemma SegmentsBazLength()
    ensures |Segments("/indir/two/baz")| == 4
  {
    assert JoinSegments(["", "indir", "two", "baz"]) == "/indir/two/baz";
    SegmentsOfJoinSegments(["", "indir", "two", "baz"]);
  }

  lemma ExcludeMissesOne()
    ensures !Matches("/*/two", "/indir/one")
  {
    SegmentsExclude();
    SegmentsIndirOne();
    var ps, qs := Segments("/*/two"), Segments("/indir/one");
    assert !SegmentMatch(ps[2], qs[2]) by { LiteralTwoOne(); }
    NoMatchAt("/*/two", "/indir/one", 2);
  }

  /** Apart from /indir/two, the walk tree holds these entries. */
  lemma WalkTreeOthers(e: string)
    requires e in WalkTree().Entries() && e != "/indir/two"
    ensures e == "/" || e == "/indir" || e == "/indir/one" || e == "/indir/one/foo" || e == "/indir/one/bar" || e == "/indir/two/baz"
  {
  }

  lemma ExcludeMissesRoot()
    ensures !Matches("/*/two", "/")
  {
    SegmentsRootLength();
    SegmentsExclude();
    NoMatchByCount("/*/two", "/");
  }

  lemma ExcludeMissesIndir()
    ensures !Matches("/*/two", "/indir")
  {
    SegmentsIndirLength();
    SegmentsExclude();
    NoMatchByCount("/*/two", "/indir");
  }

  lemma ExcludeMissesFoo()
    ensures !Matches("/*/two", "/indir/one/foo")
  {
    SegmentsFooLength();
    SegmentsExclude();
    NoMatchByCount("/*/two", "/indir/one/foo");
  }

  lemma ExcludeMissesBar()
    ensures !Matches("/*/two", "/indir/one/bar")
  {
    SegmentsBarLength();
    SegmentsExclude();
    NoMatchByCount("/*/two", "/indir/one/bar");
  }

  lemma ExcludeMissesBaz()
    ensures !Matches("/*/two", "/indir/two/baz")
  {
    SegmentsBazLength();
    SegmentsExclude();
    NoMatchByCount("/*/two", "/indir/two/baz");
  }

  lemma WalkTreePlaces()
    ensures Below("/indir/one/bar", "/indir") && !Below("/indir/one/bar", "/indir/two")
    ensures Below("/indir/one/foo", "/indir") && !Below("/indir/one/foo", "/indir/two")
    ensures Below("/indir/two/baz", "/indir/two")
  {
    assert DirPrefix("/indir") == "/indir/";
    assert DirPrefix("/indir/two") == "/indir/two/";
    assert "/indir/one/bar"[..11][7] != "/indir/two/"[7];
    assert "/indir/one/foo"[..11][7] != "/indir/two/"[7];
  }

  lemma BarBeforeFoo()
    ensures Less("/indir/one/bar", "/indir/one/foo")
  {
    LessAfterCommonPrefix("/indir/one/", "bar", "foo");
    assert "/indir/one/" + "bar" == "/indir/one/bar" && "/indir/one/" + "foo" == "/indir/one/foo";
  }

  lemma WalkTreeTargets()
    ensures Rebase("/indir/one/bar", "/indir", "/outdir") == "/outdir/one/bar"
    ensures Rebase("/indir/one/foo", "/indir", "/outdir") == "/outdir/one/foo"
  {
    assert DirPrefix("/indir") == "/indir/";
    assert DirPrefix("/outdir") == "/outdir/";
  }

  // ---- TestReadInput and TestOpenOutFile ----

  /** The mode `fs.Create` gives a new file: 0666. */
  const CreateMode: nat := 0x1B6

  /** The tree `TestReadInput` writes: /tmp/foo and /tmp/unreadable, both holding "foo". */
  function ReadTree(): Namespace
  {
    Namespace(map["/tmp/foo" := File("foo", CreateMode), "/tmp/unreadable" := File("foo", CreateMode)], {"/", "/tmp"})
  }

  /** `Mkdir("/tmp")` on an empty namespace, as both tests begin. */
  lemma TmpMade()
    ensures WithDir(Empty, "/tmp") == Namespace(map[], {"/", "/tmp"})
  {
    AncestorsTmp();
  }

  lemma ReadWriteFooFresh()
    ensures "/tmp/foo" !in {"/", "/tmp"} && "/tmp/foo" !in {}
    ensures Ancestors("/tmp/foo") <= {"/", "/tmp"} && Ancestors("/tmp/foo") !! {}
  {
    AncestorsTmpFoo();
  }

  lemma ReadWriteFoo()
    ensures WithFile(Namespace(map[], {"/", "/tmp"}), "/tmp/foo", "foo", CreateMode) ==
      Namespace(map["/tmp/foo" := File("foo", CreateMode)], {"/", "/tmp"})
  {
    ReadWriteFooFresh();
    WriteNew(Namespace(map[], {"/", "/tmp"}), "/tmp/foo", "foo", CreateMode);
  }

  lemma ReadWriteUnreadableFresh()
    ensures "/tmp/unreadable" !in {"/", "/tmp"} && "/tmp/unreadable" !in {"/tmp/foo"}
    ensures Ancestors("/tmp/unreadable") <= {"/", "/tmp"} && Ancestors("/tmp/unreadable") !! {"/tmp/foo"}
  {
    AncestorsTmpUnreadable();
  }

  lemma ReadWriteUnreadable()
    ensures WithFile(Namespace(map["/tmp/foo" := File("foo", CreateMode)], {"/", "/tmp"}), "/tmp/unreadable", "foo", CreateMode) ==
      Namespace(map["/tmp/foo" := File("foo", CreateMode), "/tmp/unreadable" := File("foo", CreateMode)], {"/", "/tmp"})
  {
    ReadWriteUnreadableFresh();
    WriteNew(Namespace(map["/tmp/foo" := File("foo", CreateMode)], {"/", "/tmp"}), "/tmp/unreadable", "foo", CreateMode);
  }

  /** The test's `Mkdir`, `Create` and `Write` calls build exactly `ReadTree()`. */
  lemma ReadTreeBuilt()
    ensures WithFile(WithFile(WithDir(Empty, "/tmp"), "/tmp/foo", "foo", CreateMode), "/tmp/unreadable", "foo", CreateMode)
      == ReadTree()
  {
    TmpMade();
    ReadWriteFoo();
    ReadWriteUnreadable();
  }

  lemma ReadTreeLookups()
    ensures "/tmp/foo" in ReadTree().files && ReadTree().files["/tmp/foo"].contents == "foo"
    ensures "bogus" !in ReadTree().files
  {
  }

  // ---- TestLoadContents ----

  lemma FooTopLevel()
    ensures Ancestors("foo") == {}
  {
    TopLevel("foo");
  }

  lemma ContentsTreeBuilt()
    ensures WithFile(Empty, "foo", "contents", DefaultMode) == Namespace(map["foo" := File("contents", DefaultMode)], {})
  {
    FooTopLevel();
    WriteNew(Empty, "foo", "contents", DefaultMode);
  }

  // ---- TestGatherTemplates ----

  /** The tree `TestGatherTemplates` writes: foo, and in/1, in/2 and in/3 inside the directory in. */
  function GatherTree(): Namespace
  {
    Namespace(
      map["foo" := File("bar", DefaultMode),
          "in/1" := File("foo", DefaultMode),
          "in/2" := File("bar", DefaultMode),
          "in/3" := File("baz", DefaultMode)],
      {"in"})
  }

  lemma GatherContents()
    ensures "foo" in GatherTree().files && GatherTree().files["foo"].contents == "bar"
    ensures "in/1" in GatherTree().files && GatherTree().files["in/1"].contents == "foo"
    ensures "in/2" in GatherTree().files && GatherTree().files["in/2"].contents == "bar"
    ensures "in/3" in GatherTree().files && GatherTree().files["in/3"].contents == "baz"
  {
  }

  lemma GatherWriteFoo()
    ensures WithFile(Empty, "foo", "bar", DefaultMode) == Namespace(map["foo" := File("bar", DefaultMode)], {})
  {
    FooTopLevel();
    WriteNew(Empty, "foo", "bar", DefaultMode);
  }

  lemma GatherWrite1Fresh()
    ensures "in/1" !in {} && "in/1" !in {"foo"}
    ensures Ancestors("in/1") !! {"foo"} && {} + Ancestors("in/1") == {"in"}
  {
    AncestorsIn1();
  }

  lemma GatherWrite1()
    ensures WithFile(Namespace(map["foo" := File("bar", DefaultMode)], {}), "in/1", "foo", DefaultMode) ==
      Namespace(map["foo" := File("bar", DefaultMode), "in/1" := File("foo", DefaultMode)], {"in"})
  {
    GatherWrite1Fresh();
    WriteNewBelow(Namespace(map["foo" := File("bar", DefaultMode)], {}), "in/1", "foo", DefaultMode);
  }

  lemma GatherWrite2Fresh()
    ensures "in/2" !in {"in"} && "in/2" !in {"foo", "in/1"}
    ensures Ancestors("in/2") <= {"in"} && Ancestors("in/2") !! {"foo", "in/1"}
  {
    AncestorsIn2();
  }

  lemma GatherWrite2()
    ensures WithFile(Namespace(map["foo" := File("bar", DefaultMode), "in/1" := File("foo", DefaultMode)], {"in"}), "in/2", "bar", DefaultMode) ==
      Namespace(map["foo" := File("bar", DefaultMode), "in/1" := File("foo", DefaultMode), "in/2" := File("bar", DefaultMode)], {"in"})
  {
    GatherWrite2Fresh();
    WriteNew(Namespace(map["foo" := File("bar", DefaultMode), "in/1" := File("foo", DefaultMode)], {"in"}), "in/2", "bar", DefaultMode);
  }

  lemma GatherWrite3Fresh()
    ensures "in/3" !in {"in"} && "in/3" !in {"foo", "in/1", "in/2"}
    ensures Ancestors("in/3") <= {"in"} && Ancestors("in/3") !! {"foo", "in/1", "in/2"}
  {
    AncestorsIn3();
  }

  lemma GatherWrite3()
    ensures WithFile(Namespace(map["foo" := File("bar", DefaultMode), "in/1" := File("foo", DefaultMode), "in/2" := File("bar", DefaultMode)], {"in"}), "in/3", "baz", DefaultMode) ==
      Namespace(map["foo" := File("bar", DefaultMode), "in/1" := File("foo", DefaultMode), "in/2" := File("bar", DefaultMode), "in/3" := File("baz", DefaultMode)], {"in"})
  {
    GatherWrite3Fresh();
    WriteNew(Namespace(map["foo" := File("bar", DefaultMode), "in/1" := File("foo", DefaultMode), "in/2" := File("bar", DefaultMode)], {"in"}), "in/3", "baz", DefaultMode);
  }

  /** The test's `WriteFile` calls build exactly `GatherTree()`; the directory in is registered on the way. */
  lemma GatherTreeBuilt()
    ensures WithFile(WithFile(WithFile(WithFile(Empty, "foo", "bar", DefaultMode),
      "in/1", "foo", DefaultMode), "in/2", "bar", DefaultMode), "in/3", "baz", DefaultMode) == GatherTree()
  {
    GatherWriteFoo();
    GatherWrite1();
    GatherWrite2();
    GatherWrite3();
  }

  lemma GatherTreeFiles(f: string)
    ensures f in GatherTree().files && Below(f, "in") <==> f == "in/1" || f == "in/2" || f == "in/3"
  {
    assert DirPrefix("in") == "in/";
    assert !Below("foo", "in");
  }

  lemma InOrdered()
    ensures Less("in/1", "in/2") && Less("in/2", "in/3")
  {
    LessAfterCommonPrefix("in/", "1", "2");
    LessAfterCommonPrefix("in/", "2", "3");
    assert "in/" + "1" == "in/1" && "in/" + "2" == "in/2" && "in/" + "3" == "in/3";
  }

  lemma InTargets()
    ensures Rebase("in/1", "in", "out") == "out/1"
    ensures Rebase("in/2", "in", "out") == "out/2"
    ensures Rebase("in/3", "in", "out") == "out/3"
  {
    assert DirPrefix("in") == "in/";
    assert DirPrefix("out") == "out/";
  }

  lemma OutTopLevel()
    ensures Ancestors("out") == {}
  {
    TopLevel("out");
  }
}
