/**
 * `TestInList`, `TestReadInput`, `TestOpenOutFile`, `TestLoadContents` and
 * `TestAddTarget` replayed on the model. Where a test drives the global
 * file system and a `*tplate` step by step, the scenario is a method that
 * does the same on a fresh `MemFs` and returns what the test inspects.
 */
module InputScenarios {
  import opened Wrappers
  import opened FileSystem
  import opened Inputs
  import opened Walk
  import opened Templates
  import opened ScenarioTrees

  /** `TestInList`: nothing is in the empty list; a list holds what it lists and nothing else. */
  lemma InListExample()
    ensures !InList([], "")
    ensures !InList(["foo", "baz", "qux"], "bar")
    ensures InList(["foo", "bar", "baz"], "bar")
  {
    assert ["foo", "bar", "baz"][1] == "bar";
  }

  /**
   * `TestReadInput`: with /tmp/foo holding "foo" and "bar" on standard
   * input, reading /tmp/foo gives "foo", reading `-` gives "bar", and
   * reading a name that does not exist fails.
   */
  method ReadInputScenario() returns (foo: Result<string, ErrorKind>, piped: Result<string, ErrorKind>, bogus: Result<string, ErrorKind>)
    ensures foo == Ok("foo")
    ensures piped == Ok("bar")
    ensures bogus == Err(NotFound)
  {
    var fs := new MemFs();
    fs.MkdirAll("/tmp");
    fs.WriteFile("/tmp/foo", "foo", CreateMode);
    fs.WriteFile("/tmp/unreadable", "foo", CreateMode);
    ReadTreeBuilt();
    ReadTreeLookups();
    var stdin := "bar";
    foo := ReadInput(fs.View(), stdin, "/tmp/foo");
    piped := ReadInput(fs.View(), stdin, StdStream);
    bogus := ReadInput(fs.View(), stdin, "bogus");
  }

  /**
   * `TestOpenOutFile`: opening /tmp/foo with mode 0644 in an existing
   * /tmp succeeds and leaves a file with that mode; opening `-` gives
   * `Stdout`.
   */
  method OpenOutFileScenario() returns (file: Result<Target, ErrorKind>, mode: nat, out: Result<Target, ErrorKind>)
    ensures file == Ok(OutFile("/tmp/foo"))
    ensures mode == DefaultMode
    ensures out == Ok(Stdout)
  {
    var fs := new MemFs();
    fs.MkdirAll("/tmp");
    TmpMade();
    AncestorsTmpFoo();
    file := OpenOutFile(fs, "/tmp/foo", DefaultMode);
    mode := fs.files["/tmp/foo"].mode;
    out := OpenOutFile(fs, StdStream, DefaultMode);
  }

  /** `TestLoadContents`: a template named foo loads the contents of the file foo. */
  method LoadContentsScenario() returns (err: Option<ErrorKind>, contents: string)
    ensures err == None
    ensures contents == "contents"
  {
    var fs := new MemFs();
    fs.WriteFile("foo", "contents", DefaultMode);
    ContentsTreeBuilt();
    var t := new Template("foo", "", "");
    err := t.LoadContents(fs, "");
    contents := t.contents;
  }

  /**
   * `TestAddTarget`: on an empty file system, a template targeted at
   * /out/outfile gets that file as its target (the directory /out is
   * registered on the way).
   */
  method AddTargetScenario() returns (err: Option<ErrorKind>, target: Option<Target>)
    ensures err == None
    ensures target == Some(OutFile("/out/outfile"))
  {
    var fs := new MemFs();
    var t := new Template("foo", "/out/outfile", "");
    err := t.AddTarget(fs);
    target := t.target;
  }
}
