/**
 * Reading a template source (`readInput`) and opening an output target
 * (`openOutFile`). The path `-` stands for the process's standard input
 * when reading and for its standard output when writing.
 */
module Inputs {
  import opened Wrappers
  import opened FileSystem

  const StdStream: string := "-"

  /** Error kinds surfaced to the caller. */
  datatype ErrorKind = NotFound | WriteError | ConfigError

  /** Where a job's output goes: the process-wide `Stdout`, or a file of the namespace. */
  datatype Target = Stdout | OutFile(path: string)

  /** `readInput`: the whole standard input for `-`, else the whole named file, else NotFound. */
  function ReadInput(ns: Namespace, stdin: string, path: string): (r: Result<string, ErrorKind>)
    ensures path == StdStream ==> r == Ok(stdin)
    ensures path != StdStream ==> (r.Ok? <==> path in ns.files)
    ensures path != StdStream && r.Ok? ==> r.value == ns.files[path].contents
    ensures r.Err? ==> r.error == NotFound
  {
    if path == StdStream then Ok(stdin)
    else if path in ns.files then Ok(ns.files[path].contents)
    else Err(NotFound)
  }

  /**
   * `openOutFile` over a namespace value: `Stdout` for `-` with the namespace
   * untouched; otherwise the file is created or truncated with `mode`, or
   * WriteError when it cannot be.
   */
  function OpenOut(ns: Namespace, path: string, mode: nat): (r: (Result<Target, ErrorKind>, Namespace))
    ensures path == StdStream ==> r == (Ok(Stdout), ns)
    ensures path != StdStream ==> (r.0.Ok? <==> CanCreate(ns, path))
    ensures path != StdStream && r.0.Ok? ==> r.0.value == OutFile(path) && r.1 == Create(ns, path, mode)
    ensures r.0.Err? ==> r.0.error == WriteError && r.1 == ns
  {
    if path == StdStream then (Ok(Stdout), ns)
    else if CanCreate(ns, path) then (Ok(OutFile(path)), Create(ns, path, mode))
    else (Err(WriteError), ns)
  }

  /** `openOutFile(path, mode)` against the global file system. */
  method OpenOutFile(fs: MemFs, path: string, mode: nat) returns (r: Result<Target, ErrorKind>)
    modifies fs
    ensures (r, fs.View()) == OpenOut(old(fs.View()), path, mode)
  {
    if path == StdStream {
      return Ok(Stdout);
    }
    var ok := fs.OpenFile(path, mode);
    if ok {
      r := Ok(OutFile(path));
    } else {
      r := Err(WriteError);
    }
  }

  /** What was written to a file is what reading it gives back, byte for byte. */
  lemma ReadAfterWrite(ns: Namespace, stdin: string, path: string, data: string, mode: nat)
    requires path != StdStream && CanCreate(ns, path)
    ensures ReadInput(WithFile(ns, path, data, mode), stdin, path) == Ok(data)
  {
  }

  /** A file opened for output exists afterwards, empty, with the requested mode when it is new. */
  lemma OpenOutCreates(ns: Namespace, path: string, mode: nat, stdin: string)
    requires path != StdStream && path !in ns.files
    requires OpenOut(ns, path, mode).0.Ok?
    ensures ReadInput(OpenOut(ns, path, mode).1, stdin, path) == Ok([])
    ensures OpenOut(ns, path, mode).1.files[path].mode == mode
  {
  }

  /** Opening an output never removes a file and never changes another file's contents. */
  lemma OpenOutKeepsOthers(ns: Namespace, path: string, mode: nat, stdin: string, other: string)
    requires other != path
    ensures ReadInput(OpenOut(ns, path, mode).1, stdin, other) == ReadInput(ns, stdin, other)
  {
  }
}
