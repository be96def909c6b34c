/**
 * The in-memory file namespace the template layer works against (afero's
 * MemMapFs): regular files with their contents and permission mode, and a
 * set of directories. Creating a file registers every missing parent
 * directory, as MemMapFs does.
 */
module FileSystem {
  import opened Paths

  /** Permission bits 0644, the mode output files are created with. */
  const DefaultMode: nat := 0x1A4

  datatype File = File(contents: string, mode: nat)

  datatype Namespace = Namespace(files: map<string, File>, dirs: set<string>)
  {
    /** Every name the namespace knows, file or directory. */
    function Entries(): set<string>
    {
      files.Keys + dirs
    }
  }

  const Empty: Namespace := Namespace(map[], {})

  /** A tree: every file and directory sits in directories that exist, and no name is both. */
  ghost predicate WellFormed(ns: Namespace)
  {
    (forall f :: f in ns.files ==> Ancestors(f) <= ns.dirs) &&
    (forall d :: d in ns.dirs ==> Ancestors(d) <= ns.dirs) &&
    ns.files.Keys !! ns.dirs
  }

  /** `MkdirAll` can register `p`: it is named, and neither it nor any directory above it is a file. */
  predicate CanMkdir(ns: Namespace, p: string)
  {
    p != [] && p !in ns.files && Ancestors(p) !! ns.files.Keys
  }

  /**
   * `MkdirAll`: `p` and all of its ancestors become directories; nothing
   * changes when `p` or a directory above it is a file.
   */
  function WithDir(ns: Namespace, p: string): (r: Namespace)
    ensures r.files == ns.files
    ensures CanMkdir(ns, p) ==> r.dirs == ns.dirs + {p} + Ancestors(p)
    ensures !CanMkdir(ns, p) ==> r == ns
  {
    if CanMkdir(ns, p) then ns.(dirs := ns.dirs + {p} + Ancestors(p)) else ns
  }

  /** A file can be created (or truncated) at `p`: it is named, is no directory, and no ancestor is a file. */
  predicate CanCreate(ns: Namespace, p: string)
  {
    p != [] && p !in ns.dirs && Ancestors(p) !! ns.files.Keys
  }

  /**
   * Open `p` with O_CREATE|O_TRUNC: the file becomes empty; a new file gets
   * `mode`, an existing one keeps its own; missing parents are registered.
   */
  function Create(ns: Namespace, p: string, mode: nat): (r: Namespace)
    requires CanCreate(ns, p)
    ensures p in r.files && r.files[p].contents == []
    ensures r.files[p].mode == if p in ns.files then ns.files[p].mode else mode
    ensures r.files.Keys == ns.files.Keys + {p}
    ensures forall q :: q in ns.files && q != p ==> r.files[q] == ns.files[q]
    ensures r.dirs == ns.dirs + Ancestors(p)
  {
    var m := if p in ns.files then ns.files[p].mode else mode;
    Namespace(ns.files[p := File([], m)], ns.dirs + Ancestors(p))
  }

  /** `afero.WriteFile`: create `p` and store `data` in it; nothing changes when `p` cannot be created. */
  function WithFile(ns: Namespace, p: string, data: string, mode: nat): (r: Namespace)
    ensures CanCreate(ns, p) ==> r.files.Keys == ns.files.Keys + {p} && r.dirs == ns.dirs + Ancestors(p)
    ensures CanCreate(ns, p) ==> r.files[p] == File(data, if p in ns.files then ns.files[p].mode else mode)
    ensures CanCreate(ns, p) ==> forall q :: q in ns.files && q != p ==> r.files[q] == ns.files[q]
    ensures !CanCreate(ns, p) ==> r == ns
  {
    if CanCreate(ns, p) then
      var c := Create(ns, p, mode);
      c.(files := c.files[p := File(data, c.files[p].mode)])
    else ns
  }

  /** Creating a file keeps the namespace a tree. */
  lemma CreateWellFormed(ns: Namespace, p: string, mode: nat)
    requires WellFormed(ns) && CanCreate(ns, p)
    ensures WellFormed(Create(ns, p, mode))
  {
    var r := Create(ns, p, mode);
    forall d | d in r.dirs
      ensures Ancestors(d) <= r.dirs
    {
      if d !in ns.dirs {
        AncestorsTransitive(p, d);
      }
    }
  }

  /** Making a directory keeps the namespace a tree. */
  lemma WithDirWellFormed(ns: Namespace, p: string)
    requires WellFormed(ns)
    ensures WellFormed(WithDir(ns, p))
  {
    var r := WithDir(ns, p);
    if CanMkdir(ns, p) {
      forall d | d in r.dirs
        ensures Ancestors(d) <= r.dirs
      {
        if d !in ns.dirs && d != p {
          AncestorsTransitive(p, d);
        }
      }
    }
  }

  /** Writing a file keeps the namespace a tree. */
  lemma WithFileWellFormed(ns: Namespace, p: string, data: string, mode: nat)
    requires WellFormed(ns)
    ensures WellFormed(WithFile(ns, p, data, mode))
  {
    if CanCreate(ns, p) {
      CreateWellFormed(ns, p, mode);
    }
  }

  /** The global `fs` of the Go package: a namespace that operations update in place. */
  class MemFs {
    var files: map<string, File>
    var dirs: set<string>

    function View(): Namespace
      reads this
    {
      Namespace(files, dirs)
    }

    /** `afero.NewMemMapFs()`: nothing in it. */
    constructor ()
      ensures View() == Empty
    {
      files := map[];
      dirs := {};
    }

    /** `fs.MkdirAll(p, perm)`. */
    method MkdirAll(p: string)
      modifies this
      ensures View() == WithDir(old(View()), p)
    {
      if CanMkdir(View(), p) {
        dirs := dirs + {p} + Ancestors(p);
      }
    }

    /**
     * `fs.OpenFile(p, O_RDWR|O_CREATE|O_TRUNC, mode)`: reports whether the
     * file could be created; on success the namespace is `Create`'s.
     */
    method OpenFile(p: string, mode: nat) returns (ok: bool)
      modifies this
      ensures ok == CanCreate(old(View()), p)
      ensures ok ==> View() == Create(old(View()), p, mode)
      ensures !ok ==> View() == old(View())
    {
      ok := CanCreate(View(), p);
      if ok {
        var m := if p in files then files[p].mode else mode;
        files := files[p := File([], m)];
        dirs := dirs + Ancestors(p);
      }
    }

    /** `afero.WriteFile(fs, p, data, mode)`. */
    method WriteFile(p: string, data: string, mode: nat)
      modifies this
      ensures View() == WithFile(old(View()), p, data, mode)
    {
      var ok := OpenFile(p, mode);
      if ok {
        files := files[p := File(data, files[p].mode)];
      }
    }
  }
}
