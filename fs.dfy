/**
 * The part of the operating system's file tree the commands touch, below one
 * root directory (the scratch directory a backup or restore works in). A path
 * is the sequence of its components below that root.
 */
module FS {
  import opened Wrappers

  type Path = seq<string>

  /** `p` is `q` itself or one of the directories on the way to it. */
  predicate PrefixOf(p: Path, q: Path) {
    |p| <= |q| && q[..|p|] == p
  }

  /** `q` lies strictly inside directory `p`, at any depth. */
  predicate Below(p: Path, q: Path) {
    |p| < |q| && q[..|p|] == p
  }

  /** A prefix of an ancestor of `q` is a prefix of `q`. */
  lemma PrefixOfAncestor(p: Path, q: Path, k: nat)
    requires k <= |q|
    ensures PrefixOf(p, q[..k]) ==> PrefixOf(p, q)
  {
    if PrefixOf(p, q[..k]) {
      assert q[..k][..|p|] == q[..|p|];
    }
  }

  /** `p` and every directory on the way to it. */
  function Prefixes(p: Path): (r: set<Path>)
    ensures forall q :: q in r <==> PrefixOf(q, p)
  {
    set k | 0 <= k <= |p| :: p[..k]
  }

  /** The tree's contents: each regular file's path with its bytes, and each directory's path. */
  datatype Disk = Disk(files: map<Path, string>, dirs: set<Path>) {
    /** The root exists, nothing is both a file and a directory, and every ancestor of an entry is a directory. */
    ghost predicate Valid() {
      && [] in dirs
      && (forall p :: p in files ==> p !in dirs)
      && (forall p, k :: p in dirs && 0 <= k < |p| ==> p[..k] in dirs)
      && (forall p, k :: p in files && 0 <= k < |p| ==> p[..k] in dirs)
    }
  }

  const NotExist := "no such file or directory"
  const NotDir := "not a directory"
  const IsDir := "is a directory"

  /** os.MkdirAll: creates `p` and its missing parents; fails when `p` or an ancestor is a file. */
  function MkdirAllF(d: Disk, p: Path): (r: Result<Disk>)
    ensures r.Err? <==> exists k :: 0 <= k <= |p| && p[..k] in d.files
    ensures r.Ok? ==> r.value.files == d.files && r.value.dirs == d.dirs + Prefixes(p)
    ensures d.Valid() && r.Ok? ==> r.value.Valid()
  {
    if exists k :: 0 <= k <= |p| && p[..k] in d.files then Err(NotDir)
    else
      var r := Disk(d.files, d.dirs + Prefixes(p));
      assert d.Valid() ==> r.Valid() by {
        if d.Valid() {
          forall q, k | q in r.dirs && 0 <= k < |q|
            ensures q[..k] in r.dirs
          {
            if q in Prefixes(p) {
              assert q[..k] == p[..k];
            }
          }
        }
      }
      Ok(r)
  }

  /** os.WriteFile: creates or replaces a file whose parent directory exists. */
  function WriteFileF(d: Disk, p: Path, content: string): (r: Result<Disk>)
    ensures r.Ok? <==> p !in d.dirs && p != [] && p[..|p| - 1] in d.dirs
    ensures r.Ok? ==> r.value == Disk(d.files[p := content], d.dirs)
    ensures d.Valid() && r.Ok? ==> r.value.Valid()
  {
    if p in d.dirs then Err(IsDir)
    else if p == [] || p[..|p| - 1] !in d.dirs then Err(NotExist)
    else
      var r := Disk(d.files[p := content], d.dirs);
      assert d.Valid() ==> r.Valid() by {
        if d.Valid() {
          forall q, k | q in r.files && 0 <= k < |q|
            ensures q[..k] in r.dirs
          {
            if q == p {
              assert q[..k] == p[..|p| - 1][..k];
            }
          }
        }
      }
      Ok(r)
  }

  /** os.Remove applied to a regular file. */
  function RemoveF(d: Disk, p: Path): (r: Result<Disk>)
    ensures r.Ok? <==> p in d.files
    ensures r.Ok? ==> r.value == Disk(d.files - {p}, d.dirs)
    ensures d.Valid() && r.Ok? ==> r.value.Valid()
  {
    if p in d.files then Ok(Disk(d.files - {p}, d.dirs)) else Err(NotExist)
  }

  /** os.RemoveAll: `p` and everything inside it are gone; a missing `p` is not an error. */
  function RemoveAllF(d: Disk, p: Path): (r: Disk)
    requires p != []
    ensures forall q :: q in r.files <==> q in d.files && !PrefixOf(p, q)
    ensures forall q :: q in r.files ==> r.files[q] == d.files[q]
    ensures forall q :: q in r.dirs <==> q in d.dirs && !PrefixOf(p, q)
    ensures d.Valid() ==> r.Valid()
  {
    var r := Disk(map q | q in d.files && !PrefixOf(p, q) :: d.files[q], set q | q in d.dirs && !PrefixOf(p, q));
    assert d.Valid() ==> r.Valid() by {
      if d.Valid() {
        forall q, k | q in r.dirs && 0 <= k < |q|
          ensures q[..k] in r.dirs
        {
          PrefixOfAncestor(p, q, k);
        }
        forall q, k | q in r.files && 0 <= k < |q|
          ensures q[..k] in r.dirs
        {
          PrefixOfAncestor(p, q, k);
        }
      }
    }
    r
  }

  /** The names directly inside directory `p`. */
  function Children(d: Disk, p: Path): set<string> {
    set q | q in d.files.Keys + d.dirs && |q| == |p| + 1 && q[..|p|] == p :: q[|p|]
  }

  /** A method's error result and final tree are the outcome `r` its specification function gives. */
  predicate Reached(err: Option<string>, d: Disk, r: Result<Disk>) {
    match r
    case Ok(v) => err.None? && d == v
    case Err(e) => err == Some(e)
  }

  /** The file tree, updated in place by the operating-system calls the commands make. */
  class FileSystem {
    var files: map<Path, string>
    var dirs: set<Path>

    /** The tree's current contents, as a value. */
    function Snapshot(): Disk
      reads this
    {
      Disk(files, dirs)
    }

    ghost predicate Valid()
      reads this
    {
      Snapshot().Valid()
    }

    /** A tree holding only its (empty) root directory. */
    constructor ()
      ensures Valid() && files == map[] && dirs == {[]}
    {
      files := map[];
      dirs := {[]};
    }

    method MkdirAll(p: Path) returns (err: Option<string>)
      requires Valid()
      modifies this
      ensures Valid()
      ensures MkdirAllF(old(Snapshot()), p).Ok? ==> err.None? && Snapshot() == MkdirAllF(old(Snapshot()), p).value
      ensures MkdirAllF(old(Snapshot()), p).Err? ==> err == Some(NotDir) && Snapshot() == old(Snapshot())
    {
      var r := MkdirAllF(Snapshot(), p);
      if r.Err? {
        return Some(r.error);
      }
      dirs := dirs + Prefixes(p);
      return None;
    }

    method WriteFile(p: Path, content: string) returns (err: Option<string>)
      requires Valid()
      modifies this
      ensures Valid()
      ensures WriteFileF(old(Snapshot()), p, content).Ok? ==> err.None? && Snapshot() == WriteFileF(old(Snapshot()), p, content).value
      ensures WriteFileF(old(Snapshot()), p, content).Err? ==>
        err == Some(WriteFileF(old(Snapshot()), p, content).error) && Snapshot() == old(Snapshot())
    {
      var r := WriteFileF(Snapshot(), p, content);
      if r.Err? {
        return Some(r.error);
      }
      files := files[p := content];
      return None;
    }

    method Remove(p: Path) returns (err: Option<string>)
      requires Valid()
      modifies this
      ensures Valid()
      ensures RemoveF(old(Snapshot()), p).Ok? ==> err.None? && Snapshot() == RemoveF(old(Snapshot()), p).value
      ensures RemoveF(old(Snapshot()), p).Err? ==> err == Some(NotExist) && Snapshot() == old(Snapshot())
    {
      if p !in files {
        return Some(NotExist);
      }
      files := files - {p};
      return None;
    }

    method RemoveAll(p: Path)
      requires Valid() && p != []
      modifies this
      ensures Valid()
      ensures Snapshot() == RemoveAllF(old(Snapshot()), p)
    {
      files := map q | q in files && !PrefixOf(p, q) :: files[q];
      dirs := set q | q in dirs && !PrefixOf(p, q);
    }

    /**
     * os.ReadDir: the names inside directory `p`, each once. The order is left
     * open here; os.ReadDir sorts them by name.
     */
    method ReadDir(p: Path) returns (r: Result<seq<string>>)
      requires Valid()
      ensures r.Err? <==> p !in dirs
      ensures r.Err? ==> r.error == (if p in files then NotDir else NotExist)
      ensures r.Ok? ==> (forall n :: n in r.value <==> n in Children(Snapshot(), p))
      ensures r.Ok? ==> forall i, j :: 0 <= i < j < |r.value| ==> r.value[i] != r.value[j]
    {
      if p !in dirs {
        return Err(if p in files then NotDir else NotExist);
      }
      var rest := Children(Snapshot(), p);
      var names: seq<string> := [];
      while rest != {}
        invariant forall n :: n in names || n in rest <==> n in Children(Snapshot(), p)
        invariant forall n :: n in names ==> n !in rest
        invariant forall i, j :: 0 <= i < j < |names| ==> names[i] != names[j]
        decreases rest
      {
        var n :| n in rest;
        names := names + [n];
        rest := rest - {n};
      }
      return Ok(names);
    }
  }
}
