/**
 * The restore command (cmd/restore.go): checks its flags, creates the target
 * directory, and copies into it either the whole scratch tree the tag was to be
 * checked out into, or, under an env-id/ws-id filter, one workspace directory of
 * the matching environment directory together with that environment
 * directory's own files.
 *
 * The scratch tree is a value (`Node`), each directory's entries in the order
 * os.ReadDir lists them; the target side is the file tree of module FS, changed
 * in place by the copy.
 */
module Restore {
  import opened Wrappers
  import opened Text
  import opened Seqs
  import opened Config
  import opened FS
  import B = Backup

  // ---------------------------------------------------------------------------
  // Flags (PreRunE)

  /** The four flags of the command; `targetDir` is the text given on the command line. */
  datatype Flags = Flags(tag: string, targetDir: string, envID: string, wsID: string)

  const TagNeedsTarget := "target-dir is required when tag is specified (non-interactive mode)"
  const DryRunNeedsBoth := "both tag and target-dir parameters are required when using dry-run with restore"
  const IdsTogether := "both env-id and ws-id must be provided together if one is specified"

  /**
   * restoreCmd.PreRunE: a tag needs a target directory, a dry run needs both,
   * and env-id and ws-id come together or not at all; the checks run in that
   * order and the first that fails is reported.
   */
  function ValidateFlags(f: Flags, dryRun: bool): (r: Option<string>)
    ensures r == Some(TagNeedsTarget) <==> f.tag != "" && f.targetDir == ""
    ensures r == Some(DryRunNeedsBoth) <==>
      !(f.tag != "" && f.targetDir == "") && dryRun && (f.tag == "" || f.targetDir == "")
    ensures r == Some(IdsTogether) <==>
      (f.tag != "" ==> f.targetDir != "") && (dryRun ==> f.tag != "" && f.targetDir != "") && ((f.envID == "") != (f.wsID == ""))
    ensures r.None? <==>
      (f.tag != "" ==> f.targetDir != "") && (dryRun ==> f.tag != "" && f.targetDir != "") && ((f.envID == "") == (f.wsID == ""))
  {
    if f.tag != "" && f.targetDir == "" then Some(TagNeedsTarget)
    else if dryRun && (f.tag == "" || f.targetDir == "") then Some(DryRunNeedsBoth)
    else if (f.envID != "" && f.wsID == "") || (f.envID == "" && f.wsID != "") then Some(IdsTogether)
    else None
  }

  // ---------------------------------------------------------------------------
  // findWorkspaceByNameOrID

  /** The loop's test for a configured workspace against the requested id and a directory's name. */
  predicate WorkspaceMatches(ws: Workspace, wsID: string, wsName: string) {
    ws.id == wsID || ws.id == Wildcard || (ws.name == wsName && (wsID == "" || ws.id == wsID))
  }

  /** The loop of findWorkspaceByNameOrID from workspace `i` on: the first that matches. */
  function MatchFrom(wss: seq<Workspace>, wsID: string, wsName: string, i: nat): Option<Workspace>
    requires i <= |wss|
    decreases |wss| - i
  {
    if i == |wss| then None
    else if WorkspaceMatches(wss[i], wsID, wsName) then Some(wss[i])
    else MatchFrom(wss, wsID, wsName, i + 1)
  }

  /**
   * findWorkspaceByNameOrID: nothing when the environment is not configured;
   * otherwise the first configured workspace that matches, and failing that a
   * workspace made up from the id and the name when the environment has a
   * wildcard workspace.
   */
  function FindWorkspaceByNameOrID(p: PlainIDConfig, envID: string, wsID: string, wsName: string): Option<Workspace> {
    match FindEnvironment(p, envID)
    case None => None
    case Some(k) =>
      var env := p.envs[k];
      match MatchFrom(env.workspaces, wsID, wsName, 0)
      case Some(ws) => Some(ws)
      case None => if HasWildcardWorkspace(env) then Some(Workspace(wsID, wsName)) else None
  }

  lemma {:induction false} MatchFromFirst(wss: seq<Workspace>, wsID: string, wsName: string, i: nat)
    requires i <= |wss|
    ensures var r := MatchFrom(wss, wsID, wsName, i);
      && (r.None? <==> forall k :: i <= k < |wss| ==> !WorkspaceMatches(wss[k], wsID, wsName))
      && (r.Some? ==> exists k :: i <= k < |wss| && r.value == wss[k] && WorkspaceMatches(wss[k], wsID, wsName) &&
                                  forall j :: i <= j < k ==> !WorkspaceMatches(wss[j], wsID, wsName))
    decreases |wss| - i
  {
    if i < |wss| {
      var r := MatchFrom(wss, wsID, wsName, i);
      if WorkspaceMatches(wss[i], wsID, wsName) {
        assert r == Some(wss[i]);
      } else {
        MatchFromFirst(wss, wsID, wsName, i + 1);
        assert r == MatchFrom(wss, wsID, wsName, i + 1);
        if r.Some? {
          var k :| i + 1 <= k < |wss| && r.value == wss[k] && WorkspaceMatches(wss[k], wsID, wsName) &&
                   forall j :: i + 1 <= j < k ==> !WorkspaceMatches(wss[j], wsID, wsName);
          assert forall j :: i <= j < k ==> !WorkspaceMatches(wss[j], wsID, wsName);
        }
      }
    }
  }

  /**
   * findWorkspaceByNameOrID answers nothing for an environment that is not
   * configured, and otherwise the first configured workspace that matches, if
   * one does: the made-up wildcard workspace is never returned, since a
   * wildcard workspace already matches in the loop.
   */
  lemma FindWorkspaceFirstMatch(p: PlainIDConfig, envID: string, wsID: string, wsName: string)
    ensures var r := FindWorkspaceByNameOrID(p, envID, wsID, wsName);
      && (FindEnvironment(p, envID).None? ==> r.None?)
      && (FindEnvironment(p, envID).Some? ==>
            var wss := p.envs[FindEnvironment(p, envID).value].workspaces;
            && (r.Some? <==> exists i :: 0 <= i < |wss| && WorkspaceMatches(wss[i], wsID, wsName))
            && (r.Some? ==> exists i :: 0 <= i < |wss| && r.value == wss[i] && WorkspaceMatches(wss[i], wsID, wsName) &&
                                        forall j :: 0 <= j < i ==> !WorkspaceMatches(wss[j], wsID, wsName)))
  {
    match FindEnvironment(p, envID)
    case None =>
    case Some(k) =>
      var env := p.envs[k];
      MatchFromFirst(env.workspaces, wsID, wsName, 0);
      if MatchFrom(env.workspaces, wsID, wsName, 0).None? {
        WildcardFallbackUnreachable(env, wsID, wsName);
      }
  }

  /** A wildcard workspace matches in the loop, so when the loop finds nothing there is none. */
  lemma WildcardFallbackUnreachable(env: Environment, wsID: string, wsName: string)
    requires forall i :: 0 <= i < |env.workspaces| ==> !WorkspaceMatches(env.workspaces[i], wsID, wsName)
    ensures !HasWildcardWorkspace(env)
  {
  }

  /** With a non-empty id the loop's test does not look at the name. */
  lemma {:induction false} MatchFromIgnoresName(wss: seq<Workspace>, wsID: string, name1: string, name2: string, i: nat)
    requires wsID != "" && i <= |wss|
    ensures MatchFrom(wss, wsID, name1, i) == MatchFrom(wss, wsID, name2, i)
    decreases |wss| - i
  {
    if i < |wss| {
      MatchFromIgnoresName(wss, wsID, name1, name2, i + 1);
    }
  }

  /**
   * The clause `ws.ID == wsID` does not look at the directory's name: when the
   * requested workspace is configured, every directory name is answered, and
   * always with the same workspace.
   */
  lemma ConfiguredIdMatchesAnyName(p: PlainIDConfig, envID: string, wsID: string, name1: string, name2: string)
    requires wsID != "" && FindEnvironment(p, envID).Some?
    requires exists i :: 0 <= i < |p.envs[FindEnvironment(p, envID).value].workspaces| &&
                         p.envs[FindEnvironment(p, envID).value].workspaces[i].id == wsID
    ensures FindWorkspaceByNameOrID(p, envID, wsID, name1).Some?
    ensures FindWorkspaceByNameOrID(p, envID, wsID, name1) == FindWorkspaceByNameOrID(p, envID, wsID, name2)
  {
    var wss := p.envs[FindEnvironment(p, envID).value].workspaces;
    var i :| 0 <= i < |wss| && wss[i].id == wsID;
    assert WorkspaceMatches(wss[i], wsID, name1);
    MatchFromFirst(wss, wsID, name1, 0);
    MatchFromIgnoresName(wss, wsID, name1, name2, 0);
  }

  // ---------------------------------------------------------------------------
  // The scratch tree

  /** A file with its bytes, or a directory with its entries in os.ReadDir order. */
  datatype Node = File(content: string) | Dir(entries: seq<Entry>)
  datatype Entry = Entry(name: string, node: Node)

  /** Every directory lists each name once. */
  predicate WellFormed(n: Node)
    decreases n
  {
    n.Dir? ==>
      && (forall i, j :: 0 <= i < j < |n.entries| ==> n.entries[i].name != n.entries[j].name)
      && (forall i :: 0 <= i < |n.entries| ==> WellFormed(n.entries[i].node))
  }

  /** The index of the entry called `name`. */
  function EntryNamed(es: seq<Entry>, name: string): (r: Option<nat>)
    ensures r.Some? ==> r.value < |es| && es[r.value].name == name
    ensures r.None? <==> forall j :: 0 <= j < |es| ==> es[j].name != name
  {
    FirstIndex(es, (e: Entry) => e.name == name)
  }

  /** The content of the file at relative path `rel` in `n`, if there is a file there. */
  function FileAt(n: Node, rel: Path): Option<string>
    decreases n
  {
    match n
    case File(c) => if rel == [] then Some(c) else None
    case Dir(es) =>
      if rel == [] then None
      else
        match EntryNamed(es, rel[0])
        case None => None
        case Some(k) => FileAt(es[k].node, rel[1..])
  }

  /** What copying `n` to `dst` puts at `q`: the file of `n` at the same place relative to `dst`. */
  function CopiedAt(n: Node, dst: Path, q: Path): Option<string> {
    if PrefixOf(dst, q) then FileAt(n, q[|dst|..]) else None
  }

  /** The same, for the entries of directory `n` from index `i` on. */
  function CopiedFrom(n: Node, dst: Path, i: nat, q: Path): Option<string>
    requires n.Dir?
  {
    if Below(dst, q) then
      match EntryNamed(n.entries, q[|dst|])
      case Some(k) => if k >= i then FileAt(n.entries[k].node, q[|dst| + 1..]) else None
      case None => None
    else None
  }

  /** `r` is `d` with the file `copied(q)` at every `q` where that is some file, and nothing else changed. */
  predicate Overlaid(d: Disk, r: Disk, q: Path, copied: Option<string>) {
    && (q in r.files <==> q in d.files || copied.Some?)
    && (q in r.files ==> r.files[q] == if copied.Some? then copied.value else d.files[q])
  }

  // ---------------------------------------------------------------------------
  // copyFile and copyDir

  /** copyFile: the destination's directory is created and the file written with the source's bytes. */
  function CopyFileF(d: Disk, content: string, dst: Path): (r: Result<Disk>)
    requires dst != []
    ensures r.Ok? <==> (forall k :: 0 <= k < |dst| ==> dst[..k] !in d.files) && dst !in d.dirs
    ensures r.Ok? ==> r.value.files == d.files[dst := content] && r.value.dirs == d.dirs + Prefixes(dst[..|dst| - 1])
    ensures d.Valid() && r.Ok? ==> r.value.Valid()
  {
    var parent := dst[..|dst| - 1];
    match MkdirAllF(d, parent)
    case Err(e) =>
      assert exists k :: 0 <= k <= |parent| && parent[..k] in d.files;
      var k :| 0 <= k <= |parent| && parent[..k] in d.files;
      assert dst[..k] == parent[..k];
      Err(e)
    case Ok(d1) =>
      assert forall k :: 0 <= k < |dst| ==> dst[..k] == parent[..k];
      assert dst !in Prefixes(parent);
      WriteFileF(d1, dst, content)
  }

  /**
   * copyDir: the destination directory is created, then each entry of the
   * source is copied into it in order, directories by a recursive copyDir and
   * files by copyFile; the first failure ends the copy. A source that is a file
   * fails once the destination exists, when its entries are read.
   */
  function CopyDirF(d: Disk, n: Node, dst: Path): Result<Disk>
    decreases n, 1
  {
    match MkdirAllF(d, dst)
    case Err(e) => Err(e)
    case Ok(d1) => if n.File? then Err(NotDir) else CopyEntriesF(d1, n, dst, 0)
  }

  /** The copy loop of copyDir from entry `i` on. */
  function CopyEntriesF(d: Disk, n: Node, dst: Path, i: nat): Result<Disk>
    requires n.Dir? && i <= |n.entries|
    decreases n, 0, |n.entries| - i
  {
    if i == |n.entries| then Ok(d)
    else
      var e := n.entries[i];
      var r := if e.node.Dir? then CopyDirF(d, e.node, dst + [e.name]) else CopyFileF(d, e.node.content, dst + [e.name]);
      match r
      case Err(err) => Err(err)
      case Ok(d1) => CopyEntriesF(d1, n, dst, i + 1)
  }

  /** The file tree stays valid through a copy. */
  lemma CopyDirValid(d: Disk, n: Node, dst: Path)
    requires d.Valid() && CopyDirF(d, n, dst).Ok?
    ensures CopyDirF(d, n, dst).value.Valid()
    decreases n, 1
  {
    CopyEntriesValid(MkdirAllF(d, dst).value, n, dst, 0);
  }

  lemma CopyEntriesValid(d: Disk, n: Node, dst: Path, i: nat)
    requires n.Dir? && i <= |n.entries|
    requires d.Valid() && CopyEntriesF(d, n, dst, i).Ok?
    ensures CopyEntriesF(d, n, dst, i).value.Valid()
    decreases n, 0, |n.entries| - i
  {
    if i < |n.entries| {
      var e := n.entries[i];
      if e.node.Dir? {
        CopyDirValid(d, e.node, dst + [e.name]);
        CopyEntriesValid(CopyDirF(d, e.node, dst + [e.name]).value, n, dst, i + 1);
      } else {
        CopyEntriesValid(CopyFileF(d, e.node.content, dst + [e.name]).value, n, dst, i + 1);
      }
    }
  }

  method CopyFile(fs: FileSystem, content: string, dst: Path) returns (err: Option<string>)
    requires fs.Valid() && dst != []
    modifies fs
    ensures fs.Valid()
    ensures Reached(err, fs.Snapshot(), CopyFileF(old(fs.Snapshot()), content, dst))
  {
    err := fs.MkdirAll(dst[..|dst| - 1]);
    if err.Some? {
      return;
    }
    err := fs.WriteFile(dst, content);
  }

  method CopyDir(fs: FileSystem, n: Node, dst: Path) returns (err: Option<string>)
    requires fs.Valid()
    modifies fs
    ensures fs.Valid()
    ensures Reached(err, fs.Snapshot(), CopyDirF(old(fs.Snapshot()), n, dst))
    decreases n
  {
    err := fs.MkdirAll(dst);
    if err.Some? {
      return;
    }
    if n.File? {
      return Some(NotDir);
    }
    ghost var d1 := fs.Snapshot();
    for i := 0 to |n.entries|
      invariant fs.Valid()
      invariant err.None?
      invariant CopyEntriesF(d1, n, dst, 0) == CopyEntriesF(fs.Snapshot(), n, dst, i)
    {
      var e := n.entries[i];
      if e.node.Dir? {
        err := CopyDir(fs, e.node, dst + [e.name]);
      } else {
        err := CopyFile(fs, e.node.content, dst + [e.name]);
      }
      if err.Some? {
        return;
      }
    }
  }

  // ---------------------------------------------------------------------------
  // What a copy leaves in the target

  /**
   * A successful copyDir leaves every file of the source at the same relative
   * place below the destination, with the same bytes, and every other file as
   * it was.
   */
  lemma {:induction false} CopyDirAt(d: Disk, n: Node, dst: Path, q: Path)
    requires WellFormed(n) && CopyDirF(d, n, dst).Ok?
    ensures Overlaid(d, CopyDirF(d, n, dst).value, q, CopiedAt(n, dst, q))
    decreases n, 1
  {
    var d1 := MkdirAllF(d, dst).value;
    CopyEntriesAt(d1, n, dst, 0, q);
    if Below(dst, q) {
      assert q[|dst|..][0] == q[|dst|] && q[|dst|..][1..] == q[|dst| + 1..];
    }
  }

  lemma {:induction false} CopyEntriesAt(d: Disk, n: Node, dst: Path, i: nat, q: Path)
    requires n.Dir? && i <= |n.entries| && WellFormed(n) && CopyEntriesF(d, n, dst, i).Ok?
    ensures Overlaid(d, CopyEntriesF(d, n, dst, i).value, q, CopiedFrom(n, dst, i, q))
    decreases n, 0, |n.entries| - i
  {
    if i < |n.entries| {
      var e := n.entries[i];
      var sub := dst + [e.name];
      var d1 := (if e.node.Dir? then CopyDirF(d, e.node, sub) else CopyFileF(d, e.node.content, sub)).value;
      CopyEntriesAt(d1, n, dst, i + 1, q);
      if e.node.Dir? {
        CopyDirAt(d, e.node, sub, q);
      } else {
        FileCopiedAt(d, e.node.content, sub, q);
      }
      CopiedFromStep(n, dst, i, q);
      OverlaidTwice(d, d1, CopyEntriesF(d1, n, dst, i + 1).value, q, CopiedAt(e.node, sub, q), CopiedFrom(n, dst, i + 1, q));
    }
  }

  /** copyFile is copyDir of a single file: it overlays exactly its destination. */
  lemma FileCopiedAt(d: Disk, content: string, dst: Path, q: Path)
    requires dst != [] && CopyFileF(d, content, dst).Ok?
    ensures Overlaid(d, CopyFileF(d, content, dst).value, q, CopiedAt(File(content), dst, q))
  {
    if PrefixOf(dst, q) && q != dst {
      assert q[|dst|..] != [];
    }
  }

  /** Entry `i` owns the paths below `dst/<its name>`; the later entries own none of them. */
  lemma CopiedFromStep(n: Node, dst: Path, i: nat, q: Path)
    requires n.Dir? && WellFormed(n) && i < |n.entries|
    ensures CopiedFrom(n, dst, i, q) ==
              if PrefixOf(dst + [n.entries[i].name], q) then CopiedAt(n.entries[i].node, dst + [n.entries[i].name], q)
              else CopiedFrom(n, dst, i + 1, q)
    ensures PrefixOf(dst + [n.entries[i].name], q) ==> CopiedFrom(n, dst, i + 1, q).None?
  {
    var e := n.entries[i];
    var sub := dst + [e.name];
    if PrefixOf(sub, q) {
      assert q[..|dst|] == sub[..|dst|] == dst && q[|dst|] == sub[|dst|] == e.name;
      assert EntryNamed(n.entries, e.name) == Some(i);
      assert q[|sub|..] == q[|dst| + 1..];
    } else if Below(dst, q) {
      assert q[..|dst| + 1] == dst + [q[|dst|]];
    }
  }

  /** Two overlays one after the other: the later one wins where both put a file. */
  lemma OverlaidTwice(d: Disk, d1: Disk, r: Disk, q: Path, c1: Option<string>, c2: Option<string>)
    requires Overlaid(d, d1, q, c1) && Overlaid(d1, r, q, c2)
    ensures Overlaid(d, r, q, Later(c1, c2))
  {
  }

  /** The file a later copy puts at a path, else the earlier one's. */
  function Later(c1: Option<string>, c2: Option<string>): Option<string> {
    if c2.Some? then c2 else c1
  }

  /** copyDir as a whole: the destination overlaid with the source's files. */
  lemma CopyDirContents(d: Disk, n: Node, dst: Path)
    requires WellFormed(n) && CopyDirF(d, n, dst).Ok?
    ensures forall q :: Overlaid(d, CopyDirF(d, n, dst).value, q, CopiedAt(n, dst, q))
  {
    forall q {
      CopyDirAt(d, n, dst, q);
    }
  }

  // ---------------------------------------------------------------------------
  // Choosing the environment and workspace to restore

  /** A top-level directory of the checkout whose name ends in `_<envID>`. */
  predicate IsEnvDir(e: Entry, envID: string) {
    e.node.Dir? && HasSuffix(e.name, "_" + envID)
  }

  /** A directory inside an environment directory that findWorkspaceByNameOrID accepts by its name. */
  predicate IsWsDir(p: PlainIDConfig, e: Entry, envID: string, wsID: string) {
    e.node.Dir? && FindWorkspaceByNameOrID(p, envID, wsID, e.name).Some?
  }

  /** The inner loop of the filtered restore from entry `j` on: the first workspace directory. */
  function WsDirFrom(p: PlainIDConfig, es: seq<Entry>, envID: string, wsID: string, j: nat): (r: Option<nat>)
    requires j <= |es|
    ensures r.Some? ==> j <= r.value < |es| && IsWsDir(p, es[r.value], envID, wsID)
    decreases |es| - j
  {
    if j == |es| then None
    else if IsWsDir(p, es[j], envID, wsID) then Some(j)
    else WsDirFrom(p, es, envID, wsID, j + 1)
  }

  /** The first workspace directory among an environment directory's entries. */
  function WsDirIn(p: PlainIDConfig, es: seq<Entry>, envID: string, wsID: string): (r: Option<nat>)
    ensures r.Some? ==> r.value < |es| && IsWsDir(p, es[r.value], envID, wsID)
  {
    WsDirFrom(p, es, envID, wsID, 0)
  }

  /** An environment directory holding at least one workspace directory. */
  predicate EnvDirWithWs(p: PlainIDConfig, e: Entry, envID: string, wsID: string) {
    IsEnvDir(e, envID) && WsDirIn(p, e.node.entries, envID, wsID).Some?
  }

  /**
   * The outer loop of the filtered restore from top-level entry `i` on: an
   * environment directory without a workspace directory is passed over, and
   * the first one with one ends the search.
   */
  function SearchFrom(p: PlainIDConfig, root: seq<Entry>, envID: string, wsID: string, i: nat): (r: Option<(nat, nat)>)
    requires i <= |root|
    ensures r.Some? ==> i <= r.value.0 < |root| && EnvDirWithWs(p, root[r.value.0], envID, wsID) &&
                        r.value.1 < |root[r.value.0].node.entries|
    decreases |root| - i
  {
    if i == |root| then None
    else if EnvDirWithWs(p, root[i], envID, wsID) then Some((i, WsDirIn(p, root[i].node.entries, envID, wsID).value))
    else SearchFrom(p, root, envID, wsID, i + 1)
  }

  /** The (environment, workspace) directory pair the filtered restore copies. */
  function Selection(p: PlainIDConfig, root: seq<Entry>, envID: string, wsID: string): (r: Option<(nat, nat)>)
    ensures r.Some? ==> r.value.0 < |root| && EnvDirWithWs(p, root[r.value.0], envID, wsID) &&
                        r.value.1 < |root[r.value.0].node.entries|
  {
    SearchFrom(p, root, envID, wsID, 0)
  }

  lemma {:induction false} WsDirFromFirst(p: PlainIDConfig, es: seq<Entry>, envID: string, wsID: string, j: nat)
    requires j <= |es|
    ensures var r := WsDirFrom(p, es, envID, wsID, j);
      && (r.None? <==> forall k :: j <= k < |es| ==> !IsWsDir(p, es[k], envID, wsID))
      && (r.Some? ==> j <= r.value < |es| && IsWsDir(p, es[r.value], envID, wsID) &&
                      forall k :: j <= k < r.value ==> !IsWsDir(p, es[k], envID, wsID))
    decreases |es| - j
  {
    if j < |es| && !IsWsDir(p, es[j], envID, wsID) {
      WsDirFromFirst(p, es, envID, wsID, j + 1);
    }
  }

  lemma {:induction false} SearchFromFirst(p: PlainIDConfig, root: seq<Entry>, envID: string, wsID: string, i: nat)
    requires i <= |root|
    ensures var r := SearchFrom(p, root, envID, wsID, i);
      && (r.None? <==> forall k :: i <= k < |root| ==> !EnvDirWithWs(p, root[k], envID, wsID))
      && (r.Some? ==> i <= r.value.0 < |root| && EnvDirWithWs(p, root[r.value.0], envID, wsID) &&
                      r.value.1 == WsDirIn(p, root[r.value.0].node.entries, envID, wsID).value &&
                      forall k :: i <= k < r.value.0 ==> !EnvDirWithWs(p, root[k], envID, wsID))
    decreases |root| - i
  {
    if i < |root| && !EnvDirWithWs(p, root[i], envID, wsID) {
      SearchFromFirst(p, root, envID, wsID, i + 1);
    }
  }

  /**
   * The filtered restore copies the first environment directory, in listing
   * order, that holds a workspace directory, and within it the first such
   * workspace directory; it finds nothing exactly when no environment
   * directory holds one.
   */
  lemma SelectionIsFirst(p: PlainIDConfig, root: seq<Entry>, envID: string, wsID: string)
    ensures var r := Selection(p, root, envID, wsID);
      && (r.None? <==> forall i :: 0 <= i < |root| ==> !EnvDirWithWs(p, root[i], envID, wsID))
      && (r.Some? ==>
            && r.value.0 < |root| && IsEnvDir(root[r.value.0], envID)
            && (forall i :: 0 <= i < r.value.0 ==> !EnvDirWithWs(p, root[i], envID, wsID))
            && r.value.1 < |root[r.value.0].node.entries|
            && IsWsDir(p, root[r.value.0].node.entries[r.value.1], envID, wsID)
            && (forall j :: 0 <= j < r.value.1 ==> !IsWsDir(p, root[r.value.0].node.entries[j], envID, wsID)))
  {
    SearchFromFirst(p, root, envID, wsID, 0);
    var r := Selection(p, root, envID, wsID);
    if r.Some? {
      WsDirFromFirst(p, root[r.value.0].node.entries, envID, wsID, 0);
    }
  }

  /**
   * When the workspace id is configured in the environment, every directory
   * name is accepted, so the first directory of the environment directory is
   * the one restored, whatever its name.
   */
  lemma ConfiguredIdTakesFirstDir(p: PlainIDConfig, es: seq<Entry>, envID: string, wsID: string, j: nat)
    requires wsID != "" && FindEnvironment(p, envID).Some?
    requires exists i :: 0 <= i < |p.envs[FindEnvironment(p, envID).value].workspaces| &&
                         p.envs[FindEnvironment(p, envID).value].workspaces[i].id == wsID
    requires j < |es| && es[j].node.Dir? && forall k :: 0 <= k < j ==> !es[k].node.Dir?
    ensures WsDirIn(p, es, envID, wsID) == Some(j)
  {
    ConfiguredIdMatchesAnyName(p, envID, wsID, es[j].name, es[j].name);
    WsDirFromFirst(p, es, envID, wsID, 0);
    assert IsWsDir(p, es[j], envID, wsID);
  }

  /** Every environment directory a backup writes passes the suffix test for its own id. */
  lemma BackupEnvDirSelected(env: Environment, n: Node)
    requires n.Dir?
    ensures IsEnvDir(Entry(B.EnvDirName(env), n), env.id)
  {
    var name := B.EnvDirName(env);
    assert name == env.name + ("_" + env.id);
    assert name[|name| - |"_" + env.id|..] == "_" + env.id;
  }

  // ---------------------------------------------------------------------------
  // The restore run

  const InteractiveNotImplemented := "interactive mode is not yet implemented"

  /** A value in single quotes, as the `'%s'` verbs of the error message print it. */
  function Quoted(s: string): string {
    "'" + s + "'"
  }

  function NotFound(f: Flags): string {
    "could not find configuration" + " for environment " + Quoted(f.envID) + " and workspace " + Quoted(f.wsID) +
    " in tag " + Quoted(f.tag)
  }

  /** The environment-level files, copied directly into the target from entry `k` on. */
  function EnvFilesF(d: Disk, es: seq<Entry>, target: Path, k: nat): Result<Disk>
    requires k <= |es|
    decreases |es| - k
  {
    if k == |es| then Ok(d)
    else if es[k].node.Dir? then EnvFilesF(d, es, target, k + 1)
    else
      match CopyFileF(d, es[k].node.content, target + [es[k].name])
      case Err(e) => Err(Wrap("failed to copy environment file", e))
      case Ok(d1) => EnvFilesF(d1, es, target, k + 1)
  }

  /** The filtered restore: the chosen workspace directory, then its environment's files, into the target. */
  function FilteredF(d: Disk, p: PlainIDConfig, root: seq<Entry>, f: Flags, target: Path): Result<Disk> {
    match Selection(p, root, f.envID, f.wsID)
    case None => Err(NotFound(f))
    case Some((i, j)) =>
      var es := root[i].node.entries;
      match CopyDirF(d, es[j].node, target)
      case Err(e) => Err(Wrap("failed to copy workspace directory", e))
      case Ok(d1) => EnvFilesF(d1, es, target, 0)
  }

  /**
   * The restore command after its flags are parsed: `root` is the listing of
   * the checked-out tag, `d` the local disk holding the target.
   */
  function RestoreF(d: Disk, cfg: Config, f: Flags, target: Path, root: seq<Entry>): Result<Disk> {
    match ValidateFlags(f, cfg.dryRun)
    case Some(e) => Err(e)
    case None =>
      if f.tag == "" then Err(InteractiveNotImplemented)
      else
        match MkdirAllF(d, target)
        case Err(e) => Err(Wrap("failed to create target directory", e))
        case Ok(d1) =>
          if f.envID != "" && f.wsID != "" then FilteredF(d1, cfg.plainId, root, f, target)
          else
            match CopyDirF(d1, Dir(root), target)
            case Err(e) => Err(Wrap("failed to copy configuration", e))
            case Ok(d2) => Ok(d2)
  }

  method FilteredRestore(fs: FileSystem, p: PlainIDConfig, root: seq<Entry>, f: Flags, target: Path)
    returns (err: Option<string>)
    requires fs.Valid()
    modifies fs
    ensures fs.Valid()
    ensures Reached(err, fs.Snapshot(), FilteredF(old(fs.Snapshot()), p, root, f, target))
  {
    ghost var d0 := fs.Snapshot();
    for i := 0 to |root|
      invariant fs.Valid() && fs.Snapshot() == d0
      invariant Selection(p, root, f.envID, f.wsID) == SearchFrom(p, root, f.envID, f.wsID, i)
    {
      var entry := root[i];
      if entry.node.Dir? && HasSuffix(entry.name, "_" + f.envID) {
        var wsEntries := entry.node.entries;
        var ws := FirstWsDir(p, wsEntries, f.envID, f.wsID);
        if ws.Some? {
          err := CopyDir(fs, wsEntries[ws.value].node, target);
          if err.Some? {
            return Some(Wrap("failed to copy workspace directory", err.value));
          }
          err := CopyEnvFiles(fs, wsEntries, target);
          return;
        }
      }
    }
    return Some(NotFound(f));
  }

  /** The inner loop of the filtered restore: the first directory whose name findWorkspaceByNameOrID accepts. */
  method FirstWsDir(p: PlainIDConfig, es: seq<Entry>, envID: string, wsID: string) returns (r: Option<nat>)
    ensures r == WsDirIn(p, es, envID, wsID)
  {
    for j := 0 to |es|
      invariant WsDirIn(p, es, envID, wsID) == WsDirFrom(p, es, envID, wsID, j)
    {
      if es[j].node.Dir? {
        var ws := FindWorkspaceByNameOrID(p, envID, wsID, es[j].name);
        if ws.Some? {
          return Some(j);
        }
      }
    }
    return None;
  }

  /** The loop over the environment directory's plain files. */
  method CopyEnvFiles(fs: FileSystem, es: seq<Entry>, target: Path) returns (err: Option<string>)
    requires fs.Valid()
    modifies fs
    ensures fs.Valid()
    ensures Reached(err, fs.Snapshot(), EnvFilesF(old(fs.Snapshot()), es, target, 0))
  {
    ghost var d0 := fs.Snapshot();
    err := None;
    for k := 0 to |es|
      invariant fs.Valid() && err.None?
      invariant EnvFilesF(d0, es, target, 0) == EnvFilesF(fs.Snapshot(), es, target, k)
    {
      if !es[k].node.Dir? {
        err := CopyFile(fs, es[k].node.content, target + [es[k].name]);
        if err.Some? {
          return Some(Wrap("failed to copy environment file", err.value));
        }
      }
    }
  }

  /** The restore command's run, flags checked first as its pre-run hook does. */
  method Restore(fs: FileSystem, cfg: Config, f: Flags, target: Path, root: seq<Entry>)
    returns (err: Option<string>)
    requires fs.Valid()
    modifies fs
    ensures fs.Valid()
    ensures Reached(err, fs.Snapshot(), RestoreF(old(fs.Snapshot()), cfg, f, target, root))
  {
    err := ValidateFlags(f, cfg.dryRun);
    if err.Some? {
      return;
    }
    if f.tag == "" {
      return Some(InteractiveNotImplemented);
    }
    var e := fs.MkdirAll(target);
    if e.Some? {
      return Some(Wrap("failed to create target directory", e.value));
    }
    if f.envID != "" && f.wsID != "" {
      err := FilteredRestore(fs, cfg.plainId, root, f, target);
    } else {
      e := CopyDir(fs, Dir(root), target);
      if e.Some? {
        return Some(Wrap("failed to copy configuration", e.value));
      }
    }
  }

  // ---------------------------------------------------------------------------
  // What a restore leaves in the target

  /** The environment-level file that the filtered restore copies to `q`: a plain file of the environment directory, by name. */
  function EnvFileCopied(es: seq<Entry>, target: Path, k: nat, q: Path): Option<string> {
    if |q| == |target| + 1 && q[..|target|] == target then
      match EntryNamed(es, q[|target|])
      case Some(m) => if m >= k && es[m].node.File? then Some(es[m].node.content) else None
      case None => None
    else None
  }

  lemma {:induction false} EnvFilesAt(d: Disk, es: seq<Entry>, target: Path, k: nat, q: Path)
    requires k <= |es| && WellFormed(Dir(es)) && EnvFilesF(d, es, target, k).Ok?
    ensures Overlaid(d, EnvFilesF(d, es, target, k).value, q, EnvFileCopied(es, target, k, q))
    decreases |es| - k
  {
    if k < |es| {
      var e := es[k];
      var sub := target + [e.name];
      var d1 := if e.node.Dir? then d else CopyFileF(d, e.node.content, sub).value;
      EnvFilesAt(d1, es, target, k + 1, q);
      if q == sub {
        assert q[..|target|] == target && q[|target|] == e.name;
        assert EntryNamed(es, e.name) == Some(k);
      } else if |q| == |target| + 1 && q[..|target|] == target {
        assert q == target + [q[|target|]];
      }
      if !e.node.Dir? {
        FileCopiedAt(d, e.node.content, sub, q);
        OverlaidTwice(d, d1, EnvFilesF(d1, es, target, k + 1).value, q, CopiedAt(e.node, sub, q), EnvFileCopied(es, target, k + 1, q));
      }
    }
  }

  /**
   * An unfiltered restore that succeeds leaves every file of the checked-out
   * tag at the same relative place below the target, and every other file of
   * the disk as it was.
   */
  lemma UnfilteredRestoreContents(d: Disk, cfg: Config, f: Flags, target: Path, root: seq<Entry>)
    requires WellFormed(Dir(root)) && !(f.envID != "" && f.wsID != "")
    requires RestoreF(d, cfg, f, target, root).Ok?
    ensures forall q :: Overlaid(d, RestoreF(d, cfg, f, target, root).value, q, CopiedAt(Dir(root), target, q))
  {
    CopyDirContents(MkdirAllF(d, target).value, Dir(root), target);
  }

  /**
   * A filtered restore that succeeds leaves the files of the selected
   * workspace directory below the target, then the plain files of its
   * environment directory directly in the target (these win on a clash), and
   * every other file of the disk as it was.
   */
  lemma FilteredRestoreContents(d: Disk, cfg: Config, f: Flags, target: Path, root: seq<Entry>)
    requires WellFormed(Dir(root)) && f.envID != "" && f.wsID != ""
    requires RestoreF(d, cfg, f, target, root).Ok?
    ensures Selection(cfg.plainId, root, f.envID, f.wsID).Some?
    ensures var (i, j) := Selection(cfg.plainId, root, f.envID, f.wsID).value;
      var es := root[i].node.entries;
      forall q :: Overlaid(d, RestoreF(d, cfg, f, target, root).value, q,
                           Later(CopiedAt(es[j].node, target, q), EnvFileCopied(es, target, 0, q)))
  {
    var (i, j) := Selection(cfg.plainId, root, f.envID, f.wsID).value;
    var es := root[i].node.entries;
    var d1 := MkdirAllF(d, target).value;
    var d2 := CopyDirF(d1, es[j].node, target).value;
    assert WellFormed(root[i].node);
    forall q
      ensures Overlaid(d, RestoreF(d, cfg, f, target, root).value, q,
                       Later(CopiedAt(es[j].node, target, q), EnvFileCopied(es, target, 0, q)))
    {
      CopyDirAt(d1, es[j].node, target, q);
      EnvFilesAt(d2, es, target, 0, q);
      OverlaidTwice(d1, d2, EnvFilesF(d2, es, target, 0).value, q, CopiedAt(es[j].node, target, q), EnvFileCopied(es, target, 0, q));
    }
  }

  /**
   * A filtered restore fails with the not-found error exactly when no
   * environment directory of the checkout holds a workspace directory, once
   * the flags are valid and the target directory could be created.
   */
  lemma FilteredRestoreNotFound(d: Disk, cfg: Config, f: Flags, target: Path, root: seq<Entry>)
    requires ValidateFlags(f, cfg.dryRun).None? && f.tag != "" && f.envID != "" && f.wsID != ""
    requires MkdirAllF(d, target).Ok?
    ensures RestoreF(d, cfg, f, target, root) == Err(NotFound(f)) <==>
              forall i :: 0 <= i < |root| ==> !EnvDirWithWs(cfg.plainId, root[i], f.envID, f.wsID)
  {
    SelectionIsFirst(cfg.plainId, root, f.envID, f.wsID);
    var sel := Selection(cfg.plainId, root, f.envID, f.wsID);
    if sel.Some? {
      var (i, j) := sel.value;
      var es := root[i].node.entries;
      var d1 := MkdirAllF(d, target).value;
      match CopyDirF(d1, es[j].node, target)
      case Err(e) =>
        LeadsDiffer("failed to copy workspace directory", e, f);
      case Ok(d2) =>
        EnvFilesNeverNotFound(d2, es, target, 0, f);
    }
  }

  /** A wrapped failure starting with "f" is never the not-found error. */
  lemma LeadsDiffer(context: string, e: string, f: Flags)
    requires |context| > 0 && context[0] == 'f'
    ensures Wrap(context, e) != NotFound(f)
  {
    var lead := "could not find configuration";
    assert lead[0] == 'c';
    assert NotFound(f)[0] == lead[0];
    assert Wrap(context, e)[0] == context[0];
  }

  /** Copying the environment files never reports the not-found error. */
  lemma {:induction false} EnvFilesNeverNotFound(d: Disk, es: seq<Entry>, target: Path, k: nat, f: Flags)
    requires k <= |es|
    ensures EnvFilesF(d, es, target, k) != Err(NotFound(f))
    decreases |es| - k
  {
    if k < |es| {
      if es[k].node.Dir? {
        EnvFilesNeverNotFound(d, es, target, k + 1, f);
      } else {
        match CopyFileF(d, es[k].node.content, target + [es[k].name])
        case Err(e) =>
          LeadsDiffer("failed to copy environment file", e, f);
        case Ok(d1) => EnvFilesNeverNotFound(d1, es, target, k + 1, f);
      }
    }
  }

  // ---------------------------------------------------------------------------
  // The tag is never checked out

  /**
   * The restore command as written: the scratch directory is created empty and
   * cloneAndCheckoutTag is never called, so the listing it copies from is
   * always empty.
   */
  function RestoreAsWritten(d: Disk, cfg: Config, f: Flags, target: Path): Result<Disk> {
    RestoreF(d, cfg, f, target, [])
  }

  /**
   * As written, a filtered restore always fails with the not-found error, and
   * an unfiltered one succeeds without restoring a single file: the disk's
   * files are exactly as they were.
   */
  lemma RestoreAsWrittenRestoresNothing(d: Disk, cfg: Config, f: Flags, target: Path)
    requires ValidateFlags(f, cfg.dryRun).None? && f.tag != "" && MkdirAllF(d, target).Ok?
    ensures f.envID != "" && f.wsID != "" ==> RestoreAsWritten(d, cfg, f, target) == Err(NotFound(f))
    ensures !(f.envID != "" && f.wsID != "") ==>
              RestoreAsWritten(d, cfg, f, target).Ok? && RestoreAsWritten(d, cfg, f, target).value.files == d.files
  {
    if f.envID != "" && f.wsID != "" {
      FilteredRestoreNotFound(d, cfg, f, target, []);
    }
  }

  /**
   * With the tag's tree checked out into the scratch directory, an unfiltered
   * restore that succeeds puts each file of the tag, with its content, at the
   * same relative place below the target.
   */
  lemma RestoredFileLands(d: Disk, cfg: Config, f: Flags, target: Path, root: seq<Entry>, rel: Path)
    requires WellFormed(Dir(root)) && !(f.envID != "" && f.wsID != "")
    requires RestoreF(d, cfg, f, target, root).Ok?
    requires FileAt(Dir(root), rel).Some?
    ensures target + rel in RestoreF(d, cfg, f, target, root).value.files
    ensures RestoreF(d, cfg, f, target, root).value.files[target + rel] == FileAt(Dir(root), rel).value
  {
    UnfilteredRestoreContents(d, cfg, f, target, root);
    var q := target + rel;
    assert PrefixOf(target, q) && q[|target|..] == rel;
    assert Overlaid(d, RestoreF(d, cfg, f, target, root).value, q, CopiedAt(Dir(root), target, q));
  }
}
