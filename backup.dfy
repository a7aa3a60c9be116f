/**
 * The backup command (cmd/backup.go): for every configured environment it
 * refreshes the environment's directory in the scratch clone, writes the
 * identity templates and PAA groups there, then empties and refills one
 * directory per workspace with its asset templates and applications; finally it
 * stages everything, commits, tags the commit with the time and pushes branch
 * and tag unless the run is dry.
 *
 * The clone is the root of the file tree; answers of the PlainID service are
 * parameters (a `Service` value), and the git calls after the files are written
 * are returned as a trace of `GitAction`s.
 */
module Backup {
  import opened Wrappers
  import opened Text
  import opened Config
  import opened FS
  import P = PlainID
  import opened Stamp

  // ---------------------------------------------------------------------------
  // Names of what a backup writes

  /** An environment's directory, `<name>_<id>`, directly below the clone's root. */
  function EnvDirName(env: Environment): string {
    env.name + "_" + env.id
  }

  const ApplicationFile := "application.json"
  const ApiMapperFile := "api-mapper-set.json"
  const AssetTemplatePrefix := "asset-template_"
  const PolicyPrefix := "policy_"
  const JsonSuffix := ".json"
  const RegoSuffix := ".srego"

  /** The `i`-th asset template of a workspace, `asset-template_<i>.json`. */
  function AssetTemplateFile(i: nat): string {
    AssetTemplatePrefix + NatToString(i) + JsonSuffix
  }

  /** The `i`-th policy of an application, `policy_<i>.srego`. */
  function PolicyFile(i: nat): string {
    PolicyPrefix + NatToString(i) + RegoSuffix
  }

  function IdentityTemplateFile(identity: string): string {
    "identity-template-" + identity + JsonSuffix
  }

  function PAAGroupFile(groupId: string): string {
    "paa-group_" + groupId + JsonSuffix
  }

  /** Text between a fixed prefix and a fixed suffix determines the whole. */
  lemma Framed(pre: string, x: string, y: string, post: string)
    requires pre + x + post == pre + y + post
    ensures x == y
  {
    var s := pre + x + post;
    assert x == s[|pre|..|s| - |post|];
  }

  /** Decimal numerals of distinct numbers differ. */
  lemma NatToStringInjective(i: nat, j: nat)
    requires NatToString(i) == NatToString(j)
    ensures i == j
  {
  }

  /** Distinct template indices get distinct files: no asset template overwrites another. */
  lemma AssetTemplateFileInjective(i: nat, j: nat)
    ensures AssetTemplateFile(i) == AssetTemplateFile(j) <==> i == j
  {
    if AssetTemplateFile(i) == AssetTemplateFile(j) {
      Framed(AssetTemplatePrefix, NatToString(i), NatToString(j), JsonSuffix);
      NatToStringInjective(i, j);
    }
  }

  /** Distinct policy indices get distinct files: no policy overwrites another. */
  lemma PolicyFileInjective(i: nat, j: nat)
    ensures PolicyFile(i) == PolicyFile(j) <==> i == j
  {
    if PolicyFile(i) == PolicyFile(j) {
      Framed(PolicyPrefix, NatToString(i), NatToString(j), RegoSuffix);
      NatToStringInjective(i, j);
    }
  }

  // ---------------------------------------------------------------------------
  // removeFilesOnly

  /** The directories inside `dir`, at any depth: what the recursive clean-up still has to visit. */
  function DirsBelow(dirs: set<Path>, dir: Path): set<Path> {
    set q | q in dirs && Below(dir, q)
  }

  /**
   * removeFilesOnly as a whole: every regular file inside `dir`, at any depth,
   * is gone and every directory stays. A missing `dir` is left alone; a file in
   * its place is the error os.ReadDir reports.
   */
  function RemoveFilesOnlyF(d: Disk, dir: Path): (r: Result<Disk>)
    ensures r.Err? <==> dir in d.files
    ensures r.Ok? ==> r.value.dirs == d.dirs
    ensures r.Ok? ==> forall q :: q in r.value.files <==> q in d.files && !Below(dir, q)
    ensures r.Ok? ==> forall q :: q in r.value.files ==> r.value.files[q] == d.files[q]
  {
    if dir in d.files then Err(NotDir)
    else Ok(Disk(map q | q in d.files && !Below(dir, q) :: d.files[q], d.dirs))
  }

  /** The file `q` lies inside `dir` below the entry named in `names`. */
  predicate Visited(dir: Path, names: seq<string>, q: Path) {
    Below(dir, q) && q[|dir|] in names
  }

  /** A name os.ReadDir lists inside `dir` is a file or a directory there. */
  lemma ChildPath(d: Disk, dir: Path, n: string)
    requires n in Children(d, dir)
    ensures dir + [n] in d.files || dir + [n] in d.dirs
  {
    var q :| q in d.files.Keys + d.dirs && |q| == |dir| + 1 && q[..|dir|] == dir && q[|dir|] == n;
    assert q == q[..|dir|] + [q[|dir|]];
  }

  /** Every file inside `dir` lies below one of the names os.ReadDir lists there. */
  lemma BelowChild(d: Disk, dir: Path, q: Path)
    requires d.Valid() && q in d.files && Below(dir, q)
    ensures q[|dir|] in Children(d, dir)
  {
    var c := q[..|dir| + 1];
    assert c == q || c in d.dirs;
    assert c[..|dir|] == dir;
  }

  /** The files left once the entries named in `names` inside `dir` have been cleaned. */
  function Unvisited(d: Disk, dir: Path, names: seq<string>): map<Path, string> {
    map q | q in d.files && !Visited(dir, names, q) :: d.files[q]
  }

  /** Cleaning the sub-directory `dir + [n]` extends the cleaned entries by `n`. */
  lemma VisitDir(d: Disk, dir: Path, names: seq<string>, n: string, after: map<Path, string>)
    requires d.Valid() && dir + [n] in d.dirs
    requires forall q :: q in after <==> q in Unvisited(d, dir, names) && !Below(dir + [n], q)
    requires forall q :: q in after ==> after[q] == d.files[q]
    ensures after == Unvisited(d, dir, names + [n])
  {
    var path := dir + [n];
    forall q | q in d.files
      ensures q in after <==> !Visited(dir, names + [n], q)
    {
      if Below(dir, q) && q[|dir|] == n {
        assert q[..|path|] == q[..|dir|] + [q[|dir|]];
        assert q != path;
      }
      if Below(path, q) {
        assert q[..|dir|] == q[..|path|][..|dir|];
      }
    }
  }

  /** Removing the file `dir + [n]` extends the cleaned entries by `n`. */
  lemma VisitFile(d: Disk, dir: Path, names: seq<string>, n: string)
    requires d.Valid() && dir + [n] !in d.dirs
    ensures Unvisited(d, dir, names) - {dir + [n]} == Unvisited(d, dir, names + [n])
  {
    var path := dir + [n];
    forall q | q in d.files
      ensures (q in Unvisited(d, dir, names) && q != path) <==> !Visited(dir, names + [n], q)
    {
      if |q| > |path| {
        assert q[..|path|] in d.dirs;
      }
      if Below(dir, q) && q[|dir|] == n {
        assert q[..|path|] == q[..|dir|] + [q[|dir|]];
      }
    }
  }

  /** Once every entry os.ReadDir listed is cleaned, no file inside `dir` is left. */
  lemma VisitedAll(d: Disk, dir: Path, names: seq<string>)
    requires d.Valid() && dir !in d.files
    requires forall n :: n in names <==> n in Children(d, dir)
    ensures Unvisited(d, dir, names) == RemoveFilesOnlyF(d, dir).value.files
  {
    forall q | q in d.files && Below(dir, q) ensures Visited(dir, names, q) {
      BelowChild(d, dir, q);
    }
  }

  /** A sub-directory has fewer directories inside it than its parent. */
  lemma DirsBelowShrink(dirs: set<Path>, dir: Path, n: string)
    requires dir + [n] in dirs
    ensures DirsBelow(dirs, dir + [n]) < DirsBelow(dirs, dir)
  {
    var path := dir + [n];
    assert path in DirsBelow(dirs, dir);
    forall q | q in DirsBelow(dirs, path) ensures q in DirsBelow(dirs, dir) {
      assert q[..|dir|] == q[..|path|][..|dir|];
    }
  }

  /**
   * removeFilesOnly: reads `dir`, removes each regular file in it and recurses
   * into each directory. The recursive calls and removals cannot fail here: the
   * entries they act on are the ones os.ReadDir has just listed.
   */
  method RemoveFilesOnly(fs: FileSystem, dir: Path) returns (err: Option<string>)
    requires fs.Valid()
    modifies fs
    ensures fs.Valid()
    ensures Reached(err, fs.Snapshot(), RemoveFilesOnlyF(old(fs.Snapshot()), dir))
    decreases DirsBelow(fs.dirs, dir)
  {
    var entries := fs.ReadDir(dir);
    if entries.Err? {
      if entries.error == NotExist {
        return None;
      }
      return Some(entries.error);
    }
    var names := entries.value;
    ghost var d0 := fs.Snapshot();
    for i := 0 to |names|
      invariant fs.Valid()
      invariant fs.dirs == d0.dirs
      invariant fs.files == Unvisited(d0, dir, names[..i])
    {
      var path := dir + [names[i]];
      ChildPath(d0, dir, names[i]);
      assert names[..i + 1] == names[..i] + [names[i]];
      if path in fs.dirs {
        DirsBelowShrink(fs.dirs, dir, names[i]);
        var e := RemoveFilesOnly(fs, path);
        assert e.None?;
        VisitDir(d0, dir, names[..i], names[i], fs.files);
      } else {
        assert names[i] !in names[..i];
        var e := fs.Remove(path);
        assert e.None?;
        VisitFile(d0, dir, names[..i], names[i]);
      }
    }
    assert names[..|names|] == names;
    VisitedAll(d0, dir, names);
    err := None;
  }

  // ---------------------------------------------------------------------------
  // The PlainID service's answers

  /**
   * What the PlainID service methods and the JSON encoders answer, by argument:
   * Applications(envID, wsID), AssetTemplateIDs(wsID), AssetTemplate(envID, id),
   * Application.AsJSON, AppPolicies(envID, wsID, appID), AppAPIMapper(envID, appID),
   * IdentityTemplates(envID, identity), PAAGroups(envID) and PAAGroup.ToJSON.
   */
  datatype Service = Service(
    applications: (string, string) -> Result<seq<P.Application>>,
    assetTemplateIds: string -> Result<seq<string>>,
    assetTemplate: (string, string) -> Result<string>,
    appJson: P.Application -> Result<string>,
    appPolicies: (string, string, string) -> Result<seq<string>>,
    appApiMapper: (string, string) -> Result<string>,
    identityTemplates: (string, string) -> Result<string>,
    paaGroups: string -> Result<seq<P.PAAGroup>>,
    groupJson: P.PAAGroup -> Result<string>)

  function NotInConfiguration(envID: string): string {
    "environment " + envID + " not found in configuration"
  }

  // ---------------------------------------------------------------------------
  // fetchPlainIDWSStuff

  /** The asset templates from index `i` on, each fetched and written to `asset-template_<i>.json`. */
  function Templates(d: Disk, wsDir: Path, envID: string, ids: seq<string>, i: nat, svc: Service): Result<Disk>
    requires i <= |ids|
    decreases |ids| - i
  {
    if i == |ids| then Ok(d)
    else
      match svc.assetTemplate(envID, ids[i])
      case Err(e) => Err(Wrap("failed to fetch asset template " + ids[i] + " ", e))
      case Ok(body) =>
        match WriteFileF(d, wsDir + [AssetTemplateFile(i)], body)
        case Err(e) => Err(Wrap("failed to write asset template " + ids[i], e))
        case Ok(d1) => Templates(d1, wsDir, envID, ids, i + 1, svc)
  }

  /** An application's policies from index `i` on, each written to `policy_<i>.srego`. */
  function PolicyFiles(d: Disk, appDir: Path, policies: seq<string>, i: nat): Result<Disk>
    requires i <= |policies|
    decreases |policies| - i
  {
    if i == |policies| then Ok(d)
    else
      match WriteFileF(d, appDir + [PolicyFile(i)], policies[i])
      case Err(e) => Err(Wrap("failed to write policy", e))
      case Ok(d1) => PolicyFiles(d1, appDir, policies, i + 1)
  }

  /**
   * One application: its directory `<wsDir>/<name>`, `application.json`, its
   * policies and `api-mapper-set.json`, each step stopping the backup on failure.
   */
  function AppFiles(d: Disk, wsDir: Path, envID: string, wsID: string, app: P.Application, svc: Service): Result<Disk> {
    var appDir := wsDir + [app.name];
    match MkdirAllF(d, appDir)
    case Err(e) => Err(Wrap("failed to create application directory", e))
    case Ok(d1) =>
      match svc.appJson(app)
      case Err(e) => Err(Wrap("failed to convert app to JSON", e))
      case Ok(json) =>
        match WriteFileF(d1, appDir + [ApplicationFile], json)
        case Err(e) => Err(Wrap("failed to write app", e))
        case Ok(d2) =>
          match svc.appPolicies(envID, wsID, app.id)
          case Err(e) => Err(Wrap("failed to fetch app policies", e))
          case Ok(policies) =>
            match PolicyFiles(d2, appDir, policies, 0)
            case Err(e) => Err(e)
            case Ok(d3) =>
              match svc.appApiMapper(envID, app.id)
              case Err(e) => Err(Wrap("failed to fetch app api mapper", e))
              case Ok(mapper) =>
                match WriteFileF(d3, appDir + [ApiMapperFile], mapper)
                case Err(e) => Err(Wrap("failed to write policy", e))
                case Ok(d4) => Ok(d4)
  }

  /** The applications from index `i` on, one after the other. */
  function AppsFiles(d: Disk, wsDir: Path, envID: string, wsID: string, apps: seq<P.Application>, i: nat, svc: Service): Result<Disk>
    requires i <= |apps|
    decreases |apps| - i
  {
    if i == |apps| then Ok(d)
    else
      match AppFiles(d, wsDir, envID, wsID, apps[i], svc)
      case Err(e) => Err(e)
      case Ok(d1) => AppsFiles(d1, wsDir, envID, wsID, apps, i + 1, svc)
  }

  /**
   * fetchPlainIDWSStuff as a whole: the applications and asset template ids are
   * fetched first, the templates written, the environment looked up in the
   * configuration, then the applications written.
   */
  function WsStuff(d: Disk, p: PlainIDConfig, wsDir: Path, envID: string, wsID: string, svc: Service): Result<Disk> {
    match svc.applications(envID, wsID)
    case Err(e) => Err(Wrap("failed to fetch apps", e))
    case Ok(apps) =>
      match svc.assetTemplateIds(wsID)
      case Err(e) => Err(Wrap("failed to fetch asset template IDs", e))
      case Ok(ids) =>
        match Templates(d, wsDir, envID, ids, 0, svc)
        case Err(e) => Err(e)
        case Ok(d1) =>
          if FindEnvironment(p, envID).None? then Err(NotInConfiguration(envID))
          else AppsFiles(d1, wsDir, envID, wsID, apps, 0, svc)
  }

  /** One application's directory and files, as the body of fetchPlainIDWSStuff's application loop. */
  method FetchApplication(fs: FileSystem, wsDir: Path, envID: string, wsID: string, app: P.Application, svc: Service)
    returns (err: Option<string>)
    requires fs.Valid()
    modifies fs
    ensures fs.Valid()
    ensures Reached(err, fs.Snapshot(), AppFiles(old(fs.Snapshot()), wsDir, envID, wsID, app, svc))
  {
    var appDir := wsDir + [app.name];
    var e := fs.MkdirAll(appDir);
    if e.Some? {
      return Some(Wrap("failed to create application directory", e.value));
    }
    var json := svc.appJson(app);
    if json.Err? {
      return Some(Wrap("failed to convert app to JSON", json.error));
    }
    e := fs.WriteFile(appDir + [ApplicationFile], json.value);
    if e.Some? {
      return Some(Wrap("failed to write app", e.value));
    }
    var policies := svc.appPolicies(envID, wsID, app.id);
    if policies.Err? {
      return Some(Wrap("failed to fetch app policies", policies.error));
    }
    e := WritePolicies(fs, appDir, policies.value);
    if e.Some? {
      return e;
    }
    var mapper := svc.appApiMapper(envID, app.id);
    if mapper.Err? {
      return Some(Wrap("failed to fetch app api mapper", mapper.error));
    }
    e := fs.WriteFile(appDir + [ApiMapperFile], mapper.value);
    if e.Some? {
      return Some(Wrap("failed to write policy", e.value));
    }
    return None;
  }

  /** The policy loop of fetchPlainIDWSStuff: `policy_<k>.srego` for each listed policy, in order. */
  method WritePolicies(fs: FileSystem, appDir: Path, policies: seq<string>) returns (err: Option<string>)
    requires fs.Valid()
    modifies fs
    ensures fs.Valid()
    ensures Reached(err, fs.Snapshot(), PolicyFiles(old(fs.Snapshot()), appDir, policies, 0))
  {
    for i := 0 to |policies|
      invariant fs.Valid()
      invariant PolicyFiles(old(fs.Snapshot()), appDir, policies, 0) == PolicyFiles(fs.Snapshot(), appDir, policies, i)
    {
      var e := fs.WriteFile(appDir + [PolicyFile(i)], policies[i]);
      if e.Some? {
        return Some(Wrap("failed to write policy", e.value));
      }
    }
    return None;
  }

  /** The asset template loop of fetchPlainIDWSStuff. */
  method WriteTemplates(fs: FileSystem, wsDir: Path, envID: string, ids: seq<string>, svc: Service)
    returns (err: Option<string>)
    requires fs.Valid()
    modifies fs
    ensures fs.Valid()
    ensures Reached(err, fs.Snapshot(), Templates(old(fs.Snapshot()), wsDir, envID, ids, 0, svc))
  {
    for i := 0 to |ids|
      invariant fs.Valid()
      invariant Templates(old(fs.Snapshot()), wsDir, envID, ids, 0, svc) == Templates(fs.Snapshot(), wsDir, envID, ids, i, svc)
    {
      var body := svc.assetTemplate(envID, ids[i]);
      if body.Err? {
        return Some(Wrap("failed to fetch asset template " + ids[i] + " ", body.error));
      }
      var e := fs.WriteFile(wsDir + [AssetTemplateFile(i)], body.value);
      if e.Some? {
        return Some(Wrap("failed to write asset template " + ids[i], e.value));
      }
    }
    return None;
  }

  /** The application loop of fetchPlainIDWSStuff. */
  method WriteApps(fs: FileSystem, wsDir: Path, envID: string, wsID: string, apps: seq<P.Application>, svc: Service)
    returns (err: Option<string>)
    requires fs.Valid()
    modifies fs
    ensures fs.Valid()
    ensures Reached(err, fs.Snapshot(), AppsFiles(old(fs.Snapshot()), wsDir, envID, wsID, apps, 0, svc))
  {
    for i := 0 to |apps|
      invariant fs.Valid()
      invariant AppsFiles(old(fs.Snapshot()), wsDir, envID, wsID, apps, 0, svc) == AppsFiles(fs.Snapshot(), wsDir, envID, wsID, apps, i, svc)
    {
      var e := FetchApplication(fs, wsDir, envID, wsID, apps[i], svc);
      if e.Some? {
        return e;
      }
    }
    return None;
  }

  /** fetchPlainIDWSStuff: everything one workspace's directory holds. */
  method FetchWsStuff(fs: FileSystem, p: PlainIDConfig, wsDir: Path, envID: string, wsID: string, svc: Service)
    returns (err: Option<string>)
    requires fs.Valid()
    modifies fs
    ensures fs.Valid()
    ensures Reached(err, fs.Snapshot(), WsStuff(old(fs.Snapshot()), p, wsDir, envID, wsID, svc))
  {
    var apps := svc.applications(envID, wsID);
    if apps.Err? {
      return Some(Wrap("failed to fetch apps", apps.error));
    }
    var ids := svc.assetTemplateIds(wsID);
    if ids.Err? {
      return Some(Wrap("failed to fetch asset template IDs", ids.error));
    }
    var e := WriteTemplates(fs, wsDir, envID, ids.value, svc);
    if e.Some? {
      return e;
    }
    if FindEnvironment(p, envID).None? {
      return Some(NotInConfiguration(envID));
    }
    e := WriteApps(fs, wsDir, envID, wsID, apps.value, svc);
    if e.Some? {
      return e;
    }
    return None;
  }

  // ---------------------------------------------------------------------------
  // fetchPlainIDEnvStuff

  /** The identity templates from index `i` on, each fetched and written to `identity-template-<id>.json`. */
  function IdentityFiles(d: Disk, envDir: Path, envID: string, identities: seq<string>, i: nat, svc: Service): Result<Disk>
    requires i <= |identities|
    decreases |identities| - i
  {
    if i == |identities| then Ok(d)
    else
      match svc.identityTemplates(envID, identities[i])
      case Err(e) => Err(Wrap("failed to fetch app identity templates", e))
      case Ok(body) =>
        match WriteFileF(d, envDir + [IdentityTemplateFile(identities[i])], body)
        case Err(e) => Err(Wrap("failed to write identity template", e))
        case Ok(d1) => IdentityFiles(d1, envDir, envID, identities, i + 1, svc)
  }

  /** The PAA groups from index `i` on, each encoded and written to `paa-group_<id>.json`. */
  function GroupFiles(d: Disk, envDir: Path, groups: seq<P.PAAGroup>, i: nat, svc: Service): Result<Disk>
    requires i <= |groups|
    decreases |groups| - i
  {
    if i == |groups| then Ok(d)
    else
      match svc.groupJson(groups[i])
      case Err(e) => Err(Wrap("failed to convert PAA group to JSON", e))
      case Ok(json) =>
        match WriteFileF(d, envDir + [PAAGroupFile(groups[i].id)], json)
        case Err(e) => Err(Wrap("failed to write identity template", e))
        case Ok(d1) => GroupFiles(d1, envDir, groups, i + 1, svc)
  }

  /**
   * fetchPlainIDEnvStuff as a whole: the environment is looked up in the
   * configuration, its identities' templates written, then its PAA groups.
   */
  function EnvStuff(d: Disk, p: PlainIDConfig, envDir: Path, envID: string, svc: Service): Result<Disk> {
    match FindEnvironment(p, envID)
    case None => Err(NotInConfiguration(envID))
    case Some(k) =>
      match IdentityFiles(d, envDir, envID, p.envs[k].identities, 0, svc)
      case Err(e) => Err(e)
      case Ok(d1) =>
        match svc.paaGroups(envID)
        case Err(e) => Err(Wrap("failed to fetch PAA groups", e))
        case Ok(groups) => GroupFiles(d1, envDir, groups, 0, svc)
  }

  /** The identity loop of fetchPlainIDEnvStuff. */
  method WriteIdentityTemplates(fs: FileSystem, envDir: Path, envID: string, identities: seq<string>, svc: Service)
    returns (err: Option<string>)
    requires fs.Valid()
    modifies fs
    ensures fs.Valid()
    ensures Reached(err, fs.Snapshot(), IdentityFiles(old(fs.Snapshot()), envDir, envID, identities, 0, svc))
  {
    for i := 0 to |identities|
      invariant fs.Valid()
      invariant IdentityFiles(old(fs.Snapshot()), envDir, envID, identities, 0, svc) == IdentityFiles(fs.Snapshot(), envDir, envID, identities, i, svc)
    {
      var body := svc.identityTemplates(envID, identities[i]);
      if body.Err? {
        return Some(Wrap("failed to fetch app identity templates", body.error));
      }
      var e := fs.WriteFile(envDir + [IdentityTemplateFile(identities[i])], body.value);
      if e.Some? {
        return Some(Wrap("failed to write identity template", e.value));
      }
    }
    return None;
  }

  /** The PAA group loop of fetchPlainIDEnvStuff. */
  method WriteGroups(fs: FileSystem, envDir: Path, groups: seq<P.PAAGroup>, svc: Service)
    returns (err: Option<string>)
    requires fs.Valid()
    modifies fs
    ensures fs.Valid()
    ensures Reached(err, fs.Snapshot(), GroupFiles(old(fs.Snapshot()), envDir, groups, 0, svc))
  {
    for i := 0 to |groups|
      invariant fs.Valid()
      invariant GroupFiles(old(fs.Snapshot()), envDir, groups, 0, svc) == GroupFiles(fs.Snapshot(), envDir, groups, i, svc)
    {
      var path := envDir + [PAAGroupFile(groups[i].id)];
      var json := svc.groupJson(groups[i]);
      if json.Err? {
        return Some(Wrap("failed to convert PAA group to JSON", json.error));
      }
      var e := fs.WriteFile(path, json.value);
      if e.Some? {
        return Some(Wrap("failed to write identity template", e.value));
      }
    }
    return None;
  }

  /** fetchPlainIDEnvStuff: what an environment's directory holds besides its workspaces. */
  method FetchEnvStuff(fs: FileSystem, p: PlainIDConfig, envDir: Path, envID: string, svc: Service)
    returns (err: Option<string>)
    requires fs.Valid()
    modifies fs
    ensures fs.Valid()
    ensures Reached(err, fs.Snapshot(), EnvStuff(old(fs.Snapshot()), p, envDir, envID, svc))
  {
    var env := FindEnvironment(p, envID);
    if env.None? {
      return Some(NotInConfiguration(envID));
    }
    var e := WriteIdentityTemplates(fs, envDir, envID, p.envs[env.value].identities, svc);
    if e.Some? {
      return e;
    }
    var groups := svc.paaGroups(envID);
    if groups.Err? {
      return Some(Wrap("failed to fetch PAA groups", groups.error));
    }
    e := WriteGroups(fs, envDir, groups.value, svc);
    return e;
  }

  // ---------------------------------------------------------------------------
  // The backup run

  const CommitPrefix := "Backup PlainID configuration for:"

  /** What the commit message gains for an environment's workspaces: " env:<envID> ws:<wsID>" each, in order. */
  function WsEntries(envID: string, wss: seq<Workspace>): string {
    if wss == [] then ""
    else WsEntries(envID, wss[..|wss| - 1]) + " env:" + envID + " ws:" + wss[|wss| - 1].id
  }

  lemma WsEntriesStep(envID: string, wss: seq<Workspace>, i: nat)
    requires i < |wss|
    ensures WsEntries(envID, wss[..i + 1]) == WsEntries(envID, wss[..i]) + (" env:" + envID + " ws:" + wss[i].id)
  {
    assert wss[..i + 1][..i] == wss[..i];
  }

  /** The entries of every environment's workspaces, environment after environment. */
  function EnvEntries(envs: seq<Environment>): string {
    if envs == [] then ""
    else EnvEntries(envs[..|envs| - 1]) + WsEntries(envs[|envs| - 1].id, envs[|envs| - 1].workspaces)
  }

  /** The commit message of a successful backup of `envs`. */
  function CommitMessage(envs: seq<Environment>): string {
    CommitPrefix + EnvEntries(envs)
  }

  /** The tag's message: the commit message after "Backup tag for ". */
  function TagMessage(commitMsg: string): string {
    "Backup tag for " + commitMsg
  }

  /** The workspaces from index `i` on: each directory emptied, recreated and filled. */
  function Workspaces(d: Disk, p: PlainIDConfig, envDir: Path, envID: string, wss: seq<Workspace>, i: nat, svc: Service): Result<Disk>
    requires i <= |wss|
    decreases |wss| - i
  {
    if i == |wss| then Ok(d)
    else
      var wsDir := envDir + [wss[i].name];
      match MkdirAllF(RemoveAllF(d, wsDir), wsDir)
      case Err(e) => Err(Wrap("failed to create workspace directory", e))
      case Ok(d1) =>
        match WsStuff(d1, p, wsDir, envID, wss[i].id, svc)
        case Err(e) => Err(Wrap("failed to fetch PlainID WS configuration for env:" + envID + " ws:" + wss[i].id, e))
        case Ok(d2) => Workspaces(d2, p, envDir, envID, wss, i + 1, svc)
  }

  /**
   * One environment: the directory `<name>_<id>` is created, its files (not its
   * directories) removed, the environment's own files written, then its workspaces.
   */
  function EnvironmentFiles(d: Disk, p: PlainIDConfig, env: Environment, svc: Service): Result<Disk> {
    var envDir := [EnvDirName(env)];
    match MkdirAllF(d, envDir)
    case Err(e) => Err(Wrap("failed to create environment directory", e))
    case Ok(d1) =>
      match RemoveFilesOnlyF(d1, envDir)
      case Err(e) => Err(Wrap("failed to remove files from env directory", e))
      case Ok(d2) =>
        match EnvStuff(d2, p, envDir, env.id, svc)
        case Err(e) => Err(Wrap("failed to fetch PlainID Env configuration for env:" + env.id, e))
        case Ok(d3) => Workspaces(d3, p, envDir, env.id, env.workspaces, 0, svc)
  }

  /** The environments of `p` from index `i` on, one after the other. */
  function Environments(d: Disk, p: PlainIDConfig, i: nat, svc: Service): Result<Disk>
    requires i <= |p.envs|
    decreases |p.envs| - i
  {
    if i == |p.envs| then Ok(d)
    else
      match EnvironmentFiles(d, p, p.envs[i], svc)
      case Err(e) => Err(e)
      case Ok(d1) => Environments(d1, p, i + 1, svc)
  }

  /** The workspace loop of the backup run, which also extends the commit message. */
  method BackupWorkspaces(fs: FileSystem, p: PlainIDConfig, envDir: Path, envID: string, wss: seq<Workspace>, svc: Service, msg: string)
    returns (err: Option<string>, msg': string)
    requires fs.Valid()
    modifies fs
    ensures fs.Valid()
    ensures Reached(err, fs.Snapshot(), Workspaces(old(fs.Snapshot()), p, envDir, envID, wss, 0, svc))
    ensures err.None? ==> msg' == msg + WsEntries(envID, wss)
  {
    msg' := msg;
    for i := 0 to |wss|
      invariant fs.Valid()
      invariant Workspaces(old(fs.Snapshot()), p, envDir, envID, wss, 0, svc) == Workspaces(fs.Snapshot(), p, envDir, envID, wss, i, svc)
      invariant msg' == msg + WsEntries(envID, wss[..i])
    {
      var wsDir := envDir + [wss[i].name];
      fs.RemoveAll(wsDir);
      var e := fs.MkdirAll(wsDir);
      if e.Some? {
        return Some(Wrap("failed to create workspace directory", e.value)), msg';
      }
      e := FetchWsStuff(fs, p, wsDir, envID, wss[i].id, svc);
      if e.Some? {
        return Some(Wrap("failed to fetch PlainID WS configuration for env:" + envID + " ws:" + wss[i].id, e.value)), msg';
      }
      var entry := " env:" + envID + " ws:" + wss[i].id;
      WsEntriesStep(envID, wss, i);
      AppendAssoc(msg, WsEntries(envID, wss[..i]), entry);
      msg' := msg' + entry;
    }
    assert wss[..|wss|] == wss;
    return None, msg';
  }

  /** The body of the backup run's environment loop. */
  method BackupEnvironment(fs: FileSystem, p: PlainIDConfig, env: Environment, svc: Service, msg: string)
    returns (err: Option<string>, msg': string)
    requires fs.Valid()
    modifies fs
    ensures fs.Valid()
    ensures Reached(err, fs.Snapshot(), EnvironmentFiles(old(fs.Snapshot()), p, env, svc))
    ensures err.None? ==> msg' == msg + WsEntries(env.id, env.workspaces)
  {
    msg' := msg;
    var envDir := [EnvDirName(env)];
    var e := fs.MkdirAll(envDir);
    if e.Some? {
      return Some(Wrap("failed to create environment directory", e.value)), msg';
    }
    e := RemoveFilesOnly(fs, envDir);
    if e.Some? {
      return Some(Wrap("failed to remove files from env directory", e.value)), msg';
    }
    e := FetchEnvStuff(fs, p, envDir, env.id, svc);
    if e.Some? {
      return Some(Wrap("failed to fetch PlainID Env configuration for env:" + env.id, e.value)), msg';
    }
    err, msg' := BackupWorkspaces(fs, p, envDir, env.id, env.workspaces, svc, msg);
  }

  lemma EnvEntriesStep(envs: seq<Environment>, i: nat)
    requires i < |envs|
    ensures EnvEntries(envs[..i + 1]) == EnvEntries(envs[..i]) + WsEntries(envs[i].id, envs[i].workspaces)
  {
    assert envs[..i + 1][..i] == envs[..i];
  }

  /** The git operations after the files are written, as they are issued. */
  datatype GitAction =
    | StageAll
    | Commit(message: string)
    | SetBranch(branch: string)
    | CreateTag(name: string, message: string)
    | Push(refSpecs: seq<string>, force: bool)

  function BranchRefSpec(branch: string): string {
    "refs/heads/" + branch + ":refs/heads/" + branch
  }

  function TagRefSpec(tag: string): string {
    "refs/tags/" + tag + ":refs/tags/" + tag
  }

  /**
   * The git operations of a successful backup: stage everything, commit, point
   * the branch at the commit when the clone had no HEAD, tag the commit, and
   * push branch and tag (forced for a new repository) unless the run is dry.
   */
  function GitActions(cfg: Config, commitMsg: string, tag: string, headMissing: bool): seq<GitAction> {
    [StageAll, Commit(commitMsg)]
    + (if headMissing then [SetBranch(cfg.git.branch)] else [])
    + [CreateTag(tag, TagMessage(commitMsg))]
    + (if cfg.dryRun then [] else [Push([BranchRefSpec(cfg.git.branch), TagRefSpec(tag)], headMissing)])
  }

  /**
   * backupCmd.RunE from the cloned repository on: `fs` is the clone's working
   * tree, `now` the clock's reading and `headMissing` whether repo.Head()
   * reported no reference. The files are written environment by environment;
   * any failure stops the run before any git operation.
   */
  method Backup(fs: FileSystem, cfg: Config, svc: Service, now: Time, headMissing: bool)
    returns (err: Option<string>, actions: seq<GitAction>)
    requires fs.Valid() && ValidTime(now)
    modifies fs
    ensures fs.Valid()
    ensures Reached(err, fs.Snapshot(), Environments(old(fs.Snapshot()), cfg.plainId, 0, svc))
    ensures err.Some? ==> actions == []
    ensures err.None? ==> actions == GitActions(cfg, CommitMessage(cfg.plainId.envs), FormatStamp(now), headMissing)
  {
    var commitMsg;
    err, commitMsg := BackupEnvironments(fs, cfg.plainId, svc);
    if err.Some? {
      return err, [];
    }
    actions := CommitAndTag(cfg, commitMsg, FormatStamp(now), headMissing);
  }

  /** The environment loop of backupCmd.RunE: writes every environment's files and builds the commit message. */
  method BackupEnvironments(fs: FileSystem, p: PlainIDConfig, svc: Service) returns (err: Option<string>, commitMsg: string)
    requires fs.Valid()
    modifies fs
    ensures fs.Valid()
    ensures Reached(err, fs.Snapshot(), Environments(old(fs.Snapshot()), p, 0, svc))
    ensures err.None? ==> commitMsg == CommitMessage(p.envs)
  {
    commitMsg := CommitPrefix;
    var envs := p.envs;
    for i := 0 to |envs|
      invariant fs.Valid()
      invariant Environments(old(fs.Snapshot()), p, 0, svc) == Environments(fs.Snapshot(), p, i, svc)
      invariant commitMsg == CommitPrefix + EnvEntries(envs[..i])
    {
      var e, msg := BackupEnvironment(fs, p, envs[i], svc, commitMsg);
      if e.Some? {
        return e, commitMsg;
      }
      EnvEntriesStep(envs, i);
      AppendAssoc(CommitPrefix, EnvEntries(envs[..i]), WsEntries(envs[i].id, envs[i].workspaces));
      commitMsg := msg;
    }
    assert envs[..|envs|] == envs;
    return None, commitMsg;
  }

  /** The git half of backupCmd.RunE once every file is written. */
  method CommitAndTag(cfg: Config, commitMsg: string, timestamp: string, headMissing: bool) returns (actions: seq<GitAction>)
    ensures actions == GitActions(cfg, commitMsg, timestamp, headMissing)
  {
    actions := [StageAll, Commit(commitMsg)];
    if headMissing {
      actions := actions + [SetBranch(cfg.git.branch)];
    }
    actions := actions + [CreateTag(timestamp, TagMessage(commitMsg))];
    if cfg.dryRun {
      return actions;
    }
    actions := actions + [Push([BranchRefSpec(cfg.git.branch), TagRefSpec(timestamp)], headMissing)];
  }

  /**
   * The order of the git operations: stage and commit first; the branch is set
   * exactly when the clone had no HEAD; the tag carries "Backup tag for " and the
   * commit message; a dry run ends with the tag, any other run with one push of
   * the branch and the tag, forced for a new repository.
   */
  lemma GitTrace(cfg: Config, commitMsg: string, tag: string, headMissing: bool)
    ensures var a := GitActions(cfg, commitMsg, tag, headMissing);
      a[..2] == [StageAll, Commit(commitMsg)] &&
      (SetBranch(cfg.git.branch) in a <==> headMissing) &&
      (cfg.dryRun ==> a[|a| - 1] == CreateTag(tag, "Backup tag for " + commitMsg)) &&
      (!cfg.dryRun ==> a[|a| - 2] == CreateTag(tag, "Backup tag for " + commitMsg) &&
                       a[|a| - 1] == Push([BranchRefSpec(cfg.git.branch), TagRefSpec(tag)], headMissing)) &&
      (forall k :: 0 <= k < |a| && a[k].Push? ==> !cfg.dryRun && k == |a| - 1)
  {
  }

  // ---------------------------------------------------------------------------
  // What a workspace directory holds

  /** The asset template files with indices `lo` up to `hi`. */
  function TemplatePaths(wsDir: Path, lo: nat, hi: nat): set<Path> {
    set k | lo <= k < hi :: wsDir + [AssetTemplateFile(k)]
  }

  /** The policy files with indices `lo` up to `hi`. */
  function PolicyPaths(appDir: Path, lo: nat, hi: nat): set<Path> {
    set k | lo <= k < hi :: appDir + [PolicyFile(k)]
  }

  /** The files of one application with `n` policies. */
  function AppPaths(appDir: Path, n: nat): set<Path> {
    {appDir + [ApplicationFile], appDir + [ApiMapperFile]} + PolicyPaths(appDir, 0, n)
  }

  /** How many policies the service lists for `app`. */
  function PolicyCount(envID: string, wsID: string, app: P.Application, svc: Service): nat {
    match svc.appPolicies(envID, wsID, app.id)
    case Ok(ps) => |ps|
    case Err(_) => 0
  }

  /** The files of the applications from index `i` on, each with as many policies as the service lists for it. */
  function AppsPaths(wsDir: Path, envID: string, wsID: string, apps: seq<P.Application>, i: nat, svc: Service): set<Path>
    requires i <= |apps|
    decreases |apps| - i
  {
    if i == |apps| then {}
    else
      AppPaths(wsDir + [apps[i].name], PolicyCount(envID, wsID, apps[i], svc)) + AppsPaths(wsDir, envID, wsID, apps, i + 1, svc)
  }

  /**
   * The template loop adds exactly the files `asset-template_<k>.json`, each
   * holding the k-th template fetched, and leaves every other file and every
   * directory as it was.
   */
  lemma {:induction false} TemplatesWritten(d: Disk, wsDir: Path, envID: string, ids: seq<string>, i: nat, svc: Service)
    requires i <= |ids| && Templates(d, wsDir, envID, ids, i, svc).Ok?
    ensures Templates(d, wsDir, envID, ids, i, svc).value.dirs == d.dirs
    ensures Templates(d, wsDir, envID, ids, i, svc).value.files.Keys == d.files.Keys + TemplatePaths(wsDir, i, |ids|)
    ensures forall k :: i <= k < |ids| ==>
      svc.assetTemplate(envID, ids[k]).Ok? &&
      Templates(d, wsDir, envID, ids, i, svc).value.files[wsDir + [AssetTemplateFile(k)]] == svc.assetTemplate(envID, ids[k]).value
    ensures forall q :: q in d.files && q !in TemplatePaths(wsDir, i, |ids|) ==>
      Templates(d, wsDir, envID, ids, i, svc).value.files[q] == d.files[q]
    decreases |ids| - i
  {
    if i < |ids| {
      var path := wsDir + [AssetTemplateFile(i)];
      var d1 := WriteFileF(d, path, svc.assetTemplate(envID, ids[i]).value).value;
      TemplatesWritten(d1, wsDir, envID, ids, i + 1, svc);
      var r := Templates(d1, wsDir, envID, ids, i + 1, svc).value;
      assert Templates(d, wsDir, envID, ids, i, svc) == Ok(r);
      TemplatePathsStep(wsDir, i, |ids|);
      forall k | i <= k < |ids|
        ensures svc.assetTemplate(envID, ids[k]).Ok?
        ensures r.files[wsDir + [AssetTemplateFile(k)]] == svc.assetTemplate(envID, ids[k]).value
      {
        if k == i {
          assert r.files[path] == d1.files[path];
        }
      }
      forall q | q in d.files && q !in TemplatePaths(wsDir, i, |ids|)
        ensures r.files[q] == d.files[q]
      {
        assert q != path && q in d1.files;
      }
    } else {
      assert TemplatePaths(wsDir, i, |ids|) == {};
    }
  }

  /** The asset template files from `lo` on: the one numbered `lo`, which no later one shares, then the later ones. */
  lemma TemplatePathsStep(wsDir: Path, lo: nat, hi: nat)
    requires lo < hi
    ensures TemplatePaths(wsDir, lo, hi) == {wsDir + [AssetTemplateFile(lo)]} + TemplatePaths(wsDir, lo + 1, hi)
    ensures wsDir + [AssetTemplateFile(lo)] !in TemplatePaths(wsDir, lo + 1, hi)
  {
    forall k | lo < k < hi
      ensures wsDir + [AssetTemplateFile(k)] != wsDir + [AssetTemplateFile(lo)]
    {
      AssetTemplateFileInjective(k, lo);
      assert (wsDir + [AssetTemplateFile(k)])[|wsDir|] == AssetTemplateFile(k);
    }
  }

  /** The policy loop adds exactly the files `policy_<k>.srego`, the k-th holding the k-th policy. */
  lemma {:induction false} PolicyFilesWritten(d: Disk, appDir: Path, policies: seq<string>, i: nat)
    requires i <= |policies| && PolicyFiles(d, appDir, policies, i).Ok?
    ensures PolicyFiles(d, appDir, policies, i).value.dirs == d.dirs
    ensures PolicyFiles(d, appDir, policies, i).value.files.Keys == d.files.Keys + PolicyPaths(appDir, i, |policies|)
    ensures forall k :: i <= k < |policies| ==> PolicyFiles(d, appDir, policies, i).value.files[appDir + [PolicyFile(k)]] == policies[k]
    ensures forall q :: q in d.files && q !in PolicyPaths(appDir, i, |policies|) ==>
      PolicyFiles(d, appDir, policies, i).value.files[q] == d.files[q]
    decreases |policies| - i
  {
    if i < |policies| {
      var path := appDir + [PolicyFile(i)];
      var d1 := WriteFileF(d, path, policies[i]).value;
      PolicyFilesWritten(d1, appDir, policies, i + 1);
      var r := PolicyFiles(d1, appDir, policies, i + 1).value;
      assert PolicyFiles(d, appDir, policies, i) == Ok(r);
      PolicyPathsStep(appDir, i, |policies|);
      forall k | i <= k < |policies|
        ensures r.files[appDir + [PolicyFile(k)]] == policies[k]
      {
        if k == i {
          assert r.files[path] == d1.files[path];
        }
      }
      forall q | q in d.files && q !in PolicyPaths(appDir, i, |policies|)
        ensures r.files[q] == d.files[q]
      {
        assert q != path && q in d1.files;
      }
    } else {
      assert PolicyPaths(appDir, i, |policies|) == {};
    }
  }

  /** The policy files from `lo` on: the one numbered `lo`, which no later one shares, then the later ones. */
  lemma PolicyPathsStep(appDir: Path, lo: nat, hi: nat)
    requires lo < hi
    ensures PolicyPaths(appDir, lo, hi) == {appDir + [PolicyFile(lo)]} + PolicyPaths(appDir, lo + 1, hi)
    ensures appDir + [PolicyFile(lo)] !in PolicyPaths(appDir, lo + 1, hi)
  {
    forall k | lo < k < hi
      ensures appDir + [PolicyFile(k)] != appDir + [PolicyFile(lo)]
    {
      PolicyFileInjective(k, lo);
      assert (appDir + [PolicyFile(k)])[|appDir|] == PolicyFile(k);
    }
  }

  /** No policy file is named like the application or API mapper file. */
  lemma PolicyFileNames(k: nat)
    ensures PolicyFile(k) != ApplicationFile && PolicyFile(k) != ApiMapperFile
  {
    assert PolicyFile(k)[0] == 'p';
  }

  /**
   * One application adds exactly its directory (with any missing parents) and
   * its files: `application.json` with its JSON, `policy_<k>.srego` with its k-th
   * policy, and `api-mapper-set.json` with its API mapper set.
   */
  lemma AppFilesWritten(d: Disk, wsDir: Path, envID: string, wsID: string, app: P.Application, svc: Service)
    requires AppFiles(d, wsDir, envID, wsID, app, svc).Ok?
    ensures svc.appJson(app).Ok? && svc.appPolicies(envID, wsID, app.id).Ok? && svc.appApiMapper(envID, app.id).Ok?
    ensures var r := AppFiles(d, wsDir, envID, wsID, app, svc).value;
      var appDir := wsDir + [app.name];
      var policies := svc.appPolicies(envID, wsID, app.id).value;
      && r.dirs == d.dirs + Prefixes(appDir)
      && r.files.Keys == d.files.Keys + AppPaths(appDir, |policies|)
      && r.files[appDir + [ApplicationFile]] == svc.appJson(app).value
      && r.files[appDir + [ApiMapperFile]] == svc.appApiMapper(envID, app.id).value
      && (forall k :: 0 <= k < |policies| ==> r.files[appDir + [PolicyFile(k)]] == policies[k])
      && (forall q :: q in d.files && q !in AppPaths(appDir, |policies|) ==> r.files[q] == d.files[q])
  {
    var appDir := wsDir + [app.name];
    var policies := svc.appPolicies(envID, wsID, app.id).value;
    var d1 := MkdirAllF(d, appDir).value;
    var d2 := WriteFileF(d1, appDir + [ApplicationFile], svc.appJson(app).value).value;
    PolicyFilesWritten(d2, appDir, policies, 0);
    var d3 := PolicyFiles(d2, appDir, policies, 0).value;
    var r := WriteFileF(d3, appDir + [ApiMapperFile], svc.appApiMapper(envID, app.id).value).value;
    assert AppFiles(d, wsDir, envID, wsID, app, svc) == Ok(r);
    PolicyPathsOthers(appDir, |policies|);
    assert appDir + [ApiMapperFile] != appDir + [ApplicationFile];
    forall q | q in d.files && q !in AppPaths(appDir, |policies|)
      ensures r.files[q] == d.files[q]
    {
      assert q in d2.files && q !in PolicyPaths(appDir, 0, |policies|);
    }
  }

  /** No policy file is the application file or the API mapper file. */
  lemma PolicyPathsOthers(appDir: Path, n: nat)
    ensures appDir + [ApplicationFile] !in PolicyPaths(appDir, 0, n)
    ensures appDir + [ApiMapperFile] !in PolicyPaths(appDir, 0, n)
  {
    forall k | 0 <= k < n
      ensures appDir + [PolicyFile(k)] != appDir + [ApplicationFile]
      ensures appDir + [PolicyFile(k)] != appDir + [ApiMapperFile]
    {
      PolicyFileNames(k);
      assert (appDir + [PolicyFile(k)])[|appDir|] == PolicyFile(k);
    }
  }

  /** Every path in `paths` lies inside `dir`. */
  predicate AllBelow(dir: Path, paths: set<Path>) {
    forall q :: q in paths ==> Below(dir, q)
  }

  /** Each file of an application is a single name inside its directory. */
  lemma AppPathName(appDir: Path, n: nat, q: Path) returns (c: string)
    requires q in AppPaths(appDir, n)
    ensures q == appDir + [c]
  {
    if q == appDir + [ApplicationFile] {
      c := ApplicationFile;
    } else if q == appDir + [ApiMapperFile] {
      c := ApiMapperFile;
    } else {
      var k :| 0 <= k < n && q == appDir + [PolicyFile(k)];
      c := PolicyFile(k);
    }
  }

  /** The application files lie two levels inside the workspace directory. */
  lemma {:induction false} AppsPathsDepth(wsDir: Path, envID: string, wsID: string, apps: seq<P.Application>, i: nat, svc: Service)
    requires i <= |apps|
    ensures forall q :: q in AppsPaths(wsDir, envID, wsID, apps, i, svc) ==> |q| == |wsDir| + 2 && Below(wsDir, q)
    decreases |apps| - i
  {
    if i < |apps| {
      var appDir := wsDir + [apps[i].name];
      var n := PolicyCount(envID, wsID, apps[i], svc);
      var rest := AppsPaths(wsDir, envID, wsID, apps, i + 1, svc);
      assert AppsPaths(wsDir, envID, wsID, apps, i, svc) == AppPaths(appDir, n) + rest;
      AppsPathsDepth(wsDir, envID, wsID, apps, i + 1, svc);
      forall q | q in AppPaths(appDir, n)
        ensures |q| == |wsDir| + 2 && Below(wsDir, q)
      {
        var c := AppPathName(appDir, n, q);
        assert q == wsDir + [apps[i].name, c];
        assert q[..|wsDir|] == wsDir;
      }
    }
  }

  /**
   * The application loop adds exactly the files of its applications and leaves
   * every other file as it was.
   */
  lemma {:induction false} AppsFilesWritten(d: Disk, wsDir: Path, envID: string, wsID: string, apps: seq<P.Application>, i: nat, svc: Service)
    requires i <= |apps| && AppsFiles(d, wsDir, envID, wsID, apps, i, svc).Ok?
    ensures AppsFiles(d, wsDir, envID, wsID, apps, i, svc).value.files.Keys == d.files.Keys + AppsPaths(wsDir, envID, wsID, apps, i, svc)
    ensures forall q :: q in d.files && q !in AppsPaths(wsDir, envID, wsID, apps, i, svc) ==>
      AppsFiles(d, wsDir, envID, wsID, apps, i, svc).value.files[q] == d.files[q]
    decreases |apps| - i
  {
    if i < |apps| {
      var d1 := AppFiles(d, wsDir, envID, wsID, apps[i], svc).value;
      AppFilesWritten(d, wsDir, envID, wsID, apps[i], svc);
      AppsFilesWritten(d1, wsDir, envID, wsID, apps, i + 1, svc);
    }
  }

  /** The files fetchPlainIDWSStuff writes for asset template ids `ids` and applications `apps`. */
  function WsPaths(wsDir: Path, envID: string, wsID: string, ids: seq<string>, apps: seq<P.Application>, svc: Service): set<Path> {
    TemplatePaths(wsDir, 0, |ids|) + AppsPaths(wsDir, envID, wsID, apps, 0, svc)
  }

  /** A workspace that succeeds has fetched its applications and template ids, written its templates, then its applications. */
  lemma WsStuffSteps(d: Disk, p: PlainIDConfig, wsDir: Path, envID: string, wsID: string, svc: Service)
    requires WsStuff(d, p, wsDir, envID, wsID, svc).Ok?
    ensures svc.applications(envID, wsID).Ok? && svc.assetTemplateIds(wsID).Ok? && FindEnvironment(p, envID).Some?
    ensures Templates(d, wsDir, envID, svc.assetTemplateIds(wsID).value, 0, svc).Ok?
    ensures WsStuff(d, p, wsDir, envID, wsID, svc) ==
      AppsFiles(Templates(d, wsDir, envID, svc.assetTemplateIds(wsID).value, 0, svc).value,
                wsDir, envID, wsID, svc.applications(envID, wsID).value, 0, svc)
  {
  }

  /**
   * fetchPlainIDWSStuff adds exactly the asset template files and the
   * applications' files, each asset template file holding its template, and
   * leaves every other file as it was.
   */
  lemma WsStuffWritten(d: Disk, p: PlainIDConfig, wsDir: Path, envID: string, wsID: string, svc: Service)
    requires WsStuff(d, p, wsDir, envID, wsID, svc).Ok?
    ensures svc.applications(envID, wsID).Ok? && svc.assetTemplateIds(wsID).Ok? && FindEnvironment(p, envID).Some?
    ensures var r := WsStuff(d, p, wsDir, envID, wsID, svc).value;
      var ids := svc.assetTemplateIds(wsID).value;
      var paths := WsPaths(wsDir, envID, wsID, ids, svc.applications(envID, wsID).value, svc);
      && r.files.Keys == d.files.Keys + paths
      && (forall k :: 0 <= k < |ids| ==>
            && svc.assetTemplate(envID, ids[k]).Ok?
            && wsDir + [AssetTemplateFile(k)] in r.files
            && r.files[wsDir + [AssetTemplateFile(k)]] == svc.assetTemplate(envID, ids[k]).value)
      && (forall q :: q in d.files && q !in paths ==> r.files[q] == d.files[q])
  {
    WsStuffSteps(d, p, wsDir, envID, wsID, svc);
    var apps := svc.applications(envID, wsID).value;
    var ids := svc.assetTemplateIds(wsID).value;
    var d1 := Templates(d, wsDir, envID, ids, 0, svc).value;
    TemplatesWritten(d, wsDir, envID, ids, 0, svc);
    var r := AppsFiles(d1, wsDir, envID, wsID, apps, 0, svc).value;
    AppsFilesWritten(d1, wsDir, envID, wsID, apps, 0, svc);
    AppsPathsDepth(wsDir, envID, wsID, apps, 0, svc);
    var appsPaths := AppsPaths(wsDir, envID, wsID, apps, 0, svc);
    forall k | 0 <= k < |ids|
      ensures r.files[wsDir + [AssetTemplateFile(k)]] == svc.assetTemplate(envID, ids[k]).value
    {
      var t := wsDir + [AssetTemplateFile(k)];
      assert t in TemplatePaths(wsDir, 0, |ids|);
      assert t !in appsPaths;
    }
    forall q | q in d.files && q !in WsPaths(wsDir, envID, wsID, ids, apps, svc)
      ensures r.files[q] == d.files[q]
    {
      assert q !in TemplatePaths(wsDir, 0, |ids|) && q !in appsPaths;
    }
  }

  /**
   * A workspace directory is deleted and recreated before it is filled, so
   * afterwards it holds exactly the files this backup wrote into it: nothing
   * left over from an earlier backup survives. Nothing outside it changes.
   */
  lemma WorkspaceRefreshed(d: Disk, p: PlainIDConfig, envDir: Path, envID: string, ws: Workspace, svc: Service)
    requires d.Valid()
    requires MkdirAllF(RemoveAllF(d, envDir + [ws.name]), envDir + [ws.name]).Ok?
    requires WsStuff(MkdirAllF(RemoveAllF(d, envDir + [ws.name]), envDir + [ws.name]).value, p, envDir + [ws.name], envID, ws.id, svc).Ok?
    ensures svc.applications(envID, ws.id).Ok? && svc.assetTemplateIds(ws.id).Ok?
    ensures var wsDir := envDir + [ws.name];
      var r := WsStuff(MkdirAllF(RemoveAllF(d, wsDir), wsDir).value, p, wsDir, envID, ws.id, svc).value;
      var paths := WsPaths(wsDir, envID, ws.id, svc.assetTemplateIds(ws.id).value, svc.applications(envID, ws.id).value, svc);
      && (forall q :: PrefixOf(wsDir, q) ==> (q in r.files <==> q in paths))
      && (forall q :: !PrefixOf(wsDir, q) ==> (q in r.files <==> q in d.files))
      && (forall q :: !PrefixOf(wsDir, q) && q in d.files ==> r.files[q] == d.files[q])
  {
    var wsDir := envDir + [ws.name];
    var d1 := MkdirAllF(RemoveAllF(d, wsDir), wsDir).value;
    WsStuffWritten(d1, p, wsDir, envID, ws.id, svc);
    var apps := svc.applications(envID, ws.id).value;
    AppsPathsDepth(wsDir, envID, ws.id, apps, 0, svc);
    forall q | q in WsPaths(wsDir, envID, ws.id, svc.assetTemplateIds(ws.id).value, apps, svc)
      ensures PrefixOf(wsDir, q)
    {
    }
  }

  // ---------------------------------------------------------------------------
  // What an environment directory holds

  /** The identity template files for identities from index `i` on. */
  function IdentityPaths(envDir: Path, identities: seq<string>, i: nat): set<Path> {
    set j | i <= j < |identities| :: envDir + [IdentityTemplateFile(identities[j])]
  }

  /** The PAA group files for groups from index `i` on. */
  function GroupPaths(envDir: Path, groups: seq<P.PAAGroup>, i: nat): set<Path> {
    set j | i <= j < |groups| :: envDir + [PAAGroupFile(groups[j].id)]
  }

  /** The identity files from `i` on: the one of identity `i`, then those after it. */
  lemma IdentityPathsStep(envDir: Path, identities: seq<string>, i: nat)
    requires i < |identities|
    ensures IdentityPaths(envDir, identities, i) ==
      {envDir + [IdentityTemplateFile(identities[i])]} + IdentityPaths(envDir, identities, i + 1)
  {
  }

  /** The PAA group files from `i` on: the one of group `i`, then those after it. */
  lemma GroupPathsStep(envDir: Path, groups: seq<P.PAAGroup>, i: nat)
    requires i < |groups|
    ensures GroupPaths(envDir, groups, i) == {envDir + [PAAGroupFile(groups[i].id)]} + GroupPaths(envDir, groups, i + 1)
  {
  }

  /** Distinct identities get distinct template files. */
  lemma IdentityTemplateFileInjective(a: string, b: string)
    ensures IdentityTemplateFile(a) == IdentityTemplateFile(b) <==> a == b
  {
    if IdentityTemplateFile(a) == IdentityTemplateFile(b) {
      Framed("identity-template-", a, b, JsonSuffix);
    }
  }

  /**
   * The identity loop adds exactly one `identity-template-<id>.json` per
   * identity and leaves every other file and every directory as it was.
   */
  lemma {:induction false} IdentityFilesWritten(d: Disk, envDir: Path, envID: string, identities: seq<string>, i: nat, svc: Service)
    requires i <= |identities| && IdentityFiles(d, envDir, envID, identities, i, svc).Ok?
    ensures IdentityFiles(d, envDir, envID, identities, i, svc).value.dirs == d.dirs
    ensures IdentityFiles(d, envDir, envID, identities, i, svc).value.files.Keys == d.files.Keys + IdentityPaths(envDir, identities, i)
    ensures forall q :: q in d.files && q !in IdentityPaths(envDir, identities, i) ==>
      IdentityFiles(d, envDir, envID, identities, i, svc).value.files[q] == d.files[q]
    decreases |identities| - i
  {
    if i < |identities| {
      var path := envDir + [IdentityTemplateFile(identities[i])];
      var d1 := WriteFileF(d, path, svc.identityTemplates(envID, identities[i]).value).value;
      IdentityFilesWritten(d1, envDir, envID, identities, i + 1, svc);
      var r := IdentityFiles(d1, envDir, envID, identities, i + 1, svc).value;
      assert IdentityFiles(d, envDir, envID, identities, i, svc) == Ok(r);
      IdentityPathsStep(envDir, identities, i);
      assert d1.files.Keys == d.files.Keys + {path};
      forall q | q in d.files && q !in IdentityPaths(envDir, identities, i)
        ensures r.files[q] == d.files[q]
      {
        assert q != path && q in d1.files && q !in IdentityPaths(envDir, identities, i + 1);
      }
    } else {
      assert IdentityPaths(envDir, identities, i) == {};
    }
  }

  /**
   * Each identity's template file holds that identity's template (an identity
   * listed twice is fetched and written twice, with the same result).
   */
  lemma {:induction false} IdentityFilesContent(d: Disk, envDir: Path, envID: string, identities: seq<string>, i: nat, svc: Service)
    requires i <= |identities| && IdentityFiles(d, envDir, envID, identities, i, svc).Ok?
    ensures forall j :: i <= j < |identities| ==>
      && svc.identityTemplates(envID, identities[j]).Ok?
      && envDir + [IdentityTemplateFile(identities[j])] in IdentityFiles(d, envDir, envID, identities, i, svc).value.files
      && IdentityFiles(d, envDir, envID, identities, i, svc).value.files[envDir + [IdentityTemplateFile(identities[j])]]
         == svc.identityTemplates(envID, identities[j]).value
    decreases |identities| - i
  {
    if i < |identities| {
      var path := envDir + [IdentityTemplateFile(identities[i])];
      var d1 := WriteFileF(d, path, svc.identityTemplates(envID, identities[i]).value).value;
      IdentityFilesContent(d1, envDir, envID, identities, i + 1, svc);
      IdentityFilesWritten(d1, envDir, envID, identities, i + 1, svc);
      var r := IdentityFiles(d1, envDir, envID, identities, i + 1, svc).value;
      assert IdentityFiles(d, envDir, envID, identities, i, svc) == Ok(r);
      assert path in r.files;
      if path in IdentityPaths(envDir, identities, i + 1) {
        var j :| i + 1 <= j < |identities| && envDir + [IdentityTemplateFile(identities[j])] == path;
        assert IdentityTemplateFile(identities[j]) == IdentityTemplateFile(identities[i]);
        IdentityTemplateFileInjective(identities[j], identities[i]);
      } else {
        assert r.files[path] == d1.files[path];
      }
    }
  }

  /** The PAA group loop adds exactly one `paa-group_<id>.json` per group and leaves every other file as it was. */
  lemma {:induction false} GroupFilesWritten(d: Disk, envDir: Path, groups: seq<P.PAAGroup>, i: nat, svc: Service)
    requires i <= |groups| && GroupFiles(d, envDir, groups, i, svc).Ok?
    ensures GroupFiles(d, envDir, groups, i, svc).value.dirs == d.dirs
    ensures GroupFiles(d, envDir, groups, i, svc).value.files.Keys == d.files.Keys + GroupPaths(envDir, groups, i)
    ensures forall q :: q in d.files && q !in GroupPaths(envDir, groups, i) ==>
      GroupFiles(d, envDir, groups, i, svc).value.files[q] == d.files[q]
    decreases |groups| - i
  {
    if i < |groups| {
      var path := envDir + [PAAGroupFile(groups[i].id)];
      var d1 := WriteFileF(d, path, svc.groupJson(groups[i]).value).value;
      GroupFilesWritten(d1, envDir, groups, i + 1, svc);
      GroupPathsStep(envDir, groups, i);
    } else {
      assert GroupPaths(envDir, groups, i) == {};
    }
  }

  /** Identity template files and PAA group files never share a name. */
  lemma IdentityNotGroup(identity: string, groupId: string)
    ensures IdentityTemplateFile(identity) != PAAGroupFile(groupId)
  {
    assert IdentityTemplateFile(identity)[0] == 'i';
    assert PAAGroupFile(groupId)[0] == 'p';
  }

  /**
   * fetchPlainIDEnvStuff adds exactly the identity template files of the
   * environment the configuration finds for `envID` and the PAA group files,
   * each identity template file holding its template.
   */
  lemma EnvStuffWritten(d: Disk, p: PlainIDConfig, envDir: Path, envID: string, svc: Service)
    requires EnvStuff(d, p, envDir, envID, svc).Ok?
    ensures FindEnvironment(p, envID).Some? && svc.paaGroups(envID).Ok?
    ensures var r := EnvStuff(d, p, envDir, envID, svc).value;
      var identities := p.envs[FindEnvironment(p, envID).value].identities;
      var paths := IdentityPaths(envDir, identities, 0) + GroupPaths(envDir, svc.paaGroups(envID).value, 0);
      && r.dirs == d.dirs
      && r.files.Keys == d.files.Keys + paths
      && (forall j :: 0 <= j < |identities| ==>
            && svc.identityTemplates(envID, identities[j]).Ok?
            && r.files[envDir + [IdentityTemplateFile(identities[j])]] == svc.identityTemplates(envID, identities[j]).value)
      && (forall q :: q in d.files && q !in paths ==> r.files[q] == d.files[q])
  {
    var identities := p.envs[FindEnvironment(p, envID).value].identities;
    var groups := svc.paaGroups(envID).value;
    var d1 := IdentityFiles(d, envDir, envID, identities, 0, svc).value;
    IdentityFilesWritten(d, envDir, envID, identities, 0, svc);
    IdentityFilesContent(d, envDir, envID, identities, 0, svc);
    assert EnvStuff(d, p, envDir, envID, svc) == GroupFiles(d1, envDir, groups, 0, svc);
    GroupFilesWritten(d1, envDir, groups, 0, svc);
    forall j | 0 <= j < |identities|
      ensures envDir + [IdentityTemplateFile(identities[j])] !in GroupPaths(envDir, groups, 0)
    {
      var path := envDir + [IdentityTemplateFile(identities[j])];
      if path in GroupPaths(envDir, groups, 0) {
        var g :| 0 <= g < |groups| && envDir + [PAAGroupFile(groups[g].id)] == path;
        assert path[|envDir|] == PAAGroupFile(groups[g].id);
        IdentityNotGroup(identities[j], groups[g].id);
      }
    }
  }

  /**
   * An environment directory is created if missing and cleared of every file
   * at any depth before its own files are written, so afterwards the files
   * inside it are exactly its identity template and PAA group files; its
   * sub-directories are kept. Nothing outside it changes.
   */
  lemma EnvDirRefreshed(d: Disk, p: PlainIDConfig, env: Environment, svc: Service)
    requires d.Valid()
    requires MkdirAllF(d, [EnvDirName(env)]).Ok?
    requires EnvStuff(RemoveFilesOnlyF(MkdirAllF(d, [EnvDirName(env)]).value, [EnvDirName(env)]).value, p, [EnvDirName(env)], env.id, svc).Ok?
    ensures FindEnvironment(p, env.id).Some? && svc.paaGroups(env.id).Ok?
    ensures var envDir := [EnvDirName(env)];
      var r := EnvStuff(RemoveFilesOnlyF(MkdirAllF(d, envDir).value, envDir).value, p, envDir, env.id, svc).value;
      var paths := IdentityPaths(envDir, p.envs[FindEnvironment(p, env.id).value].identities, 0)
        + GroupPaths(envDir, svc.paaGroups(env.id).value, 0);
      && r.dirs == d.dirs + {envDir}
      && (forall q :: Below(envDir, q) ==> (q in r.files <==> q in paths))
      && (forall q :: !PrefixOf(envDir, q) ==> (q in r.files <==> q in d.files))
  {
    var envDir := [EnvDirName(env)];
    var d1 := MkdirAllF(d, envDir).value;
    assert Prefixes(envDir) == {[], envDir};
    assert d1.Valid();
    var d2 := RemoveFilesOnlyF(d1, envDir).value;
    EnvStuffWritten(d2, p, envDir, env.id, svc);
  }
}
