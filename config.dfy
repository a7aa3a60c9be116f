/**
 * The tool's configuration (config/config.go): the environments, workspaces and
 * identity types to back up, the scope predicates over them, and the check that
 * every required setting is present.
 */
module Config {
  import opened Wrappers
  import opened Seqs
  import opened Text

  /** The selector meaning "every environment", "every workspace" or "every identity". */
  const Wildcard := "*"

  datatype GitConfig = GitConfig(repo: string, token: string, branch: string)

  datatype Workspace = Workspace(id: string, name: string)

  /**
   * A configured environment. `identities` is the per-environment list of identity
   * types that the scope resolver and the backup read; it is not declared on the
   * Go struct shown in config/config.go (see README).
   */
  datatype Environment = Environment(id: string, name: string, workspaces: seq<Workspace>, identities: seq<string>)

  datatype PlainIDConfig = PlainIDConfig(
    baseUrl: string,
    clientId: string,
    clientSecret: string,
    envs: seq<Environment>,
    identities: seq<string>)

  datatype Config = Config(git: GitConfig, plainId: PlainIDConfig, dryRun: bool)

  /** Environment.HasWildcardWorkspace: some workspace selector is "*". */
  function HasWildcardWorkspace(e: Environment): (r: bool)
    ensures r <==> exists i :: 0 <= i < |e.workspaces| && e.workspaces[i].id == Wildcard
  {
    FirstIndex(e.workspaces, (w: Workspace) => w.id == Wildcard).Some?
  }

  /** Environment.ContainsWorkspace: some workspace selector is `workspaceId` or "*". */
  function ContainsWorkspace(e: Environment, workspaceId: string): (r: bool)
    ensures r <==> exists i :: 0 <= i < |e.workspaces| && (e.workspaces[i].id == workspaceId || e.workspaces[i].id == Wildcard)
    ensures HasWildcardWorkspace(e) ==> r
  {
    FirstIndex(e.workspaces, (w: Workspace) => w.id == workspaceId || w.id == Wildcard).Some?
  }

  /** Environment.IsWildcard */
  predicate IsWildcard(e: Environment) {
    e.id == Wildcard
  }

  /**
   * The test the resolver applies to an environment's identity list. No such method
   * is declared in config/config.go; it is taken to mirror HasWildcardWorkspace.
   */
  function HasWildcardIdentities(e: Environment): (r: bool)
    ensures r <==> exists i :: 0 <= i < |e.identities| && e.identities[i] == Wildcard
  {
    FirstIndex(e.identities, (id: string) => id == Wildcard).Some?
  }

  /** PlainIDConfig.HasWildcardEnvironment: some configured environment is "*". */
  function HasWildcardEnvironment(p: PlainIDConfig): (r: bool)
    ensures r <==> exists i :: 0 <= i < |p.envs| && IsWildcard(p.envs[i])
  {
    FirstIndex(p.envs, IsWildcard).Some?
  }

  /** PlainIDConfig.ContainsEnvironment: a wildcard environment contains every id. */
  function ContainsEnvironment(p: PlainIDConfig, envId: string): (r: bool)
    ensures r <==> HasWildcardEnvironment(p) || exists i :: 0 <= i < |p.envs| && p.envs[i].id == envId
  {
    if HasWildcardEnvironment(p) then true
    else FirstIndex(p.envs, (e: Environment) => e.id == envId).Some?
  }

  /**
   * PlainIDConfig.FindEnvironment: the index of the environment that `&p.Envs[i]`
   * points to. The first exact match wins; only when there is none does the first
   * wildcard environment answer; otherwise nil.
   */
  function FindEnvironment(p: PlainIDConfig, envId: string): (r: Option<nat>)
    ensures r.Some? ==> r.value < |p.envs|
    ensures (exists i :: 0 <= i < |p.envs| && p.envs[i].id == envId) ==>
      r.Some? && p.envs[r.value].id == envId && forall j :: 0 <= j < r.value ==> p.envs[j].id != envId
    ensures (forall i :: 0 <= i < |p.envs| ==> p.envs[i].id != envId) ==>
      (r.Some? <==> HasWildcardEnvironment(p)) &&
      (r.Some? ==> IsWildcard(p.envs[r.value]) && forall j :: 0 <= j < r.value ==> !IsWildcard(p.envs[j]))
    ensures r.Some? <==> ContainsEnvironment(p, envId)
  {
    var exact := FirstIndex(p.envs, (e: Environment) => e.id == envId);
    if exact.Some? then exact
    else if HasWildcardEnvironment(p) then FirstIndex(p.envs, IsWildcard)
    else None
  }

  // ---------------------------------------------------------------------------
  // validateConfig

  const MissingPrefix := "missing required configuration: "

  /** A required setting, as validateConfig names it in its error message. */
  datatype Field =
    | GitRepo | GitToken | GitBranch | BaseUrl | ClientId | ClientSecret
    | Envs | EnvId(index: nat) | EnvWorkspaces(index: nat) | Identities

  function FieldName(f: Field): string {
    match f
    case GitRepo => "git.repo"
    case GitToken => "git.token"
    case GitBranch => "git.branch"
    case BaseUrl => "plainid.base-url"
    case ClientId => "plainid.client-id"
    case ClientSecret => "plainid.client-secret"
    case Envs => "plainid.envs"
    case EnvId(i) => "plainid.envs[" + NatToString(i) + "].id"
    case EnvWorkspaces(i) => "plainid.envs[" + NatToString(i) + "].workspaces"
    case Identities => "plainid.identities"
  }

  /** The names of the settings, in the same order. */
  function FieldNames(fs: seq<Field>): seq<string> {
    if fs == [] then [] else [FieldName(fs[0])] + FieldNames(fs[1..])
  }

  /** `[f]` when the setting is missing, `[]` otherwise. */
  function When(missing: bool, f: Field): seq<Field> {
    if missing then [f] else []
  }

  /** The settings that must be non-empty, in the order validateConfig tests them. */
  function CredentialFields(cfg: Config): (r: seq<Field>)
    ensures forall f :: f in r ==> !f.EnvId? && !f.EnvWorkspaces? && f != Envs
  {
    When(cfg.git.repo == "", GitRepo) +
    When(cfg.git.token == "", GitToken) +
    When(cfg.git.branch == "", GitBranch) +
    When(cfg.plainId.baseUrl == "", BaseUrl) +
    When(cfg.plainId.clientId == "", ClientId) +
    When(cfg.plainId.clientSecret == "", ClientSecret)
  }

  /** What environment `i` contributes: a missing id, then missing workspaces unless it is a wildcard. */
  function EnvFieldsAt(e: Environment, i: nat): seq<Field> {
    var noWorkspaces := |e.workspaces| == 0 && !IsWildcard(e);
    if e.id == "" then (if noWorkspaces then [EnvId(i), EnvWorkspaces(i)] else [EnvId(i)])
    else if noWorkspaces then [EnvWorkspaces(i)]
    else []
  }

  /** What the first `n` environments contribute, in index order. */
  function EnvFields(envs: seq<Environment>, n: nat): seq<Field>
    requires n <= |envs|
  {
    if n == 0 then [] else EnvFields(envs, n - 1) + EnvFieldsAt(envs[n - 1], n - 1)
  }

  /** The ordered list of missing settings that validateConfig reports. */
  function MissingFields(cfg: Config): seq<Field> {
    CredentialFields(cfg) +
    (if |cfg.plainId.envs| == 0 then [Envs] else EnvFields(cfg.plainId.envs, |cfg.plainId.envs|)) +
    When(|cfg.plainId.identities| == 0, Identities)
  }

  /** A configuration that names everything validateConfig asks for, stated independently. */
  predicate Complete(cfg: Config) {
    && cfg.git.repo != "" && cfg.git.token != "" && cfg.git.branch != ""
    && cfg.plainId.baseUrl != "" && cfg.plainId.clientId != "" && cfg.plainId.clientSecret != ""
    && |cfg.plainId.envs| > 0
    && (forall i :: 0 <= i < |cfg.plainId.envs| ==>
          cfg.plainId.envs[i].id != "" && (|cfg.plainId.envs[i].workspaces| > 0 || IsWildcard(cfg.plainId.envs[i])))
    && |cfg.plainId.identities| > 0
  }

  /** The error validateConfig returns: the missing settings' names, comma-separated, after the prefix. */
  function MissingMessage(fields: seq<Field>): string {
    MissingPrefix + Join(FieldNames(fields), ", ")
  }

  /**
   * validateConfig: collects the missing settings by appending, then reports them
   * all in one error, or returns no error when nothing is missing.
   */
  method ValidateConfig(cfg: Config) returns (err: Option<string>)
    ensures err == None <==> Complete(cfg)
    ensures err.Some? ==> err.value == MissingMessage(MissingFields(cfg))
  {
    // the six connection settings, each appended when it is empty
    var missingFields: seq<Field> := CredentialFields(cfg);
    var envs := cfg.plainId.envs;
    if |envs| == 0 {
      missingFields := missingFields + [Envs];
    } else {
      var envFields := EnvironmentFields(envs);
      missingFields := missingFields + envFields;
    }

    if |cfg.plainId.identities| == 0 {
      missingFields := missingFields + [Identities];
    }
    assert missingFields == MissingFields(cfg);
    MissingFieldsEmptyIffComplete(cfg);

    if |missingFields| > 0 {
      return Some(MissingMessage(missingFields));
    }
    return None;
  }

  /** The environment loop of validateConfig: each environment's missing id, then its missing workspaces unless a wildcard. */
  method EnvironmentFields(envs: seq<Environment>) returns (fields: seq<Field>)
    ensures fields == EnvFields(envs, |envs|)
  {
    fields := [];
    for i := 0 to |envs|
      invariant fields == EnvFields(envs, i)
    {
      fields := fields + EnvFieldsAt(envs[i], i);
    }
  }

  lemma AppendAssoc<T>(a: seq<T>, b: seq<T>, c: seq<T>)
    ensures a + (b + c) == (a + b) + c
  {
  }

  /** Nothing is reported for environments that all have an id and, unless wildcard, a workspace. */
  lemma {:induction false} EnvFieldsEmpty(envs: seq<Environment>, n: nat)
    requires n <= |envs|
    ensures EnvFields(envs, n) == [] <==>
      forall i :: 0 <= i < n ==> envs[i].id != "" && (|envs[i].workspaces| > 0 || IsWildcard(envs[i]))
  {
    if n > 0 {
      EnvFieldsEmpty(envs, n - 1);
    }
  }

  /** validateConfig succeeds exactly on complete configurations. */
  lemma MissingFieldsEmptyIffComplete(cfg: Config)
    ensures MissingFields(cfg) == [] <==> Complete(cfg)
  {
    EnvFieldsEmpty(cfg.plainId.envs, |cfg.plainId.envs|);
  }

  /** Environment `k` is reported for a missing id exactly when it is among the first `n` and its id is empty. */
  lemma {:induction false} EnvIdReported(envs: seq<Environment>, n: nat, k: nat)
    requires n <= |envs|
    ensures EnvId(k) in EnvFields(envs, n) <==> k < n && envs[k].id == ""
  {
    if n > 0 {
      var pre := EnvFields(envs, n - 1);
      var at := EnvFieldsAt(envs[n - 1], n - 1);
      EnvIdReported(envs, n - 1, k);
      EnvFieldsAtMembers(envs[n - 1], n - 1, k);
      assert EnvFields(envs, n) == pre + at;
      assert EnvId(k) in pre + at <==> EnvId(k) in pre || EnvId(k) in at;
    }
  }

  /** Environment `k` is reported for missing workspaces exactly when it is among the first `n`, has none and is not a wildcard. */
  lemma {:induction false} EnvWorkspacesReported(envs: seq<Environment>, n: nat, k: nat)
    requires n <= |envs|
    ensures EnvWorkspaces(k) in EnvFields(envs, n) <==> k < n && |envs[k].workspaces| == 0 && !IsWildcard(envs[k])
  {
    if n > 0 {
      var pre := EnvFields(envs, n - 1);
      var at := EnvFieldsAt(envs[n - 1], n - 1);
      EnvWorkspacesReported(envs, n - 1, k);
      EnvFieldsAtMembers(envs[n - 1], n - 1, k);
      assert EnvFields(envs, n) == pre + at;
      assert EnvWorkspaces(k) in pre + at <==> EnvWorkspaces(k) in pre || EnvWorkspaces(k) in at;
    }
  }

  /** The per-environment entries never report the environment list as a whole. */
  lemma {:induction false} EnvsNotReported(envs: seq<Environment>, n: nat)
    requires n <= |envs|
    ensures Envs !in EnvFields(envs, n)
  {
    if n > 0 {
      var pre := EnvFields(envs, n - 1);
      var at := EnvFieldsAt(envs[n - 1], n - 1);
      EnvsNotReported(envs, n - 1);
      EnvFieldsAtMembers(envs[n - 1], n - 1, 0);
      assert EnvFields(envs, n) == pre + at;
    }
  }

  /** What environment `i` contributes names only index `i`. */
  lemma EnvFieldsAtMembers(e: Environment, i: nat, k: nat)
    ensures EnvId(k) in EnvFieldsAt(e, i) <==> k == i && e.id == ""
    ensures EnvWorkspaces(k) in EnvFieldsAt(e, i) <==> k == i && |e.workspaces| == 0 && !IsWildcard(e)
    ensures Envs !in EnvFieldsAt(e, i)
  {
  }

  /**
   * Environment `k` is reported for a missing id exactly when its id is empty, and
   * for missing workspaces exactly when it has none and is not a wildcard; an empty
   * environment list is reported as a whole, with no per-environment entries.
   */
  lemma MissingEnvFields(cfg: Config, k: nat)
    ensures k < |cfg.plainId.envs| ==>
      (EnvId(k) in MissingFields(cfg) <==> cfg.plainId.envs[k].id == "")
    ensures k < |cfg.plainId.envs| ==>
      (EnvWorkspaces(k) in MissingFields(cfg) <==>
        |cfg.plainId.envs[k].workspaces| == 0 && !IsWildcard(cfg.plainId.envs[k]))
    ensures Envs in MissingFields(cfg) <==> |cfg.plainId.envs| == 0
    ensures |cfg.plainId.envs| == 0 ==> EnvId(k) !in MissingFields(cfg) && EnvWorkspaces(k) !in MissingFields(cfg)
  {
    var envs := cfg.plainId.envs;
    if |envs| > 0 {
      EnvIdReported(envs, |envs|, k);
      EnvWorkspacesReported(envs, |envs|, k);
      EnvsNotReported(envs, |envs|);
    }
  }
}
