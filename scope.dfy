/**
 * The scope resolver that runs before every command (cmd/root.go): it turns the
 * configured environments, workspaces and identity types into the concrete scope
 * found in the live inventory, expanding wildcards, dropping ids the inventory
 * does not know and taking names from the inventory.
 */
module Scope {
  import opened Wrappers
  import opened Seqs
  import opened Config
  import opened Text
  import P = PlainID

  // ---------------------------------------------------------------------------
  // Environments

  /** The resolved entry for an inventory environment under a wildcard configuration. */
  function Expanded(inv: P.Environment): Environment {
    Environment(inv.id, inv.name, [Workspace(Wildcard, "")], [Wildcard])
  }

  /** Every inventory environment, in inventory order, with all its workspaces and identity types. */
  function WildcardEnvs(inv: seq<P.Environment>): (r: seq<Environment>)
    ensures |r| == |inv|
    ensures forall k :: 0 <= k < |inv| ==>
      r[k].id == inv[k].id && r[k].name == inv[k].name &&
      r[k].workspaces == [Workspace(Wildcard, "")] && r[k].identities == [Wildcard]
  {
    if inv == [] then [] else WildcardEnvs(inv[..|inv| - 1]) + [Expanded(inv[|inv| - 1])]
  }

  /** The first inventory environment with the configured id, if any. */
  function LookupEnv(inv: seq<P.Environment>, id: string): (r: Option<nat>)
    ensures r.Some? ==> r.value < |inv| && inv[r.value].id == id && forall m :: 0 <= m < r.value ==> inv[m].id != id
  {
    FirstIndex(inv, (x: P.Environment) => x.id == id)
  }

  /** What one configured environment resolves to: itself named as in inventory, or nothing. */
  function MatchEnv(e: Environment, inv: seq<P.Environment>): seq<Environment> {
    match LookupEnv(inv, e.id)
    case Some(j) => [e.(name := inv[j].name)]
    case None => []
  }

  /** The configured environments found in inventory, in configuration order, renamed. */
  function MatchEnvs(cfgs: seq<Environment>, inv: seq<P.Environment>): seq<Environment> {
    if cfgs == [] then [] else MatchEnvs(cfgs[..|cfgs| - 1], inv) + MatchEnv(cfgs[|cfgs| - 1], inv)
  }

  /** The environments resolution starts from, before workspaces and identities. */
  function BaseEnvs(p: PlainIDConfig, inv: seq<P.Environment>): seq<Environment> {
    if HasWildcardEnvironment(p) then WildcardEnvs(inv) else MatchEnvs(p.envs, inv)
  }

  /** Resolving configurations one after the other resolves each in turn: order and repeats are kept. */
  lemma {:induction false} MatchEnvsAppend(a: seq<Environment>, b: seq<Environment>, inv: seq<P.Environment>)
    ensures MatchEnvs(a + b, inv) == MatchEnvs(a, inv) + MatchEnvs(b, inv)
    decreases |b|
  {
    if b == [] {
      assert a + b == a;
    } else {
      assert (a + b)[..|a + b| - 1] == a + b[..|b| - 1];
      MatchEnvsAppend(a, b[..|b| - 1], inv);
    }
  }

  /** Nothing is fabricated: each resolved environment is a configured one, found in inventory, with the inventory name. */
  lemma {:induction false} MatchEnvsSound(cfgs: seq<Environment>, inv: seq<P.Environment>)
    ensures forall x :: x in MatchEnvs(cfgs, inv) ==>
      exists k, j :: 0 <= k < |cfgs| && 0 <= j < |inv| && cfgs[k].id == inv[j].id && x == cfgs[k].(name := inv[j].name)
  {
    if cfgs != [] {
      var init := cfgs[..|cfgs| - 1];
      MatchEnvsSound(init, inv);
      forall x | x in MatchEnvs(cfgs, inv)
        ensures exists k, j :: 0 <= k < |cfgs| && 0 <= j < |inv| && cfgs[k].id == inv[j].id && x == cfgs[k].(name := inv[j].name)
      {
        if x in MatchEnvs(init, inv) {
          var k, j :| 0 <= k < |init| && 0 <= j < |inv| && init[k].id == inv[j].id && x == init[k].(name := inv[j].name);
          assert cfgs[k] == init[k];
        } else {
          var k := |cfgs| - 1;
          var j := LookupEnv(inv, cfgs[k].id).value;
          assert cfgs[k].id == inv[j].id && x == cfgs[k].(name := inv[j].name);
        }
      }
    }
  }

  /** Nothing known is dropped: a configured environment the inventory has is resolved, named after its first match. */
  lemma {:induction false} MatchEnvsComplete(cfgs: seq<Environment>, inv: seq<P.Environment>, k: nat)
    requires k < |cfgs|
    requires exists j :: 0 <= j < |inv| && inv[j].id == cfgs[k].id
    ensures LookupEnv(inv, cfgs[k].id).Some?
    ensures cfgs[k].(name := inv[LookupEnv(inv, cfgs[k].id).value].name) in MatchEnvs(cfgs, inv)
  {
    var last := |cfgs| - 1;
    if k < last {
      assert cfgs[..last][k] == cfgs[k];
      MatchEnvsComplete(cfgs[..last], inv, k);
    }
  }

  /** A configured id listed twice is resolved twice. */
  lemma ListedTwiceResolvedTwice(e: Environment, inv: seq<P.Environment>)
    requires exists j :: 0 <= j < |inv| && inv[j].id == e.id
    ensures |MatchEnvs([e, e], inv)| == 2
  {
    var j :| 0 <= j < |inv| && inv[j].id == e.id;
    assert ((x: P.Environment) => x.id == e.id)(inv[j]);
    assert LookupEnv(inv, e.id).Some?;
    assert |MatchEnv(e, inv)| == 1;
    assert [e, e][..1] == [e] && [e][..0] == [];
    assert MatchEnvs([e], inv) == MatchEnv(e, inv);
    assert MatchEnvs([e, e], inv) == MatchEnvs([e], inv) + MatchEnv(e, inv);
  }

  // ---------------------------------------------------------------------------
  // Workspaces

  /** Every inventory workspace, with its id and name, in inventory order. */
  function AllWorkspaces(wss: seq<P.Workspace>): (r: seq<Workspace>)
    ensures |r| == |wss|
    ensures forall k :: 0 <= k < |wss| ==> r[k] == Workspace(wss[k].id, wss[k].name)
  {
    if wss == [] then [] else AllWorkspaces(wss[..|wss| - 1]) + [Workspace(wss[|wss| - 1].id, wss[|wss| - 1].name)]
  }

  /** The first inventory workspace with the configured id, if any. */
  function LookupWorkspace(wss: seq<P.Workspace>, id: string): (r: Option<nat>)
    ensures r.Some? ==> r.value < |wss| && wss[r.value].id == id && forall m :: 0 <= m < r.value ==> wss[m].id != id
  {
    FirstIndex(wss, (x: P.Workspace) => x.id == id)
  }

  function MatchWorkspace(w: Workspace, wss: seq<P.Workspace>): seq<Workspace> {
    match LookupWorkspace(wss, w.id)
    case Some(j) => [w.(name := wss[j].name)]
    case None => []
  }

  /** The configured workspaces found in inventory, in configuration order, renamed. */
  function MatchWorkspaces(cfgs: seq<Workspace>, wss: seq<P.Workspace>): seq<Workspace> {
    if cfgs == [] then [] else MatchWorkspaces(cfgs[..|cfgs| - 1], wss) + MatchWorkspace(cfgs[|cfgs| - 1], wss)
  }

  /** An environment's workspaces after resolution against the inventory `wss`. */
  function ResolvedWorkspaces(e: Environment, wss: seq<P.Workspace>): seq<Workspace> {
    if HasWildcardWorkspace(e) then AllWorkspaces(wss) else MatchWorkspaces(e.workspaces, wss)
  }

  /** Each resolved workspace is a configured one found in inventory, with the inventory name. */
  lemma {:induction false} MatchWorkspacesSound(cfgs: seq<Workspace>, wss: seq<P.Workspace>)
    ensures forall x :: x in MatchWorkspaces(cfgs, wss) ==>
      exists k, j :: 0 <= k < |cfgs| && 0 <= j < |wss| && cfgs[k].id == wss[j].id && x == cfgs[k].(name := wss[j].name)
  {
    if cfgs != [] {
      var init := cfgs[..|cfgs| - 1];
      MatchWorkspacesSound(init, wss);
      forall x | x in MatchWorkspaces(cfgs, wss)
        ensures exists k, j :: 0 <= k < |cfgs| && 0 <= j < |wss| && cfgs[k].id == wss[j].id && x == cfgs[k].(name := wss[j].name)
      {
        if x in MatchWorkspaces(init, wss) {
          var k, j :| 0 <= k < |init| && 0 <= j < |wss| && init[k].id == wss[j].id && x == init[k].(name := wss[j].name);
          assert cfgs[k] == init[k];
        } else {
          var k := |cfgs| - 1;
          var j := LookupWorkspace(wss, cfgs[k].id).value;
          assert cfgs[k].id == wss[j].id && x == cfgs[k].(name := wss[j].name);
        }
      }
    }
  }

  /** A configured workspace the inventory has is resolved, named after its first match. */
  lemma {:induction false} MatchWorkspacesComplete(cfgs: seq<Workspace>, wss: seq<P.Workspace>, k: nat)
    requires k < |cfgs|
    requires exists j :: 0 <= j < |wss| && wss[j].id == cfgs[k].id
    ensures LookupWorkspace(wss, cfgs[k].id).Some?
    ensures cfgs[k].(name := wss[LookupWorkspace(wss, cfgs[k].id).value].name) in MatchWorkspaces(cfgs, wss)
  {
    var last := |cfgs| - 1;
    if k < last {
      assert cfgs[..last][k] == cfgs[k];
      MatchWorkspacesComplete(cfgs[..last], wss, k);
    }
  }

  // ---------------------------------------------------------------------------
  // Identities

  /** The template id of every inventory identity, in order. */
  function TemplateIDs(ids: seq<P.Identity>): (r: seq<string>)
    ensures |r| == |ids|
    ensures forall k :: 0 <= k < |ids| ==> r[k] == ids[k].templateId
  {
    if ids == [] then [] else TemplateIDs(ids[..|ids| - 1]) + [ids[|ids| - 1].templateId]
  }

  /** An environment's identity types after resolution: replaced only under a wildcard. */
  function ResolvedIdentities(e: Environment, ids: seq<P.Identity>): seq<string> {
    if HasWildcardIdentities(e) then TemplateIDs(ids) else e.identities
  }

  // ---------------------------------------------------------------------------
  // The three passes

  /** An environment with its workspaces resolved against the inventory `found`. */
  function WithWorkspaces(e: Environment, found: seq<P.Workspace>): Environment {
    e.(workspaces := ResolvedWorkspaces(e, found))
  }

  /** An environment with its identity types resolved against the inventory `found`. */
  function WithIdentities(e: Environment, found: seq<P.Identity>): Environment {
    e.(identities := ResolvedIdentities(e, found))
  }

  /** The error the resolver returns when the inventory's environment list cannot be fetched (the misspelling is the tool's). */
  function EnvironmentsError(e: string): string {
    Wrap("failed to get environments for whildcard setup", e)
  }

  /** The error the resolver returns when environment `id`'s workspaces cannot be fetched. */
  function WorkspacesError(id: string, e: string): string {
    Wrap("failed to get workspaces for environment " + id, e)
  }

  /** The error the resolver returns when environment `id`'s identities cannot be fetched. */
  function IdentitiesError(id: string, e: string): string {
    Wrap("failed to get identities for environment " + id, e)
  }

  /** The workspace pass from index `i` on: fetch, resolve and assign in place; the first failure stops it. */
  function Workspaced(envs: seq<Environment>, i: nat, wss: string -> Result<seq<P.Workspace>>): Result<seq<Environment>>
    requires i <= |envs|
    decreases |envs| - i
  {
    if i == |envs| then Ok(envs)
    else
      match wss(envs[i].id)
      case Err(e) => Err(WorkspacesError(envs[i].id, e))
      case Ok(found) => Workspaced(envs[i := WithWorkspaces(envs[i], found)], i + 1, wss)
  }

  /** The identity pass from index `i` on: fetch, and replace only under a wildcard; the first failure stops it. */
  function Identified(envs: seq<Environment>, i: nat, ids: string -> Result<seq<P.Identity>>): Result<seq<Environment>>
    requires i <= |envs|
    decreases |envs| - i
  {
    if i == |envs| then Ok(envs)
    else
      match ids(envs[i].id)
      case Err(e) => Err(IdentitiesError(envs[i].id, e))
      case Ok(found) => Identified(envs[i := WithIdentities(envs[i], found)], i + 1, ids)
  }

  /** The whole resolution: the environment list, then every workspace fetch, then every identity fetch. */
  function Resolve(p: PlainIDConfig, envs: Result<seq<P.Environment>>,
                   wss: string -> Result<seq<P.Workspace>>, ids: string -> Result<seq<P.Identity>>): Result<seq<Environment>>
  {
    match envs
    case Err(e) => Err(EnvironmentsError(e))
    case Ok(inv) =>
      match Workspaced(BaseEnvs(p, inv), 0, wss)
      case Err(e) => Err(e)
      case Ok(w) => Identified(w, 0, ids)
  }

  /** The workspace pass fails exactly when one of its fetches does. */
  lemma {:induction false} WorkspacedOk(envs: seq<Environment>, i: nat, wss: string -> Result<seq<P.Workspace>>)
    requires i <= |envs|
    ensures Workspaced(envs, i, wss).Ok? <==> forall k :: i <= k < |envs| ==> wss(envs[k].id).Ok?
    decreases |envs| - i
  {
    if i < |envs| && wss(envs[i].id).Ok? {
      var next := envs[i := WithWorkspaces(envs[i], wss(envs[i].id).value)];
      WorkspacedOk(next, i + 1, wss);
      assert forall k :: i < k < |envs| ==> next[k].id == envs[k].id;
    }
  }

  /** The workspace pass leaves environment `k` as it was when it lies before `i`, and otherwise resolves it from its own fetch. */
  lemma {:induction false} WorkspacedPerIndex(envs: seq<Environment>, i: nat, wss: string -> Result<seq<P.Workspace>>, k: nat)
    requires i <= |envs| && k < |envs|
    requires forall j :: i <= j < |envs| ==> wss(envs[j].id).Ok?
    ensures Workspaced(envs, i, wss).Ok?
    ensures |Workspaced(envs, i, wss).value| == |envs|
    ensures Workspaced(envs, i, wss).value[k] == if k < i then envs[k] else WithWorkspaces(envs[k], wss(envs[k].id).value)
    decreases |envs| - i
  {
    if i < |envs| {
      var next := envs[i := WithWorkspaces(envs[i], wss(envs[i].id).value)];
      assert forall j :: i < j < |envs| ==> next[j] == envs[j];
      WorkspacedPerIndex(next, i + 1, wss, k);
    }
  }

  /** The identity pass fails exactly when one of its fetches does. */
  lemma {:induction false} IdentifiedOk(envs: seq<Environment>, i: nat, ids: string -> Result<seq<P.Identity>>)
    requires i <= |envs|
    ensures Identified(envs, i, ids).Ok? <==> forall k :: i <= k < |envs| ==> ids(envs[k].id).Ok?
    decreases |envs| - i
  {
    if i < |envs| && ids(envs[i].id).Ok? {
      var next := envs[i := WithIdentities(envs[i], ids(envs[i].id).value)];
      IdentifiedOk(next, i + 1, ids);
      assert forall k :: i < k < |envs| ==> next[k].id == envs[k].id;
    }
  }

  /** A failed workspace pass reports the first environment whose fetch failed, with that fetch's error wrapped. */
  lemma {:induction false} WorkspacedError(envs: seq<Environment>, i: nat, wss: string -> Result<seq<P.Workspace>>)
    requires i <= |envs| && Workspaced(envs, i, wss).Err?
    ensures exists k :: (i <= k < |envs| && wss(envs[k].id).Err? &&
      (forall j :: i <= j < k ==> wss(envs[j].id).Ok?) &&
      Workspaced(envs, i, wss).error == WorkspacesError(envs[k].id, wss(envs[k].id).error))
    decreases |envs| - i
  {
    if wss(envs[i].id).Ok? {
      var next := envs[i := WithWorkspaces(envs[i], wss(envs[i].id).value)];
      WorkspacedError(next, i + 1, wss);
      var k :| i + 1 <= k < |next| && wss(next[k].id).Err? &&
        (forall j :: i + 1 <= j < k ==> wss(next[j].id).Ok?) &&
        Workspaced(next, i + 1, wss).error == WorkspacesError(next[k].id, wss(next[k].id).error);
      assert forall j :: i < j < |envs| ==> next[j].id == envs[j].id;
      assert wss(envs[k].id).Err?;
    }
  }

  /** A failed identity pass reports the first environment whose fetch failed, with that fetch's error wrapped. */
  lemma {:induction false} IdentifiedError(envs: seq<Environment>, i: nat, ids: string -> Result<seq<P.Identity>>)
    requires i <= |envs| && Identified(envs, i, ids).Err?
    ensures exists k :: (i <= k < |envs| && ids(envs[k].id).Err? &&
      (forall j :: i <= j < k ==> ids(envs[j].id).Ok?) &&
      Identified(envs, i, ids).error == IdentitiesError(envs[k].id, ids(envs[k].id).error))
    decreases |envs| - i
  {
    if ids(envs[i].id).Ok? {
      var next := envs[i := WithIdentities(envs[i], ids(envs[i].id).value)];
      IdentifiedError(next, i + 1, ids);
      var k :| i + 1 <= k < |next| && ids(next[k].id).Err? &&
        (forall j :: i + 1 <= j < k ==> ids(next[j].id).Ok?) &&
        Identified(next, i + 1, ids).error == IdentitiesError(next[k].id, ids(next[k].id).error);
      assert forall j :: i < j < |envs| ==> next[j].id == envs[j].id;
      assert ids(envs[k].id).Err?;
    }
  }

  /** The identity pass leaves environment `k` as it was when it lies before `i`, and otherwise resolves it from its own fetch. */
  lemma {:induction false} IdentifiedPerIndex(envs: seq<Environment>, i: nat, ids: string -> Result<seq<P.Identity>>, k: nat)
    requires i <= |envs| && k < |envs|
    requires forall j :: i <= j < |envs| ==> ids(envs[j].id).Ok?
    ensures Identified(envs, i, ids).Ok?
    ensures |Identified(envs, i, ids).value| == |envs|
    ensures Identified(envs, i, ids).value[k] == if k < i then envs[k] else WithIdentities(envs[k], ids(envs[k].id).value)
    decreases |envs| - i
  {
    if i < |envs| {
      var next := envs[i := WithIdentities(envs[i], ids(envs[i].id).value)];
      assert forall j :: i < j < |envs| ==> next[j] == envs[j];
      IdentifiedPerIndex(next, i + 1, ids, k);
    }
  }

  /** Resolution succeeds exactly when the environment list and every later fetch do. */
  lemma ResolveOk(p: PlainIDConfig, envs: Result<seq<P.Environment>>,
                  wss: string -> Result<seq<P.Workspace>>, ids: string -> Result<seq<P.Identity>>)
    ensures Resolve(p, envs, wss, ids).Ok? <==>
      envs.Ok? &&
      (forall k :: 0 <= k < |BaseEnvs(p, envs.value)| ==> wss(BaseEnvs(p, envs.value)[k].id).Ok?) &&
      (forall k :: 0 <= k < |BaseEnvs(p, envs.value)| ==> ids(BaseEnvs(p, envs.value)[k].id).Ok?)
  {
    if envs.Ok? {
      var base := BaseEnvs(p, envs.value);
      WorkspacedOk(base, 0, wss);
      var w := Workspaced(base, 0, wss);
      if w.Ok? {
        if |base| > 0 {
          WorkspacedPerIndex(base, 0, wss, 0);
        }
        forall k | 0 <= k < |base|
          ensures w.value[k].id == base[k].id
        {
          WorkspacedPerIndex(base, 0, wss, k);
        }
        IdentifiedOk(w.value, 0, ids);
      }
    }
  }

  /**
   * A failed resolution says which request failed: the environment list, or the
   * workspace or identity fetch of one of the environments being resolved, each
   * with its context prepended to the cause.
   */
  lemma ResolveError(p: PlainIDConfig, envs: Result<seq<P.Environment>>,
                     wss: string -> Result<seq<P.Workspace>>, ids: string -> Result<seq<P.Identity>>)
    requires Resolve(p, envs, wss, ids).Err?
    ensures envs.Err? ==> Resolve(p, envs, wss, ids).error == EnvironmentsError(envs.error)
    ensures envs.Ok? ==> exists k :: (0 <= k < |BaseEnvs(p, envs.value)| &&
      ((wss(BaseEnvs(p, envs.value)[k].id).Err? &&
        Resolve(p, envs, wss, ids).error == WorkspacesError(BaseEnvs(p, envs.value)[k].id, wss(BaseEnvs(p, envs.value)[k].id).error)) ||
       (ids(BaseEnvs(p, envs.value)[k].id).Err? &&
        Resolve(p, envs, wss, ids).error == IdentitiesError(BaseEnvs(p, envs.value)[k].id, ids(BaseEnvs(p, envs.value)[k].id).error))))
  {
    if envs.Ok? {
      var base := BaseEnvs(p, envs.value);
      var w := Workspaced(base, 0, wss);
      if w.Err? {
        WorkspacedError(base, 0, wss);
      } else {
        WorkspacedOk(base, 0, wss);
        if |base| > 0 {
          WorkspacedPerIndex(base, 0, wss, 0);
        }
        forall k | 0 <= k < |base|
          ensures w.value[k].id == base[k].id
        {
          WorkspacedPerIndex(base, 0, wss, k);
        }
        IdentifiedError(w.value, 0, ids);
        var k :| 0 <= k < |w.value| && ids(w.value[k].id).Err? &&
          (forall j :: 0 <= j < k ==> ids(w.value[j].id).Ok?) &&
          Identified(w.value, 0, ids).error == IdentitiesError(w.value[k].id, ids(w.value[k].id).error);
        assert base[k].id == w.value[k].id;
      }
    }
  }

  /** Each resolved environment is its starting entry with workspaces and identity types resolved from its own fetches. */
  lemma ResolvePerEnv(p: PlainIDConfig, envs: Result<seq<P.Environment>>,
                      wss: string -> Result<seq<P.Workspace>>, ids: string -> Result<seq<P.Identity>>)
    requires envs.Ok?
    requires forall k :: 0 <= k < |BaseEnvs(p, envs.value)| ==> wss(BaseEnvs(p, envs.value)[k].id).Ok?
    requires forall k :: 0 <= k < |BaseEnvs(p, envs.value)| ==> ids(BaseEnvs(p, envs.value)[k].id).Ok?
    ensures Resolve(p, envs, wss, ids).Ok?
    ensures var base := BaseEnvs(p, envs.value);
      var r := Resolve(p, envs, wss, ids).value;
      |r| == |base| &&
      forall k :: 0 <= k < |base| ==>
        r[k] == base[k].(workspaces := ResolvedWorkspaces(base[k], wss(base[k].id).value),
                         identities := ResolvedIdentities(base[k], ids(base[k].id).value))
  {
    ResolveOk(p, envs, wss, ids);
    var base := BaseEnvs(p, envs.value);
    var w := Workspaced(base, 0, wss).value;
    if |base| > 0 {
      WorkspacedPerIndex(base, 0, wss, 0);
    }
    forall k | 0 <= k < |base|
      ensures w[k] == WithWorkspaces(base[k], wss(base[k].id).value)
    {
      WorkspacedPerIndex(base, 0, wss, k);
    }
    assert forall k :: 0 <= k < |w| ==> w[k].id == base[k].id;
    var r := Identified(w, 0, ids).value;
    if |base| > 0 {
      IdentifiedPerIndex(w, 0, ids, 0);
    }
    forall k | 0 <= k < |base|
      ensures r[k] == base[k].(workspaces := ResolvedWorkspaces(base[k], wss(base[k].id).value),
                               identities := ResolvedIdentities(base[k], ids(base[k].id).value))
    {
      IdentifiedPerIndex(w, 0, ids, k);
    }
  }

  /**
   * With a wildcard environment configured, the scope is exactly the inventory:
   * every inventory environment in order, with all of its workspaces and all of
   * its identity types' template ids.
   */
  lemma WildcardScope(p: PlainIDConfig, inv: seq<P.Environment>,
                      wss: string -> Result<seq<P.Workspace>>, ids: string -> Result<seq<P.Identity>>)
    requires HasWildcardEnvironment(p)
    requires forall k :: 0 <= k < |inv| ==> wss(inv[k].id).Ok? && ids(inv[k].id).Ok?
    ensures Resolve(p, Ok(inv), wss, ids).Ok?
    ensures var r := Resolve(p, Ok(inv), wss, ids).value;
      |r| == |inv| &&
      forall k :: 0 <= k < |inv| ==>
        r[k].id == inv[k].id && r[k].name == inv[k].name &&
        r[k].workspaces == AllWorkspaces(wss(inv[k].id).value) &&
        r[k].identities == TemplateIDs(ids(inv[k].id).value)
  {
    ResolveOk(p, Ok(inv), wss, ids);
    ResolvePerEnv(p, Ok(inv), wss, ids);
    var base := BaseEnvs(p, inv);
    assert base == WildcardEnvs(inv);
    var r := Resolve(p, Ok(inv), wss, ids).value;
    forall k | 0 <= k < |inv|
      ensures r[k].id == inv[k].id && r[k].name == inv[k].name
      ensures r[k].workspaces == AllWorkspaces(wss(inv[k].id).value)
      ensures r[k].identities == TemplateIDs(ids(inv[k].id).value)
    {
      assert base[k].workspaces[0].id == Wildcard;
      assert base[k].identities[0] == Wildcard;
      assert HasWildcardWorkspace(base[k]) && HasWildcardIdentities(base[k]);
      assert r[k] == base[k].(workspaces := ResolvedWorkspaces(base[k], wss(base[k].id).value),
                              identities := ResolvedIdentities(base[k], ids(base[k].id).value));
    }
  }

  // ---------------------------------------------------------------------------
  // The resolver's loops

  /** The wildcard branch: one entry per inventory environment. */
  method ExpandEnvironments(inv: seq<P.Environment>) returns (cfgEnvs: seq<Environment>)
    ensures cfgEnvs == WildcardEnvs(inv)
  {
    cfgEnvs := [];
    for i := 0 to |inv|
      invariant cfgEnvs == WildcardEnvs(inv[..i])
    {
      assert inv[..i + 1][..i] == inv[..i];
      cfgEnvs := cfgEnvs + [Expanded(inv[i])];
    }
    assert inv[..|inv|] == inv;
  }

  /** The concrete branch: each configured environment, renamed after its first inventory match; `break` ends only the inner search. */
  method MatchEnvironments(cfgs: seq<Environment>, inv: seq<P.Environment>) returns (cfgEnvs: seq<Environment>)
    ensures cfgEnvs == MatchEnvs(cfgs, inv)
  {
    cfgEnvs := [];
    for i := 0 to |cfgs|
      invariant cfgEnvs == MatchEnvs(cfgs[..i], inv)
    {
      var configEnv := cfgs[i];
      assert cfgs[..i + 1][..i] == cfgs[..i] && cfgs[..i + 1][i] == configEnv;
      var j := 0;
      while j < |inv|
        invariant 0 <= j <= |inv|
        invariant forall m :: 0 <= m < j ==> inv[m].id != configEnv.id
      {
        if configEnv.id == inv[j].id {
          cfgEnvs := cfgEnvs + [configEnv.(name := inv[j].name)];
          break;
        }
        j := j + 1;
      }
    }
    assert cfgs[..|cfgs|] == cfgs;
  }

  /** The wildcard branch for workspaces: every inventory workspace. */
  method CopyWorkspaces(wss: seq<P.Workspace>) returns (newWSs: seq<Workspace>)
    ensures newWSs == AllWorkspaces(wss)
  {
    newWSs := [];
    for i := 0 to |wss|
      invariant newWSs == AllWorkspaces(wss[..i])
    {
      assert wss[..i + 1][..i] == wss[..i];
      newWSs := newWSs + [Workspace(wss[i].id, wss[i].name)];
    }
    assert wss[..|wss|] == wss;
  }

  /** The concrete branch for workspaces: each configured one, renamed after its first inventory match. */
  method MatchConfiguredWorkspaces(cfgs: seq<Workspace>, wss: seq<P.Workspace>) returns (newWSs: seq<Workspace>)
    ensures newWSs == MatchWorkspaces(cfgs, wss)
  {
    newWSs := [];
    for i := 0 to |cfgs|
      invariant newWSs == MatchWorkspaces(cfgs[..i], wss)
    {
      var configWs := cfgs[i];
      assert cfgs[..i + 1][..i] == cfgs[..i] && cfgs[..i + 1][i] == configWs;
      var j := 0;
      while j < |wss|
        invariant 0 <= j <= |wss|
        invariant forall m :: 0 <= m < j ==> wss[m].id != configWs.id
      {
        if configWs.id == wss[j].id {
          newWSs := newWSs + [configWs.(name := wss[j].name)];
          break;
        }
        j := j + 1;
      }
    }
    assert cfgs[..|cfgs|] == cfgs;
  }

  /** One environment's workspaces: all of the inventory under a wildcard, else the configured ones it knows. */
  method ResolveWorkspaces(e: Environment, wss: seq<P.Workspace>) returns (newWSs: seq<Workspace>)
    ensures newWSs == ResolvedWorkspaces(e, wss)
  {
    if HasWildcardWorkspace(e) {
      newWSs := CopyWorkspaces(wss);
    } else {
      newWSs := MatchConfiguredWorkspaces(e.workspaces, wss);
    }
  }

  /** The template ids of an environment's inventory identities, in order. */
  method CollectTemplateIDs(ids: seq<P.Identity>) returns (newIdentities: seq<string>)
    ensures newIdentities == TemplateIDs(ids)
  {
    newIdentities := [];
    for i := 0 to |ids|
      invariant newIdentities == TemplateIDs(ids[..i])
    {
      assert ids[..i + 1][..i] == ids[..i];
      newIdentities := newIdentities + [ids[i].templateId];
    }
    assert ids[..|ids|] == ids;
  }

  /** The workspace loop of the resolver: fetch each environment's workspaces and resolve them in place. */
  method WorkspacePass(envs: seq<Environment>, wss: string -> Result<seq<P.Workspace>>) returns (r: Result<seq<Environment>>)
    ensures r == Workspaced(envs, 0, wss)
  {
    var cfgEnvs := envs;
    for i := 0 to |cfgEnvs|
      invariant |cfgEnvs| == |envs|
      invariant Workspaced(envs, 0, wss) == Workspaced(cfgEnvs, i, wss)
    {
      var found := wss(cfgEnvs[i].id);
      if found.Err? {
        assert Workspaced(cfgEnvs, i, wss) == Err(WorkspacesError(cfgEnvs[i].id, found.error));
        return Err(WorkspacesError(cfgEnvs[i].id, found.error));
      }
      var newWSs := ResolveWorkspaces(cfgEnvs[i], found.value);
      cfgEnvs := cfgEnvs[i := cfgEnvs[i].(workspaces := newWSs)];
    }
    return Ok(cfgEnvs);
  }

  /** The identity loop of the resolver: fetch each environment's identities and replace its list under a wildcard. */
  method IdentityPass(envs: seq<Environment>, ids: string -> Result<seq<P.Identity>>) returns (r: Result<seq<Environment>>)
    ensures r == Identified(envs, 0, ids)
  {
    var cfgEnvs := envs;
    for i := 0 to |cfgEnvs|
      invariant |cfgEnvs| == |envs|
      invariant Identified(envs, 0, ids) == Identified(cfgEnvs, i, ids)
    {
      var found := ids(cfgEnvs[i].id);
      if found.Err? {
        assert Identified(cfgEnvs, i, ids) == Err(IdentitiesError(cfgEnvs[i].id, found.error));
        return Err(IdentitiesError(cfgEnvs[i].id, found.error));
      }
      var e := cfgEnvs[i];
      if HasWildcardIdentities(e) {
        var newIdentities := CollectTemplateIDs(found.value);
        e := e.(identities := newIdentities);
      }
      assert e == WithIdentities(cfgEnvs[i], found.value);
      assert Identified(cfgEnvs, i, ids) == Identified(cfgEnvs[i := e], i + 1, ids);
      cfgEnvs := cfgEnvs[i := e];
    }
    return Ok(cfgEnvs);
  }

  /** The configuration the commands run with, which the resolver replaces in place. */
  class Session {
    var cfg: Config

    constructor (loaded: Config)
      ensures cfg == loaded
    {
      cfg := loaded;
    }

    /**
     * rootCmd.PersistentPreRunE after the configuration is loaded: resolves the
     * scope against the inventory and overwrites the configured environments with
     * it. Any inventory error returns before the overwrite, leaving the
     * configuration as it was.
     */
    method PersistentPreRun(envs: Result<seq<P.Environment>>,
                            wss: string -> Result<seq<P.Workspace>>, ids: string -> Result<seq<P.Identity>>)
      returns (err: Option<string>)
      modifies this
      ensures err.Some? <==> Resolve(old(cfg).plainId, envs, wss, ids).Err?
      ensures err.Some? ==> cfg == old(cfg)
      ensures err.None? ==> cfg == old(cfg).(plainId := old(cfg).plainId.(envs := Resolve(old(cfg).plainId, envs, wss, ids).value))
    {
      if envs.Err? {
        return Some(EnvironmentsError(envs.error));
      }
      var inv := envs.value;
      var cfgEnvs: seq<Environment>;
      if HasWildcardEnvironment(cfg.plainId) {
        cfgEnvs := ExpandEnvironments(inv);
      } else {
        cfgEnvs := MatchEnvironments(cfg.plainId.envs, inv);
      }
      var workspaced := WorkspacePass(cfgEnvs, wss);
      if workspaced.Err? {
        return Some(workspaced.error);
      }
      var identified := IdentityPass(workspaced.value, ids);
      if identified.Err? {
        return Some(identified.error);
      }
      cfgEnvs := identified.value;
      cfg := cfg.(plainId := cfg.plainId.(envs := cfgEnvs));
      return None;
    }
  }
}
