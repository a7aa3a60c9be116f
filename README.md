# PlainID git-backup, modelled in Dafny

git-backup copies the configuration of a PlainID tenant into a git repository and versions it with tags. This project models its core and proves properties of that model:

- **Scope.** The configured environments, workspaces and identity types are checked for completeness (`config/config.go`). They are then resolved against the live inventory, with wildcards expanded and unknown ids dropped (`cmd/root.go`).
- **Backup.** The `backup` command writes, per environment, a directory `<name>_<id>` holding identity templates and PAA groups. Inside it goes one directory per workspace, holding asset templates and one sub-directory per application. The command builds the commit message, then commits, tags with a `YYYYMMDD-HHMMSS` stamp and pushes (`cmd/backup.go`).
- **List.** The `list` command reads the tags named in that layout, filters them by environment and workspace, extracts the ids their messages name, and shows the newest ten (`cmd/list.go`).
- **Restore.** The `restore` command validates its flags. It then copies either the whole checked-out tag or one workspace directory plus its environment's files into a target directory (`cmd/restore.go`).
- **Service.** On the PlainID service side, the model covers the paged application listing, the inactive-policy filter, the asset-template projection and the attachment of PAA sources and views (`plainid/plainid-service.go`).

Modules, one per file:

| file | module | models |
|---|---|---|
| wrappers.dfy | Wrappers | `Option`, `Result` |
| text.dfy | Text | `strings.Split`, `strings.Join`, `TrimPrefix`, `HasPrefix`, `Contains`, `%d` |
| seqs.dfy | Seqs | first-match search over a sequence |
| config.dfy | Config | `config/config.go` |
| plainid.dfy | PlainID | `plainid/plainid-service.go` |
| fs.dfy | FS | the file tree that `os.MkdirAll`, `os.WriteFile`, `os.Remove`, `os.RemoveAll` and `os.ReadDir` act on |
| stamp.dfy | Stamp | the Go time layout `20060102-150405` |
| scope.dfy | Scope | `rootCmd.PersistentPreRunE` |
| backup.dfy | Backup | `cmd/backup.go` |
| catalog.dfy | Catalog | `cmd/list.go` |
| restore.dfy | Restore | `cmd/restore.go` |

How the model is built:

- **File tree.** The tree is the class `FS.FileSystem`, with `files: map<Path, string>` and `dirs: set<Path>`. A path is a sequence of name components. Each imperative loop of the Go code is a Dafny method that changes this tree in place. Each method is proved against a recursive function over a snapshot of the tree: `Reached(err, fs.Snapshot(), F(old(fs.Snapshot()), ...))` says that on success the tree is exactly what `F` computes, and on failure the same error is returned. The lemmas then state what `F` leaves in the tree.
- **Service answers.** PlainID replies and go-git calls are parameters: functions from request to reply, or a `Service` record of such functions. The git calls after the files are written are returned as a trace of `GitAction` values.

## Model

| member | source | states |
|---|---|---|
| Config.HasWildcardWorkspace | config/config.go:35-42 | true iff some workspace id is exactly `*` |
| Config.ContainsWorkspace | config/config.go:46-53 | true iff some workspace has the id or `*`; a wildcard workspace contains every id |
| Config.HasWildcardIdentities | cmd/root.go:104 | true iff some configured identity type is exactly `*` (assumed test, see Left out) |
| Config.HasWildcardEnvironment | config/config.go:70-77 | true iff some environment id is exactly `*` |
| Config.ContainsEnvironment | config/config.go:81-92 | true iff a wildcard environment exists or some environment has the id |
| Config.FindEnvironment | config/config.go:95-113 | first environment with the exact id; only when none has it, the first wildcard environment; found exactly when ContainsEnvironment holds |
| Config.CredentialFields | config/config.go:188-205 | the six credential checks never report a per-environment field nor the environment list |
| Config.ValidateConfig | config/config.go:185-233 | no error iff the configuration is complete; otherwise the message lists the missing fields in the fixed order |
| Config.EnvironmentFields | config/config.go:212-220 | the per-environment loop yields the reported fields of all environments, in index order |
| Config.EnvFieldsEmpty | config/config.go:212-220 | no per-environment field is reported iff every environment has an id and has workspaces or is a wildcard |
| Config.MissingFieldsEmptyIffComplete | config/config.go:228-232 | the missing list is empty iff every required value is present |
| Config.EnvIdReported | config/config.go:213-215 | `plainid.envs[k].id` is reported iff environment k exists and its id is empty |
| Config.EnvWorkspacesReported | config/config.go:217-219 | `plainid.envs[k].workspaces` is reported iff environment k has no workspaces and is not a wildcard |
| Config.EnvsNotReported | config/config.go:212-220 | the per-environment loop never reports `plainid.envs` itself |
| Config.EnvFieldsAtMembers | config/config.go:213-219 | one environment reports its own id and workspaces fields and no other index |
| Config.MissingEnvFields | config/config.go:207-221 | an empty list reports `plainid.envs` and no per-environment field; otherwise each environment's fields are reported exactly for its own gaps |
| Text.TrimPrefix | cmd/list.go:110 | with the prefix present, prefix plus result is the input; otherwise the input is unchanged |
| Text.Split | cmd/list.go:107 | at least one part, none containing the separator |
| Text.SplitWithoutSeparator | cmd/list.go:107 | a text without the separator splits into itself |
| Text.SplitAround | cmd/list.go:107 | splitting `a + sep + b` is splitting `a` followed by splitting `b` |
| Text.Join | cmd/list.go:122-123 | joining nothing is empty and joining one part is that part |
| Text.JoinSplit | cmd/list.go:107 | joining the parts of a split with the separator gives back the text |
| Text.SplitJoin | cmd/list.go:122-123 | splitting a join of separator-free parts gives back the parts |
| Text.NatToString | cmd/backup.go:211 | decimal digits without leading zero whose value is the number |
| Stamp.FormatStamp | cmd/backup.go:55 | 15 characters, a dash at index 8 and digits elsewhere |
| Stamp.ParseStamp | cmd/list.go:81 | accepts only names of the layout's shape, and what it yields is a valid date and time |
| Stamp.ParseFormat | cmd/list.go:81 | parsing the stamp a backup formats gives back its time |
| Stamp.FormatParse | cmd/list.go:81 | a name the modelled parser accepts is exactly the stamp of its time, so formatting and parsing are inverse on stamp-shaped names |
| Stamp.KeyInjective | cmd/list.go:134-136 | distinct valid times have distinct sort keys |
| Stamp.AfterIsLater | cmd/list.go:134-136 | key order coincides with chronological (year, month, ..., second) order |
| PlainID.Receive | plainid/plainid-service.go:501-532 | a reply is accepted iff it has status 200 and decodes; a non-200 status is an error |
| PlainID.InWorkspace | plainid/plainid-service.go:250-255 | keeps exactly the infos whose workspace is the requested one |
| PlainID.InWorkspaceAppend | plainid/plainid-service.go:250-255 | filtering distributes over concatenation of pages |
| PlainID.CollectedFiltersListing | plainid/plainid-service.go:216-263 | the kept infos are the whole listing filtered by workspace, and fail exactly when it fails |
| PlainID.OffsetsArePages | plainid/plainid-service.go:212-263 | requests go to offsets 0, 50, 100, ...; beyond the first, each request is below the reported total |
| PlainID.PageStep | plainid/plainid-service.go:251-262 | one page either ends the loop (error, short page or total reached) or moves to offset+50 with less remaining |
| PlainID.ListAppInfos | plainid/plainid-service.go:212-263 | the listing loop returns the infos of the workspace across all pages and requests exactly the offsets above |
| PlainID.FetchDetails | plainid/plainid-service.go:266-303 | the details loop returns the details of each kept info in order |
| PlainID.DetailsPerInfo | plainid/plainid-service.go:266-303 | succeeds iff every detail fetch does; then one application per info, in order, with the info's workspace id |
| PlainID.Applications | plainid/plainid-service.go:198-306 | the listing followed by the details fetch, with the requested offsets |
| PlainID.Active | plainid/plainid-service.go:339-342 | keeps exactly the policies whose state is not `Inactive` |
| PlainID.ActiveStep | plainid/plainid-service.go:339-342 | one more policy adds itself to the active list unless it is inactive |
| PlainID.ActiveAppend | plainid/plainid-service.go:339-342 | the filter distributes over concatenation |
| PlainID.AppPolicies | plainid/plainid-service.go:309-369 | the method follows the code as written, including the lost decode error |
| PlainID.BodiesOfActive | plainid/plainid-service.go:339-367 | succeeds iff every active policy's body is fetched; then the bodies in list order |
| PlainID.PoliciesReportDecodeError | plainid/plainid-service.go:334-368 | the corrected call fails on an undecodable list and agrees with the code otherwise |
| PlainID.DecodeErrorMasked | plainid/plainid-service.go:345 | a list with a decode error and one active policy succeeds as written and fails when corrected |
| PlainID.AssetTemplateIDs | plainid/plainid-service.go:396-439 | succeeds iff the reply is accepted; then the externalId of each asset type, in order |
| PlainID.PAAGroups | plainid/plainid-service.go:534-580 | a list error is returned as `failed to fetch PAA groups for <env>: <cause>`; otherwise the groups with sources and views attached, a failed source or view fetch wrapped with the group's id |
| PlainID.AttachedPerIndex | plainid/plainid-service.go:547-579 | succeeds iff every source and view fetch does; groups keep count and order, and group k gets the sources and views of its own id |
| Scope.WildcardEnvs | cmd/root.go:43-52 | one entry per inventory environment, same id and name, workspaces `[*]`, identities `[*]` |
| Scope.LookupEnv | cmd/root.go:55-61 | the first inventory environment with the id |
| Scope.MatchEnvsAppend | cmd/root.go:54-63 | matching distributes over concatenation of configured environments |
| Scope.MatchEnvsSound | cmd/root.go:53-64 | every resolved environment is a configured one with a matching inventory id and that inventory name |
| Scope.MatchEnvsComplete | cmd/root.go:53-64 | every configured environment whose id is in the inventory is resolved, with the inventory name |
| Scope.ListedTwiceResolvedTwice | cmd/root.go:54-62 | an id configured twice is resolved twice |
| Scope.AllWorkspaces | cmd/root.go:74-80 | exactly the inventory workspaces, ids and names, in inventory order |
| Scope.LookupWorkspace | cmd/root.go:83-89 | the first inventory workspace with the id |
| Scope.MatchWorkspacesSound | cmd/root.go:81-92 | every resolved workspace is a configured one found in the inventory, with the inventory name |
| Scope.MatchWorkspacesComplete | cmd/root.go:81-92 | every configured workspace found in the inventory is resolved |
| Scope.TemplateIDs | cmd/root.go:105-107 | the template id of each inventory identity, in order |
| Scope.WorkspacedOk | cmd/root.go:67-94 | the workspace pass succeeds iff every environment's workspace fetch does |
| Scope.WorkspacedPerIndex | cmd/root.go:67-94 | after the pass, environment k has its workspaces resolved from its own fetch, and nothing else changes |
| Scope.IdentifiedOk | cmd/root.go:97-110 | the identity pass succeeds iff every environment's identity fetch does |
| Scope.IdentifiedPerIndex | cmd/root.go:97-110 | after the pass, environment k has its identities resolved from its own fetch, and nothing else changes |
| Scope.WorkspacedError | cmd/root.go:67-71 | a failed workspace pass reports the first environment whose fetch failed, as `failed to get workspaces for environment <id>: <cause>` |
| Scope.IdentifiedError | cmd/root.go:97-101 | a failed identity pass reports the first environment whose fetch failed, as `failed to get identities for environment <id>: <cause>` |
| Scope.ResolveError | cmd/root.go:35-101 | a failed environment list is reported as `failed to get environments for whildcard setup: <cause>`; any other failure is the wrapped workspace or identity error of one of the environments being resolved |
| Scope.ResolveOk | cmd/root.go:36-112 | resolution succeeds iff the environment list and every workspace and identity fetch succeed |
| Scope.ResolvePerEnv | cmd/root.go:41-110 | each resolved environment is its starting entry with workspaces and identities resolved from its own fetches |
| Scope.WildcardScope | cmd/root.go:43-109 | with a wildcard environment, the scope is the whole inventory with all workspaces and all template ids |
| Scope.ExpandEnvironments | cmd/root.go:43-52 | the wildcard loop builds the wildcard entries |
| Scope.MatchEnvironments | cmd/root.go:53-64 | the nested loop with `break` builds the matched entries |
| Scope.CopyWorkspaces | cmd/root.go:74-80 | the wildcard-workspace loop copies every inventory workspace |
| Scope.MatchConfiguredWorkspaces | cmd/root.go:81-92 | the nested loop with `break` keeps the configured workspaces found in the inventory |
| Scope.ResolveWorkspaces | cmd/root.go:73-93 | under a wildcard workspace all inventory workspaces, otherwise the configured ones found in the inventory |
| Scope.CollectTemplateIDs | cmd/root.go:103-107 | the identity loop collects the template ids |
| Scope.WorkspacePass | cmd/root.go:67-94 | the first loop over the resolved environments, stopping at the first fetch error with the environment's context |
| Scope.IdentityPass | cmd/root.go:97-110 | the second loop, which replaces identities only under a wildcard |
| Scope.Session.PersistentPreRun | cmd/root.go:36-113 | fails iff resolution fails, leaving the configuration unchanged; otherwise only the environments are replaced, by the resolved scope |
| FS.MkdirAllF | cmd/backup.go:65-67 | fails iff a file lies on the path; otherwise adds the path and all its parents, keeping files |
| FS.WriteFileF | cmd/backup.go:211-214 | succeeds iff the parent directory exists and the path is not a directory; then only that file's content changes |
| FS.RemoveF | cmd/backup.go:326-328 | succeeds iff the file exists; removes only it |
| FS.RemoveAllF | cmd/backup.go:87-90 | removes every file and directory at or below the path and nothing else |
| FS.FileSystem.MkdirAll | cmd/backup.go:65-67 | the tree becomes MkdirAllF's result, or is unchanged with an error |
| FS.FileSystem.WriteFile | cmd/backup.go:212 | the tree becomes WriteFileF's result, or is unchanged with an error |
| FS.FileSystem.Remove | cmd/backup.go:326 | the tree becomes RemoveF's result, or is unchanged with an error |
| FS.FileSystem.RemoveAll | cmd/backup.go:87 | the tree becomes RemoveAllF's result |
| FS.FileSystem.ReadDir | cmd/backup.go:308-315 | fails iff the path is not a directory (not-exist vs not-a-directory); otherwise each child name exactly once |
| Backup.NatToStringInjective | cmd/backup.go:211 | distinct indices print differently |
| Backup.AssetTemplateFileInjective | cmd/backup.go:211 | `asset-template_<i>.json` names are distinct for distinct i |
| Backup.PolicyFileInjective | cmd/backup.go:246 | `policy_<i>.srego` names are distinct for distinct i |
| Backup.PolicyFileNames | cmd/backup.go:231-256 | no policy file is named `application.json` or `api-mapper-set.json` |
| Backup.IdentityTemplateFileInjective | cmd/backup.go:279 | identity template names are distinct for distinct identities |
| Backup.IdentityNotGroup | cmd/backup.go:279-293 | no identity template file is named like a PAA group file |
| Backup.RemoveFilesOnlyF | cmd/backup.go:306-333 | fails only when the path is a file; otherwise removes every file at any depth below the directory, keeps every directory and every other file (a missing directory is no error) |
| Backup.VisitedAll | cmd/backup.go:317-330 | visiting every entry the directory lists removes exactly the files below it |
| Backup.RemoveFilesOnly | cmd/backup.go:306-333 | the recursive method reaches RemoveFilesOnlyF's result or its error |
| Backup.WriteTemplates | cmd/backup.go:205-215 | the template loop writes each fetched template in order, stopping at the first failure |
| Backup.WritePolicies | cmd/backup.go:245-250 | the policy loop writes each policy in order, stopping at the first failure |
| Backup.FetchApplication | cmd/backup.go:224-259 | one application: its directory, application.json, its policies and api-mapper-set.json, in that order |
| Backup.WriteApps | cmd/backup.go:223-260 | the application loop, stopping at the first failure |
| Backup.FetchWsStuff | cmd/backup.go:194-262 | fetchPlainIDWSStuff reaches WsStuff's result, including the not-found error after the templates |
| Backup.WriteIdentityTemplates | cmd/backup.go:274-283 | the identity loop writes each identity's template, stopping at the first failure |
| Backup.WriteGroups | cmd/backup.go:291-302 | the PAA group loop writes each group's JSON, stopping at the first failure |
| Backup.FetchEnvStuff | cmd/backup.go:264-305 | fetchPlainIDEnvStuff reaches EnvStuff's result, including the not-found error first |
| Backup.BackupWorkspaces | cmd/backup.go:80-101 | each workspace is emptied, recreated and filled, and the message gains ` env:<envID> ws:<wsID>` per workspace |
| Backup.BackupEnvironment | cmd/backup.go:58-101 | one environment: directory created, files removed, environment files written, then its workspaces |
| Backup.BackupEnvironments | cmd/backup.go:56-102 | the environment loop; on success the commit message is the prefix followed by every entry in environment-then-workspace order |
| Backup.CommitAndTag | cmd/backup.go:104-186 | the git operations are issued in GitActions' order |
| Backup.GitTrace | cmd/backup.go:104-186 | stage and commit first; branch set iff HEAD was missing; tag message `Backup tag for <msg>`; a dry run ends at the tag; otherwise exactly one push, last, of branch and tag, forced for a new repository |
| Backup.Backup | cmd/backup.go:54-190 | the tree reaches Environments' result; any failure stops before every git operation; on success the trace is GitActions for the commit message and the time's stamp |
| Backup.TemplatesWritten | cmd/backup.go:205-215 | the template loop adds exactly `asset-template_<k>.json` with the k-th template, and changes no other file and no directory |
| Backup.PolicyFilesWritten | cmd/backup.go:245-250 | the policy loop adds exactly `policy_<k>.srego` with the k-th policy, and changes no other file and no directory |
| Backup.AppFilesWritten | cmd/backup.go:223-259 | an application adds its directory and exactly its files, with the JSON, each policy and the API mapper set as contents |
| Backup.AppsPathsDepth | cmd/backup.go:224 | every application file lies two levels below the workspace directory |
| Backup.AppsFilesWritten | cmd/backup.go:223-260 | the application loop adds exactly the applications' files and changes no other file |
| Backup.WsStuffWritten | cmd/backup.go:194-262 | success needs the listings and the configured environment; the workspace gains exactly the template and application files, with templates' contents, and no other file changes |
| Backup.WorkspaceRefreshed | cmd/backup.go:85-98 | after RemoveAll, MkdirAll and the fetch, the workspace directory holds exactly the files just written, and nothing outside it changes |
| Backup.IdentityFilesWritten | cmd/backup.go:274-283 | the identity loop adds exactly the identity template files and changes no other file and no directory |
| Backup.IdentityFilesContent | cmd/backup.go:274-283 | each identity's template file holds the template fetched for it |
| Backup.GroupFilesWritten | cmd/backup.go:291-302 | the group loop adds exactly `paa-group_<id>.json` per group and changes no other file and no directory |
| Backup.EnvStuffWritten | cmd/backup.go:264-305 | success needs the configured environment; the directory gains exactly identity and group files, identities with their templates |
| Backup.EnvDirRefreshed | cmd/backup.go:62-78 | after MkdirAll, removeFilesOnly and the fetch, the files below the environment directory are exactly its identity and group files; sub-directories are kept, and nothing outside it changes |
| Catalog.EnvIds | cmd/list.go:108-111 | at most one id per token |
| Catalog.WsIds | cmd/list.go:108-113 | at most one id per token |
| Catalog.ParseIds | cmd/list.go:106-114 | the token loop returns the `env:` ids and the other `ws:` ids, prefix removed, in message order |
| Catalog.CollectTags | cmd/list.go:77-127 | the ForEach callback builds the collected entries in iteration order |
| Catalog.ListedYields | cmd/list.go:80-124 | a tag contributes an entry iff its name parses, the filter keeps its message, and the entry carries its name, ids, time and message |
| Catalog.CollectedSound | cmd/list.go:77-127 | every collected entry comes from some tag that yields it |
| Catalog.CollectedComplete | cmd/list.go:77-127 | every entry some tag yields is collected |
| Catalog.CollectedMembers | cmd/list.go:77-127 | an entry is collected iff some tag yields it |
| Catalog.SelectedBySubstrings | cmd/list.go:95-102 | the filter matches `env:E` and `ws:W` anywhere and independently, so `env:E1` also matches E |
| Catalog.Insert | cmd/list.go:134-136 | inserting into a newest-first list keeps it newest first and adds exactly the entry |
| Catalog.SortNewestFirst | cmd/list.go:133-136 | the result is newest first and a permutation of the input |
| Catalog.NewestPrefix | cmd/list.go:157-163 | a prefix of a newest-first list is newest first, and nothing left out is newer than anything kept |
| Catalog.List | cmd/list.go:76-163 | shows min(10, n) entries, newest first, drawn from the collected ones, and none left out is newer than one shown |
| Catalog.EnvIdsAppend | cmd/list.go:108-113 | id extraction distributes over concatenation of token lists |
| Catalog.IdsOfWsTokens | cmd/backup.go:100 | the tokens of one environment's entries name that environment once per workspace, and each workspace |
| Catalog.SplitWsEntries | cmd/backup.go:100 | with space-free ids, an environment's entries split into its `env:`/`ws:` tokens |
| Catalog.SplitEnvEntries | cmd/backup.go:80-101 | with space-free ids, all entries split into their tokens in order |
| Catalog.IdsOfEnvTokens | cmd/backup.go:80-101 | those tokens name the environment ids (repeated per workspace) and the workspace ids, in order |
| Catalog.HeaderNamesNoIds | cmd/backup.go:157 | the fixed words of the tag message name no id |
| Catalog.TagMessageParts | cmd/backup.go:157 | the tag message is the fixed header followed by the entries |
| Catalog.TokensAfter | cmd/list.go:107-114 | after a header that names no id, the ids found are exactly the entries' ids |
| Catalog.RoundTrip | cmd/list.go:107-114 | tokenising the tag message of a backup recovers its environment and workspace id sequences, given space-free ids |
| Restore.ValidateFlags | cmd/restore.go:31-51 | each error iff its check is the first to fail, in the order tag/target, dry run, env/ws pair; none iff all pass |
| Restore.MatchFromFirst | cmd/restore.go:219-223 | the loop returns the first workspace that matches, and none iff none matches |
| Restore.FindWorkspaceFirstMatch | cmd/restore.go:210-233 | nothing for an unconfigured environment; otherwise the first matching workspace, found iff one matches |
| Restore.WildcardFallbackUnreachable | cmd/restore.go:219-229 | if the loop finds nothing there is no wildcard workspace, so the fallback never runs |
| Restore.MatchFromIgnoresName | cmd/restore.go:219-223 | with a non-empty id the loop's result does not depend on the directory name |
| Restore.ConfiguredIdMatchesAnyName | cmd/restore.go:210-223 | with the id configured, every directory name is accepted, with the same answer |
| Restore.CopyFileF | cmd/restore.go:236-267 | succeeds iff no file lies on the destination's parents and it is not a directory; then sets that file and creates its parents |
| Restore.CopyFile | cmd/restore.go:236-267 | the method reaches CopyFileF's result or its error |
| Restore.CopyDir | cmd/restore.go:270-301 | the recursive method reaches CopyDirF's result or its error |
| Restore.CopyDirAt | cmd/restore.go:270-301 | after a successful copy, each path holds the copied content if the source has a file there, and otherwise its old content |
| Restore.CopyEntriesAt | cmd/restore.go:285-298 | the same for the entries from index i on, later entries winning |
| Restore.FileCopiedAt | cmd/restore.go:236-267 | a file copy changes only its destination |
| Restore.CopyDirContents | cmd/restore.go:270-301 | copyDir overlays the source tree on the destination: copied files, other files untouched |
| Restore.WsDirFrom | cmd/restore.go:96-115 | any index returned is a directory that findWorkspaceByNameOrID accepts |
| Restore.WsDirIn | cmd/restore.go:96-115 | the same over all entries |
| Restore.SearchFrom | cmd/restore.go:86-141 | any result is an environment directory with an accepted workspace directory |
| Restore.Selection | cmd/restore.go:79-145 | the same from the first top-level entry |
| Restore.WsDirFromFirst | cmd/restore.go:96-115 | the inner loop picks the first accepted directory, and none iff none is accepted |
| Restore.SearchFromFirst | cmd/restore.go:86-141 | the outer loop passes over environment directories without a match and stops at the first with one |
| Restore.SelectionIsFirst | cmd/restore.go:79-145 | the chosen pair is the first `_<envID>` directory with an accepted workspace directory, and within it the first such directory |
| Restore.ConfiguredIdTakesFirstDir | cmd/restore.go:96-114 | with the workspace id configured, the first sub-directory is restored whatever its name |
| Restore.BackupEnvDirSelected | cmd/restore.go:87 | every `<name>_<id>` directory a backup writes passes the suffix test for its id |
| Restore.FilteredRestore | cmd/restore.go:75-145 | the filtered branch reaches FilteredF's result or its error |
| Restore.FirstWsDir | cmd/restore.go:96-116 | the inner loop's index equals WsDirIn |
| Restore.CopyEnvFiles | cmd/restore.go:119-136 | the environment-file loop copies each non-directory entry, stopping at the first failure |
| Restore.Restore | cmd/restore.go:52-170 | the run reaches RestoreF's result or its error |
| Restore.EnvFilesAt | cmd/restore.go:126-136 | each environment file lands directly in the target; other paths keep their content |
| Restore.UnfilteredRestoreContents | cmd/restore.go:146-153 | without a filter, the target is the checkout overlaid on it |
| Restore.FilteredRestoreContents | cmd/restore.go:75-145 | with a filter, success means a selection exists; the target gets the chosen workspace tree, then the environment's files, and nothing else changes |
| Restore.FilteredRestoreNotFound | cmd/restore.go:143-145 | the not-found error is returned iff no environment directory holds an accepted workspace directory |
| Restore.RestoreAsWrittenRestoresNothing | cmd/restore.go:65-70 | as written, a filtered restore always reports not found, and an unfiltered one succeeds without changing a file |
| Restore.RestoredFileLands | cmd/restore.go:147-152 | with the tag checked out, every file of the tag lands at the same relative path below the target with its content |

## Left out

- The PlainID client's own error texts are not modelled: its errors are abstract strings, and a reply with a status other than 200 gives `unexpected status` where Go reports the URL or id, the status line and the body (e.g. plainid/plainid-service.go:241,331,520). The contexts the model does keep are those of cmd/root.go, cmd/backup.go, cmd/restore.go and of PAAGroups (plainid/plainid-service.go:543,557,572).
- HTTP, JSON and OAuth are not modelled. Each reply is an abstract `Reply` (failed, or status plus decoded payload). JSON encoding of applications and PAA groups is a service parameter. The errors of the PlainID client and of `os` calls are abstract strings. A wrapped error is `context: cause`, with the context text the Go code gives `%w`.
- go-git calls are not modelled beyond their order. Clone, worktree, fetch and HEAD lookup are inputs (`headMissing`, the working tree as `fs`). Commit, tag and push become `GitAction` values, so a failure of any of them after the files are written is not modelled.
- `config.LoadConfig`, viper, flag registration and `homeDir` are left out. The loaded `Config` is an input.
- Logging, file permission bits and `defer` cleanup are left out. So are `repository.CreateTempDir` and `CleanupTempDir`.
- Service.Environments, Workspaces and Identities (the inventory fetches) are parameters returning `Result`. Their fixed `limit=100` pages are not modelled.
- PlainID.Applications: the total the listing reports is one fixed parameter for the whole loop. The code reads it from each page; the model needs a fixed total to prove termination.
- Path names are single components, so names containing `/` are not modelled, and neither are the names `""`, `.` and `..` (see the next lines). The order of `os.ReadDir` is the order of the modelled directory entries.
- BackupWorkspaces: each workspace name becomes one new path component below the environment directory. Go instead formats `envDir/<name>` (cmd/backup.go:85) with a name taken unchecked from the inventory (cmd/root.go:77,86). The model does not capture what Go does for three names:
  - `""`: `os.RemoveAll` deletes the environment directory itself, including the identity and group files already written (cmd/backup.go:75) and the workspaces backed up before.
  - `.`: `os.RemoveAll` fails, and the backup stops with "failed to remove workspace directory" (cmd/backup.go:87-90). The model has no such error branch, because FS.RemoveAllF never fails.
  - `..`: `os.RemoveAll` deletes the clone's working tree.
- WorkspaceRefreshed: "nothing outside the workspace directory changes" is proved only for the model's paths. For a workspace named `""` or `..`, Go changes files outside it (see BackupWorkspaces).
- AppsPathsDepth: "two levels below the workspace directory" is proved only for the model's paths. Go formats `wsDir/<name>` (cmd/backup.go:224), so an application named `""` or `.` has its files in the workspace directory itself, and one named `..` in the environment directory. FetchApplication, AppFilesWritten and AppsFilesWritten share this assumption.
- FS.RemoveAllF never fails. Errors `os.RemoveAll` can return (an invalid path such as one ending in `/.`, or an I/O error) are not modelled.
- Config.HasWildcardIdentities, `Environment.Identities` and `Identity.TemplateID` are used by `cmd/root.go:50,104,106` but declared in neither `config/config.go` nor `plainid/plainid-service.go`. They are modelled by analogy with HasWildcardWorkspace (an identity list containing `*`), as a `seq<string>` field and an inventory `templateId`.
- Stamp.ParseStamp models `time.Parse` with this one layout: 15 characters, digits, a dash at index 8, and range checks that include days per month and leap years. It does not accept the fractional-second suffix (`.` or `,` followed by digits, as in `20240101-120000.5`) that `time.Parse` allows after the seconds even though the layout has none. `list` would keep such a tag, and its nanoseconds would take part in the newest-first sort (cmd/list.go:81,134-136); backups never write one. Catalog.ListedYields and Stamp.FormatParse therefore describe this stricter parser. Time zones and the zero time are left out.
- Catalog.SortNewestFirst is an insertion sort on values. It proves the order and permutation that `sort.Slice` gives with this comparator; `sort.Slice` is not stable, and the model does not fix an order among equal times.
- The list command's printing, the `No backups found` branches and the display format are left out. The result is the sequence of entries shown. Fetching tags from the remote before listing is left out.
- The interactive branch of restore is modelled only as its error.
- Restore: errors from `os.ReadDir` on the scratch directory cannot arise in the model, because the checkout is a value, not a directory on disk.
- Restore.RestoreF takes the checked-out tree as a parameter (see Findings). `cloneAndCheckoutTag` (cmd/restore.go:173-207) is git I/O and is not part of this model.
- The dry-run branch at the end of restore only logs, so it is not modelled.
- PlainID.OffsetsArePages bounds the number of requests by the reported total, stated as `50 * (n - 1) < total - offset` when there is more than one request.

## Findings

| source | as written | input that shows it | evidently intended | confidence | as-written member | corrected member |
|---|---|---|---|---|---|---|
| plainid/plainid-service.go:335-368 | The decode error of the policy list is kept in `err`. `req, err = http.NewRequest` overwrites it with nil at the first active policy, and `return policies, err` then reports success. | A 200 reply whose body fills one active policy but fails to decode elsewhere (e.g. a mistyped `total`). | A list that does not decode is an error. | not executed | PlainID.DecodeErrorMasked (over PlainID.PoliciesAsWritten) | PlainID.PoliciesReportDecodeError (over PlainID.Policies, with PlainID.BodiesOfActive) |
| cmd/restore.go:65-70 | RunE creates an empty temporary directory and never calls `cloneAndCheckoutTag` (defined at line 174), so the copy reads an empty tree. | Any valid `--tag T --target-dir D`: unfiltered, nothing is restored; with `--env-id E --ws-id W`, "could not find configuration" always. | The tag is checked out into the temporary directory before copying. | not executed | Restore.RestoreAsWrittenRestoresNothing (over Restore.RestoreAsWritten) | Restore.RestoredFileLands (over Restore.RestoreF with the checked-out tree) |
