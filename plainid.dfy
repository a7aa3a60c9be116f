/**
 * The PlainID service calls the backup depends on (plainid/plainid-service.go):
 * the paged application listing, the inactive-policy filter, the asset template
 * projection and the attachment of sources and views to PAA groups. Each HTTP
 * exchange is an abstract `Reply`; its decoded payload stands for the JSON body.
 */
module PlainID {
  import opened Wrappers
  import opened Text

  /** http.StatusOK */
  const StatusOK := 200

  /**
   * The outcome of one request: `Failed` when building, sending or reading the
   * request failed; otherwise the status code and the decoded body, `None` when
   * the body does not decode.
   */
  datatype Reply<T> = Failed(reason: string) | Reply(status: int, decoded: Option<T>)

  /** Every endpoint rejects a non-200 status and an undecodable body. */
  function Receive<T>(r: Reply<T>): (res: Result<T>)
    ensures res.Ok? <==> r.Reply? && r.status == StatusOK && r.decoded.Some?
    ensures res.Ok? ==> res.value == r.decoded.value
    ensures r.Reply? && r.status != StatusOK ==> res == Err("unexpected status")
  {
    match r
    case Failed(reason) => Err(reason)
    case Reply(status, decoded) =>
      if status != StatusOK then Err("unexpected status")
      else if decoded.None? then Err("failed to parse response")
      else Ok(decoded.value)
  }

  // ---------------------------------------------------------------------------
  // Inventory: what Environments, Workspaces and Identities return

  datatype Environment = Environment(id: string, name: string)

  datatype Workspace = Workspace(id: string, name: string)

  /**
   * An identity type of an environment. `templateId` is the field the scope
   * resolver reads; it is not declared on the Go struct in plainid-service.go.
   */
  datatype Identity = Identity(id: string, name: string, templateId: string)

  // ---------------------------------------------------------------------------
  // Applications

  /** The page size the listing asks for. */
  const PageLimit := 50

  /** One entry of the application listing: its id, name and owning workspace (authWsId). */
  datatype AppInfo = AppInfo(id: string, name: string, wsId: string)

  /** An application's details; `wsId` is not part of the JSON and is filled in from the listing. */
  datatype Application = Application(
    wsId: string,
    id: string,
    name: string,
    description: string,
    logoUrl: string,
    colorIndication: string,
    assetTemplateIds: seq<string>)

  /** The page of the listing that the request with `offset` returns. */
  type Pages = nat -> Reply<seq<AppInfo>>

  /** The loop's exit test: a short page, or the reported total reached. */
  predicate LastPage(offset: nat, data: seq<AppInfo>, total: int) {
    |data| < PageLimit || offset + |data| >= total
  }

  /** Measure of the listing loop: how far the offset still is from the reported total. */
  function Remaining(offset: nat, total: int): nat {
    if offset < total then total - offset else 0
  }

  /** The infos of `data` that belong to workspace `wsID`, in page order. */
  function InWorkspace(data: seq<AppInfo>, wsID: string): (r: seq<AppInfo>)
    ensures forall x :: x in r <==> x in data && x.wsId == wsID
    ensures |r| <= |data|
  {
    if data == [] then []
    else (if data[0].wsId == wsID then [data[0]] else []) + InWorkspace(data[1..], wsID)
  }

  lemma {:induction false} InWorkspaceAppend(a: seq<AppInfo>, b: seq<AppInfo>, wsID: string)
    ensures InWorkspace(a + b, wsID) == InWorkspace(a, wsID) + InWorkspace(b, wsID)
  {
    if a == [] {
      assert a + b == b;
    } else {
      assert (a + b)[1..] == a[1..] + b;
      InWorkspaceAppend(a[1..], b, wsID);
    }
  }

  /** `acc` in front of a successful result; an error stays the error. */
  function Prepend<T>(acc: seq<T>, r: Result<seq<T>>): (res: Result<seq<T>>)
    ensures res.Ok? <==> r.Ok?
    ensures res.Ok? ==> res.value == acc + r.value
    ensures r.Err? ==> res == r
    ensures acc == [] ==> res == r
  {
    match r
    case Ok(v) => assert acc == [] ==> acc + v == v; Ok(acc + v)
    case Err(e) => Err(e)
  }

  lemma PrependTwice<T>(a: seq<T>, b: seq<T>, r: Result<seq<T>>)
    ensures Prepend(a, Prepend(b, r)) == Prepend(a + b, r)
  {
    if r.Ok? {
      assert a + (b + r.value) == (a + b) + r.value;
    }
  }

  /** Every info the listing returns from `offset` on, unfiltered, in page order. */
  function Listing(pages: Pages, total: int, offset: nat): Result<seq<AppInfo>>
    decreases Remaining(offset, total)
  {
    match Receive(pages(offset))
    case Err(e) => Err(e)
    case Ok(data) =>
      if LastPage(offset, data, total) then Ok(data)
      else Prepend(data, Listing(pages, total, offset + PageLimit))
  }

  /** The infos the listing loop keeps from `offset` on: those of workspace `wsID`. */
  function Collected(pages: Pages, total: int, wsID: string, offset: nat): Result<seq<AppInfo>>
    decreases Remaining(offset, total)
  {
    match Receive(pages(offset))
    case Err(e) => Err(e)
    case Ok(data) =>
      if LastPage(offset, data, total) then Ok(InWorkspace(data, wsID))
      else Prepend(InWorkspace(data, wsID), Collected(pages, total, wsID, offset + PageLimit))
  }

  /** The offsets the listing loop requests, starting at `offset`. */
  function Offsets(pages: Pages, total: int, offset: nat): seq<nat>
    decreases Remaining(offset, total)
  {
    match Receive(pages(offset))
    case Err(_) => [offset]
    case Ok(data) =>
      if LastPage(offset, data, total) then [offset]
      else [offset] + Offsets(pages, total, offset + PageLimit)
  }

  /** The kept infos are exactly the listing filtered by workspace, and fail exactly when it fails. */
  lemma {:induction false} CollectedFiltersListing(pages: Pages, total: int, wsID: string, offset: nat)
    ensures Collected(pages, total, wsID, offset).Ok? <==> Listing(pages, total, offset).Ok?
    ensures Collected(pages, total, wsID, offset).Ok? ==>
      Collected(pages, total, wsID, offset).value == InWorkspace(Listing(pages, total, offset).value, wsID)
    decreases Remaining(offset, total)
  {
    match Receive(pages(offset))
    case Err(_) =>
    case Ok(data) =>
      if !LastPage(offset, data, total) {
        CollectedFiltersListing(pages, total, wsID, offset + PageLimit);
        var rest := Listing(pages, total, offset + PageLimit);
        if rest.Ok? {
          InWorkspaceAppend(data, rest.value, wsID);
        }
      }
  }

  /**
   * The loop requests offsets `offset`, `offset + 50`, `offset + 100`, ... and, for a
   * fixed reported total, no more than max(1, ceil((total - offset) / 50)) of them.
   */
  lemma {:induction false} OffsetsArePages(pages: Pages, total: int, offset: nat)
    ensures |Offsets(pages, total, offset)| >= 1
    ensures forall k :: 0 <= k < |Offsets(pages, total, offset)| ==>
      Offsets(pages, total, offset)[k] == offset + PageLimit * k
    ensures |Offsets(pages, total, offset)| == 1 ||
      PageLimit * (|Offsets(pages, total, offset)| - 1) < total - offset
    decreases Remaining(offset, total)
  {
    match Receive(pages(offset))
    case Err(_) =>
    case Ok(data) =>
      if !LastPage(offset, data, total) {
        OffsetsArePages(pages, total, offset + PageLimit);
        var rest := Offsets(pages, total, offset + PageLimit);
        var r := Offsets(pages, total, offset);
        assert r == [offset] + rest;
        forall k | 0 <= k < |r|
          ensures r[k] == offset + PageLimit * k
        {
          if k > 0 {
            assert r[k] == rest[k - 1];
          }
        }
      }
  }

  /** Fetches the details of each kept info in order, stamping each with the info's workspace. */
  function Details(infos: seq<AppInfo>, details: string -> Reply<Application>): Result<seq<Application>>
  {
    if infos == [] then Ok([])
    else
      match Receive(details(infos[0].id))
      case Err(e) => Err(e)
      case Ok(app) => Prepend([app.(wsId := infos[0].wsId)], Details(infos[1..], details))
  }

  /** One application per info, in the same order, each carrying the info's workspace. */
  lemma {:induction false} DetailsPerInfo(infos: seq<AppInfo>, details: string -> Reply<Application>)
    ensures Details(infos, details).Ok? <==> forall k :: 0 <= k < |infos| ==> Receive(details(infos[k].id)).Ok?
    ensures Details(infos, details).Ok? ==>
      |Details(infos, details).value| == |infos| &&
      forall k :: 0 <= k < |infos| ==>
        Details(infos, details).value[k] == Receive(details(infos[k].id)).value.(wsId := infos[k].wsId)
  {
    if infos != [] {
      DetailsPerInfo(infos[1..], details);
      if Receive(details(infos[0].id)).Ok? && Details(infos[1..], details).Ok? {
        var r := Details(infos, details).value;
        forall k | 0 <= k < |infos|
          ensures r[k] == Receive(details(infos[k].id)).value.(wsId := infos[k].wsId)
        {
          if k > 0 {
            assert infos[k] == infos[1..][k - 1];
          }
        }
      }
      if forall k :: 0 <= k < |infos| ==> Receive(details(infos[k].id)).Ok? {
        assert Receive(details(infos[0].id)).Ok?;
        forall k | 0 <= k < |infos[1..]|
          ensures Receive(details(infos[1..][k].id)).Ok?
        {
          assert infos[1..][k] == infos[k + 1];
        }
      }
    }
  }

  function ApplicationsSpec(pages: Pages, total: int, details: string -> Reply<Application>, wsID: string): Result<seq<Application>>
  {
    match Collected(pages, total, wsID, 0)
    case Err(e) => Err(e)
    case Ok(infos) => Details(infos, details)
  }

  /**
   * Service.Applications: pages through the listing 50 at a time, keeping the
   * infos of workspace `wsID`, then fetches each kept application's details.
   * `total` is the total the listing reports; `requested` records the offsets asked for.
   */
  method Applications(pages: Pages, total: int, details: string -> Reply<Application>, wsID: string)
    returns (r: Result<seq<Application>>, ghost requested: seq<nat>)
    ensures r == ApplicationsSpec(pages, total, details, wsID)
    ensures requested == Offsets(pages, total, 0)
  {
    var appInfos;
    appInfos, requested := ListAppInfos(pages, total, wsID);
    if appInfos.Err? {
      return Err(appInfos.error), requested;
    }
    r := FetchDetails(appInfos.value, details);
  }

  /** The first loop of Service.Applications: the listing's pages from offset 0, filtered by workspace. */
  method ListAppInfos(pages: Pages, total: int, wsID: string)
    returns (r: Result<seq<AppInfo>>, ghost requested: seq<nat>)
    ensures r == Collected(pages, total, wsID, 0)
    ensures requested == Offsets(pages, total, 0)
  {
    var offset: nat := 0;
    var appInfos: seq<AppInfo> := [];
    requested := [];
    while true
      invariant Collected(pages, total, wsID, 0) == Prepend(appInfos, Collected(pages, total, wsID, offset))
      invariant Offsets(pages, total, 0) == requested + Offsets(pages, total, offset)
      decreases Remaining(offset, total)
    {
      var page := Receive(pages(offset));
      PageStep(pages, total, wsID, offset);
      if page.Err? {
        return Err(page.error), requested + [offset];
      }
      var data := page.value;
      var kept := InWorkspace(data, wsID);
      if LastPage(offset, data, total) {
        return Ok(appInfos + kept), requested + [offset];
      }
      PrependTwice(appInfos, kept, Collected(pages, total, wsID, offset + PageLimit));
      assert requested + ([offset] + Offsets(pages, total, offset + PageLimit)) == (requested + [offset]) + Offsets(pages, total, offset + PageLimit);
      requested := requested + [offset];
      appInfos := appInfos + kept;
      offset := offset + PageLimit;
    }
  }

  /** One request of the listing loop: what the page at `offset` contributes, and that the loop moves on. */
  lemma PageStep(pages: Pages, total: int, wsID: string, offset: nat)
    ensures Receive(pages(offset)).Err? ==>
      Collected(pages, total, wsID, offset) == Err(Receive(pages(offset)).error) &&
      Offsets(pages, total, offset) == [offset]
    ensures Receive(pages(offset)).Ok? && LastPage(offset, Receive(pages(offset)).value, total) ==>
      Collected(pages, total, wsID, offset) == Ok(InWorkspace(Receive(pages(offset)).value, wsID)) &&
      Offsets(pages, total, offset) == [offset]
    ensures Receive(pages(offset)).Ok? && !LastPage(offset, Receive(pages(offset)).value, total) ==>
      Collected(pages, total, wsID, offset) ==
        Prepend(InWorkspace(Receive(pages(offset)).value, wsID), Collected(pages, total, wsID, offset + PageLimit)) &&
      Offsets(pages, total, offset) == [offset] + Offsets(pages, total, offset + PageLimit) &&
      Remaining(offset + PageLimit, total) < Remaining(offset, total)
  {
  }

  /** The second loop of Service.Applications: each kept application's details, in order. */
  method FetchDetails(appInfos: seq<AppInfo>, details: string -> Reply<Application>) returns (r: Result<seq<Application>>)
    ensures r == Details(appInfos, details)
  {
    var apps: seq<Application> := [];
    var i := 0;
    while i < |appInfos|
      invariant 0 <= i <= |appInfos|
      invariant Details(appInfos, details) == Prepend(apps, Details(appInfos[i..], details))
    {
      var info := appInfos[i];
      assert appInfos[i..][0] == info && appInfos[i..][1..] == appInfos[i + 1..];
      var got := Receive(details(info.id));
      if got.Err? {
        return Err(got.error);
      }
      var app := got.value.(wsId := info.wsId);
      PrependTwice(apps, [app], Details(appInfos[i + 1..], details));
      apps := apps + [app];
      i := i + 1;
    }
    assert appInfos[i..] == [] && apps + [] == apps;
    return Ok(apps);
  }

  // ---------------------------------------------------------------------------
  // AppPolicies

  datatype Policy = Policy(id: string, name: string, state: string, accessType: string)

  const Inactive := "Inactive"

  /**
   * What json.Unmarshal leaves behind for the policy list: the entries it filled
   * in, and its error. A type mismatch elsewhere in the body reports an error yet
   * still fills the entries, so both can be present at once.
   */
  datatype Decoded = Decoded(data: seq<Policy>, decodeErr: Option<string>)

  /** The policies that are not exactly "Inactive", in list order. */
  function Active(ps: seq<Policy>): (r: seq<Policy>)
    ensures forall p :: p in r <==> p in ps && p.state != Inactive
    ensures |r| <= |ps|
  {
    if ps == [] then []
    else (if ps[0].state != Inactive then [ps[0]] else []) + Active(ps[1..])
  }

  /** Fetches the rego body of each policy in order; any failure fails the whole list. */
  function Bodies(ps: seq<Policy>, body: string -> Reply<string>): Result<seq<string>>
  {
    if ps == [] then Ok([])
    else
      match Receive(body(ps[0].id))
      case Err(e) => Err(e)
      case Ok(b) => Prepend([b], Bodies(ps[1..], body))
  }

  /**
   * AppPolicies as written: the list's status is checked but its decode error is
   * not; the error is returned only at the end, and `req, err = http.NewRequest`
   * overwrites it with nil as soon as one active policy has been requested.
   */
  function PoliciesAsWritten(list: Reply<Decoded>, body: string -> Reply<string>): Result<seq<string>>
  {
    match list
    case Failed(reason) => Err(reason)
    case Reply(status, decoded) =>
      if status != StatusOK then Err("unexpected status")
      else
        var ps := if decoded.Some? then decoded.value.data else [];
        var lost := if decoded.Some? then decoded.value.decodeErr else Some("failed to parse response");
        match Bodies(Active(ps), body)
        case Err(e) => Err(e)
        case Ok(bodies) =>
          if Active(ps) == [] && lost.Some? then Err(lost.value) else Ok(bodies)
  }

  /** AppPolicies as evidently intended: a list that does not decode is an error. */
  function Policies(list: Reply<Decoded>, body: string -> Reply<string>): Result<seq<string>>
  {
    match Receive(list)
    case Err(e) => Err(e)
    case Ok(d) =>
      if d.decodeErr.Some? then Err(d.decodeErr.value)
      else Bodies(Active(d.data), body)
  }

  /**
   * Service.AppPolicies, as written: keeps the Go `err` variable, which holds the
   * decode error until the first active policy's request overwrites it.
   */
  method AppPolicies(list: Reply<Decoded>, body: string -> Reply<string>) returns (r: Result<seq<string>>)
    ensures r == PoliciesAsWritten(list, body)
  {
    if list.Failed? {
      return Err(list.reason);
    }
    if list.status != StatusOK {
      return Err("unexpected status");
    }
    var pols: seq<Policy> := [];
    var err: Option<string> := Some("failed to parse response");
    if list.decoded.Some? {
      pols := list.decoded.value.data;
      err := list.decoded.value.decodeErr;
    }
    ghost var lost := err;
    var policies: seq<string> := [];
    var i := 0;
    assert pols[0..] == pols && pols[..0] == [];
    while i < |pols|
      invariant 0 <= i <= |pols|
      invariant Bodies(Active(pols), body) == Prepend(policies, Bodies(Active(pols[i..]), body))
      invariant err == if Active(pols[..i]) == [] then lost else None
    {
      ActiveStep(pols, i);
      ghost var rest := Active(pols[i + 1..]);
      if pols[i].state == Inactive {
        assert Active(pols[i..]) == rest;
        i := i + 1;
        continue;
      }
      assert Active(pols[i..]) == [pols[i]] + rest;
      assert ([pols[i]] + rest)[0] == pols[i] && ([pols[i]] + rest)[1..] == rest;
      err := None;  // req, err = http.NewRequest(...) succeeds
      var got := Receive(body(pols[i].id));
      if got.Err? {
        return Err(got.error);
      }
      assert Bodies(Active(pols[i..]), body) == Prepend([got.value], Bodies(rest, body));
      PrependTwice(policies, [got.value], Bodies(rest, body));
      policies := policies + [got.value];
      i := i + 1;
    }
    assert pols[..|pols|] == pols && pols[|pols|..] == [] && policies + [] == policies;
    if err.Some? {
      return Err(err.value);
    }
    return Ok(policies);
  }

  /** How one more policy extends the active prefix and shortens the active suffix. */
  lemma ActiveStep(ps: seq<Policy>, i: nat)
    requires i < |ps|
    ensures Active(ps[..i + 1]) == Active(ps[..i]) + (if ps[i].state != Inactive then [ps[i]] else [])
    ensures Active(ps[i..]) == (if ps[i].state != Inactive then [ps[i]] else []) + Active(ps[i + 1..])
    ensures Active(ps[..i + 1]) == [] ==> Active(ps[..i]) == []
  {
    assert ps[i..][0] == ps[i] && ps[i..][1..] == ps[i + 1..];
    assert ps[..i + 1] == ps[..i] + [ps[i]];
    ActiveAppend(ps[..i], [ps[i]]);
    assert [ps[i]][1..] == [];
  }

  lemma {:induction false} ActiveAppend(a: seq<Policy>, b: seq<Policy>)
    ensures Active(a + b) == Active(a) + Active(b)
  {
    if a == [] {
      assert a + b == b;
    } else {
      assert (a + b)[1..] == a[1..] + b;
      ActiveAppend(a[1..], b);
    }
  }

  /** The intended AppPolicies returns the bodies of exactly the active policies, in order. */
  lemma {:induction false} BodiesOfActive(ps: seq<Policy>, body: string -> Reply<string>)
    ensures Bodies(ps, body).Ok? <==> forall k :: 0 <= k < |ps| ==> Receive(body(ps[k].id)).Ok?
    ensures Bodies(ps, body).Ok? ==>
      |Bodies(ps, body).value| == |ps| &&
      forall k :: 0 <= k < |ps| ==> Bodies(ps, body).value[k] == Receive(body(ps[k].id)).value
  {
    if ps != [] {
      BodiesOfActive(ps[1..], body);
      if Receive(body(ps[0].id)).Ok? && Bodies(ps[1..], body).Ok? {
        var r := Bodies(ps, body).value;
        forall k | 0 <= k < |ps|
          ensures r[k] == Receive(body(ps[k].id)).value
        {
          if k > 0 {
            assert ps[k] == ps[1..][k - 1];
          }
        }
      }
      if forall k :: 0 <= k < |ps| ==> Receive(body(ps[k].id)).Ok? {
        assert Receive(body(ps[0].id)).Ok?;
        forall k | 0 <= k < |ps[1..]|
          ensures Receive(body(ps[1..][k].id)).Ok?
        {
          assert ps[1..][k] == ps[k + 1];
        }
      }
    }
  }

  /** The intended AppPolicies fails on an undecodable list, and agrees with the code when the list decodes. */
  lemma PoliciesReportDecodeError(list: Reply<Decoded>, body: string -> Reply<string>)
    ensures list.Reply? && list.decoded.Some? && list.decoded.value.decodeErr.Some? ==> Policies(list, body).Err?
    ensures list.Reply? && list.decoded.Some? && list.decoded.value.decodeErr.None? ==>
      Policies(list, body) == PoliciesAsWritten(list, body)
  {
  }

  /**
   * As written, a list whose body decodes with an error but still yields one active
   * policy comes back as success: the decode error is lost.
   */
  lemma DecodeErrorMasked()
    ensures
      var list := Reply(StatusOK, Some(Decoded([Policy("p1", "allow", "Active", "Allow")], Some("cannot unmarshal string into Go struct field Meta.meta.total of type int"))));
      PoliciesAsWritten(list, RegoServer) == Ok(["package policy"]) && Policies(list, RegoServer).Err?
  {
    var ps := [Policy("p1", "allow", "Active", "Allow")];
    assert Active(ps) == ps by {
      assert Active(ps[1..]) == [];
    }
    assert Bodies(ps, RegoServer) == Ok(["package policy"]) by {
      assert ps[1..] == [];
      assert Bodies(ps[1..], RegoServer) == Ok([]);
      assert ["package policy"] + [] == ["package policy"];
    }
  }

  /** A policy server that answers every policy with the same rego body. */
  function RegoServer(id: string): Reply<string> {
    Reply(StatusOK, Some("package policy"))
  }

  // ---------------------------------------------------------------------------
  // AssetTemplateIDs

  datatype AssetType = AssetType(id: string, externalId: string, name: string, description: string, ownerId: string)

  /** Service.AssetTemplateIDs: the externalId of each asset type, in order. */
  method AssetTemplateIDs(reply: Reply<seq<AssetType>>) returns (r: Result<seq<string>>)
    ensures r.Ok? <==> Receive(reply).Ok?
    ensures r.Ok? ==> |r.value| == |Receive(reply).value|
    ensures r.Ok? ==> forall k :: 0 <= k < |r.value| ==> r.value[k] == Receive(reply).value[k].externalId
  {
    var got := Receive(reply);
    if got.Err? {
      return Err(got.error);
    }
    var ids: seq<string> := [];
    for i := 0 to |got.value|
      invariant |ids| == i
      invariant forall k :: 0 <= k < i ==> ids[k] == got.value[k].externalId
    {
      ids := ids + [got.value[i].externalId];
    }
    return Ok(ids);
  }

  // ---------------------------------------------------------------------------
  // PAAGroups

  /** A PAA group; `content` stands for its remaining JSON fields, sources and views are filled in afterwards. */
  datatype PAAGroup = PAAGroup(id: string, content: string, sources: seq<string>, views: seq<string>)

  /** Attaches to each group, from index `i` on, the sources and views fetched for its id. */
  function Attached(groups: seq<PAAGroup>, i: nat,
                    sources: string -> Reply<seq<string>>, views: string -> Reply<seq<string>>): Result<seq<PAAGroup>>
    requires i <= |groups|
    decreases |groups| - i
  {
    if i == |groups| then Ok(groups)
    else
      match Receive(sources(groups[i].id))
      case Err(e) => Err(Wrap("failed to fetch PAA group sources for " + groups[i].id, e))
      case Ok(s) =>
        match Receive(views(groups[i].id))
        case Err(e) => Err(Wrap("failed to fetch PAA group views for " + groups[i].id, e))
        case Ok(v) => Attached(groups[i := groups[i].(sources := s, views := v)], i + 1, sources, views)
  }

  /**
   * Service.PAAGroups: lists environment `envID`'s groups, then for each index
   * fetches the group's sources and views and assigns them to that index in place.
   */
  method PAAGroups(envID: string, list: Reply<seq<PAAGroup>>,
                   sources: string -> Reply<seq<string>>, views: string -> Reply<seq<string>>)
    returns (r: Result<seq<PAAGroup>>)
    ensures Receive(list).Err? ==> r == Err(Wrap("failed to fetch PAA groups for " + envID, Receive(list).error))
    ensures Receive(list).Ok? ==> r == Attached(Receive(list).value, 0, sources, views)
  {
    var got := Receive(list);
    if got.Err? {
      return Err(Wrap("failed to fetch PAA groups for " + envID, got.error));
    }
    var data := got.value;
    var i := 0;
    while i < |data|
      invariant 0 <= i <= |data|
      invariant Attached(got.value, 0, sources, views) == Attached(data, i, sources, views)
    {
      var id := data[i].id;
      var s := Receive(sources(id));
      if s.Err? {
        return Err(Wrap("failed to fetch PAA group sources for " + id, s.error));
      }
      ghost var before := data;
      data := data[i := data[i].(sources := s.value)];
      var v := Receive(views(id));
      if v.Err? {
        return Err(Wrap("failed to fetch PAA group views for " + id, v.error));
      }
      data := data[i := data[i].(views := v.value)];
      assert data == before[i := before[i].(sources := s.value, views := v.value)];
      i := i + 1;
    }
    return Ok(data);
  }

  /**
   * The groups keep their number, order, ids and content; group k receives the
   * sources and views fetched for its own id; and the call fails exactly when one
   * of those fetches fails.
   */
  lemma {:induction false} AttachedPerIndex(groups: seq<PAAGroup>, i: nat,
                                            sources: string -> Reply<seq<string>>, views: string -> Reply<seq<string>>)
    requires i <= |groups|
    ensures Attached(groups, i, sources, views).Ok? <==>
      forall k :: i <= k < |groups| ==> Receive(sources(groups[k].id)).Ok? && Receive(views(groups[k].id)).Ok?
    ensures Attached(groups, i, sources, views).Ok? ==>
      var r := Attached(groups, i, sources, views).value;
      |r| == |groups| &&
      (forall k :: 0 <= k < i ==> r[k] == groups[k]) &&
      forall k :: i <= k < |groups| ==>
        r[k] == groups[k].(sources := Receive(sources(groups[k].id)).value, views := Receive(views(groups[k].id)).value)
    decreases |groups| - i
  {
    if i < |groups| {
      var s := Receive(sources(groups[i].id));
      var v := Receive(views(groups[i].id));
      if s.Ok? && v.Ok? {
        var next := groups[i := groups[i].(sources := s.value, views := v.value)];
        AttachedPerIndex(next, i + 1, sources, views);
        assert forall k :: i < k < |groups| ==> next[k] == groups[k];
      }
    }
  }
}
